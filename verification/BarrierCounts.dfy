/**
 How often each client has called and been answered, and how many calls and wakes there were in all:
 equations that hold at every moment of every run with fixed clients, whatever the interleaving.
 */
module BarrierCounts {
  import opened FiniteSets
  import opened Sums
  import opened MetricBarrier
  import opened BarrierLiveness

  /** The answers a client has got, in order. */
  function Heard(replies: seq<Reply>, c: Client): seq<bool> {
    if replies == [] then []
    else Heard(replies[..|replies| - 1], c)
         + if replies[|replies| - 1].client == c then [replies[|replies| - 1].stop] else []
  }

  /** The batches a client has trained: one call each. */
  function Trained(es: seq<Event>, c: Client): nat {
    if es == [] then 0
    else Trained(es[..|es| - 1], c)
         + if es[|es| - 1].Arrive? && es[|es| - 1].client == c then 1 else 0
  }

  function ArrivalsIn(es: seq<Event>): nat {
    if es == [] then 0 else ArrivalsIn(es[..|es| - 1]) + if es[|es| - 1].Arrive? then 1 else 0
  }

  function WakesIn(es: seq<Event>): nat {
    if es == [] then 0 else WakesIn(es[..|es| - 1]) + if es[|es| - 1].Wake? then 1 else 0
  }

  /** How many batches have been passed by everyone. */
  function Completed(s: Server, es: seq<Event>): nat {
    if es == [] then 0
    else Completed(s, es[..|es| - 1]) + if Completes(Run(s, es[..|es| - 1]), es[|es| - 1]) then 1 else 0
  }

  predicate LiveOrDoomed(s: Server) {
    Live(s) || Doomed(s)
  }

  /** A step that leaves the set of clients as it is. */
  predicate Keeps(s: Server, e: Event) {
    Enabled(s, e) && (e.EndRound? ==> e.next == s.clients)
  }

  lemma EitherStep(s: Server, e: Event)
    requires LiveOrDoomed(s) && Keeps(s, e)
    ensures LiveOrDoomed(Next(s, e)) && Next(s, e).clients == s.clients
    ensures Fills(s, e) ==> Live(s) && s.processed == 0
  {
    if Doomed(s) {
      DoomedStep(s, e);
    } else if Strands(s, e) {
      StrandingStep(s, e);
    } else {
      LiveStep(s, e);
    }
  }

  /** The call that fills the barrier finds everyone else waiting. */
  lemma OthersWait(s: Server, e: Event)
    requires LiveOrDoomed(s) && Keeps(s, e) && Fills(s, e)
    ensures s.processed == 0 && s.notified == {} && s.waiting == s.clients - {e.client}
    ensures |s.waiting| == |s.clients| - 1
  {
    EitherStep(s, e);
    var others := s.clients - {e.client};
    SubsetSize({e.client}, s.clients);
    SubsetSize(s.waiting, others);
  }

  // ----------------------------------------------------------- one client

  /** A client waiting has called once more than there were fillings; one that is notified has an
      answer still to come. */
  predicate CountsAt(s: Server, fillings: nat, c: Client, heard: nat, trained: nat) {
    && trained == fillings + (if c in s.waiting then 1 else 0)
    && heard + (if c in s.notified then 1 else 0) == fillings
  }

  lemma CountsStep(s: Server, e: Event, fillings: nat, c: Client, heard: nat, trained: nat)
    requires LiveOrDoomed(s) && Keeps(s, e) && c in s.clients && CountsAt(s, fillings, c, heard, trained)
    ensures CountsAt(Next(s, e), if Fills(s, e) then fillings + 1 else fillings, c,
                     if Answers(s, e) && e.client == c then heard + 1 else heard,
                     if e.Arrive? && e.client == c then trained + 1 else trained)
  {
    if Fills(s, e) {
      OthersWait(s, e);
    }
  }

  lemma HeardSnoc(replies: seq<Reply>, r: Reply, c: Client)
    ensures Heard(replies + [r], c) == Heard(replies, c) + if r.client == c then [r.stop] else []
  {
    assert (replies + [r])[..|replies + [r]| - 1] == replies;
  }

  lemma HeardStep(s0: Server, es: seq<Event>, c: Client)
    requires es != []
    ensures var u, e := Run(s0, es[..|es| - 1]), es[|es| - 1];
      Heard(Replies(s0, es), c) == Heard(Replies(s0, es[..|es| - 1]), c)
        + if Answers(u, e) && e.client == c then [Emitted(u, e)[0].stop] else []
  {
    var pre, u, e := es[..|es| - 1], Run(s0, es[..|es| - 1]), es[|es| - 1];
    if Answers(u, e) {
      HeardSnoc(Replies(s0, pre), Emitted(u, e)[0], c);
    } else {
      assert Replies(s0, es) == Replies(s0, pre);
    }
  }

  lemma {:induction false} LiveOrDoomedRuns(s: Server, es: seq<Event>)
    requires LiveOrDoomed(s) && Valid(s, es) && FixedClients(s, es)
    ensures LiveOrDoomed(Run(s, es)) && Run(s, es).clients == s.clients
  {
    if es == [] {
    } else {
      LiveOrDoomedRuns(s, es[..|es| - 1]);
      EitherStep(Run(s, es[..|es| - 1]), es[|es| - 1]);
    }
  }

  lemma {:induction false} CountsHold(clients: set<Client>, t: real, d: real, es: seq<Event>, c: Client)
    requires c in clients && Valid(Init(clients, t, d), es) && FixedClients(Init(clients, t, d), es)
    ensures var s0 := Init(clients, t, d);
      CountsAt(Run(s0, es), Fillings(s0, es), c, |Heard(Replies(s0, es), c)|, Trained(es, c))
  {
    if es == [] {
    } else {
      var s0, pre := Init(clients, t, d), es[..|es| - 1];
      CountsHold(clients, t, d, pre, c);
      LiveOrDoomedRuns(s0, pre);
      HeardStep(s0, es, c);
      CountsStep(Run(s0, pre), es[|es| - 1], Fillings(s0, pre), c, |Heard(Replies(s0, pre), c)|, Trained(pre, c));
    }
  }

  /** At every moment of every run, disciplined or not, two clients have trained numbers of batches
      that differ by at most one. */
  lemma NeverMoreThanOneApart(clients: set<Client>, t: real, d: real, es: seq<Event>, c: Client, c': Client)
    requires c in clients && c' in clients
    requires Valid(Init(clients, t, d), es) && FixedClients(Init(clients, t, d), es)
    ensures Trained(es, c) <= Trained(es, c') + 1
  {
    CountsHold(clients, t, d, es, c);
    CountsHold(clients, t, d, es, c');
  }

  // ----------------------------------------------------------- all clients

  datatype Totals = Totals(fillings: nat, completed: nat, arrivals: nat, wakes: nat)

  function Counted(t: Totals, s: Server, e: Event): Totals {
    Totals(t.fillings + (if Fills(s, e) then 1 else 0), t.completed + (if Completes(s, e) then 1 else 0),
           t.arrivals + (if e.Arrive? then 1 else 0), t.wakes + (if e.Wake? then 1 else 0))
  }

  function TotalsOf(s: Server, es: seq<Event>): Totals {
    if es == [] then Totals(0, 0, 0, 0)
    else Counted(TotalsOf(s, es[..|es| - 1]), Run(s, es[..|es| - 1]), es[|es| - 1])
  }

  lemma {:induction false} TotalsAre(s: Server, es: seq<Event>)
    ensures TotalsOf(s, es) == Totals(Fillings(s, es), Completed(s, es), ArrivalsIn(es), WakesIn(es))
  {
    if es == [] {
    } else {
      TotalsAre(s, es[..|es| - 1]);
    }
  }

  predicate TotalsAt(s: Server, n: nat, t: Totals)
    requires n > 0
  {
    && t.arrivals == Multiple(t.fillings, n) + |s.waiting|
    && t.wakes + |s.notified| == Multiple(t.fillings, n - 1)
    && t.fillings == t.completed + (if s.processed > 0 then 1 else 0)
  }

  lemma FillingTotals(s: Server, e: Event, n: nat, t: Totals)
    requires LiveOrDoomed(s) && Keeps(s, e) && n == |s.clients| > 0 && TotalsAt(s, n, t) && Fills(s, e)
    ensures TotalsAt(Next(s, e), n, Counted(t, s, e))
  {
    OthersWait(s, e);
    assert AtVerdict(s, e).notified == s.waiting;
    assert Counted(t, s, e).fillings == t.fillings + 1;
  }

  lemma WaitingTotals(s: Server, e: Event, n: nat, t: Totals)
    requires LiveOrDoomed(s) && Keeps(s, e) && n == |s.clients| > 0 && TotalsAt(s, n, t)
    requires e.Arrive? && !Fills(s, e)
    ensures TotalsAt(Next(s, e), n, Counted(t, s, e))
  {
    WaitsFit(s, e.client);
  }

  lemma WakeTotals(s: Server, e: Event, n: nat, t: Totals)
    requires LiveOrDoomed(s) && Keeps(s, e) && n == |s.clients| > 0 && TotalsAt(s, n, t) && e.Wake?
    ensures TotalsAt(Next(s, e), n, Counted(t, s, e))
  {
    WakeShrinks(s, e.client);
  }

  lemma TotalsStep(s: Server, e: Event, n: nat, t: Totals)
    requires LiveOrDoomed(s) && Keeps(s, e) && n == |s.clients| > 0 && TotalsAt(s, n, t)
    ensures TotalsAt(Next(s, e), n, Counted(t, s, e))
  {
    if e.Wake? {
      WakeTotals(s, e, n, t);
    } else if Fills(s, e) {
      FillingTotals(s, e, n, t);
    } else if e.Arrive? {
      WaitingTotals(s, e, n, t);
    }
  }

  lemma {:induction false} TotalsHold(s0: Server, n: nat, es: seq<Event>)
    requires LiveOrDoomed(s0) && s0.waiting == {} && s0.processed == 0 && n == |s0.clients| > 0
    requires Valid(s0, es) && FixedClients(s0, es)
    ensures TotalsAt(Run(s0, es), n, TotalsOf(s0, es))
  {
    if es == [] {
    } else {
      var pre := es[..|es| - 1];
      TotalsHold(s0, n, pre);
      LiveOrDoomedRuns(s0, pre);
      TotalsStep(Run(s0, pre), es[|es| - 1], n, TotalsOf(s0, pre));
    }
  }

  lemma {:induction false} EventsAddUp(es: seq<Event>)
    ensures ArrivalsIn(es) + WakesIn(es) + Rounds(es) == |es|
  {
    if es == [] {
    } else {
      EventsAddUp(es[..|es| - 1]);
    }
  }

  lemma NotEmpty(clients: set<Client>)
    requires clients != {}
    ensures |clients| > 0
  {
  }

  /** Exact accounting for n clients after f fillings: n * f arrivals and those now waiting,
      (n - 1) * f wakes less those still notified, and nothing else but round resets. */
  lemma RunsAddUp(clients: set<Client>, t: real, d: real, es: seq<Event>)
    requires clients != {} && Valid(Init(clients, t, d), es) && FixedClients(Init(clients, t, d), es)
    ensures var s0 := Init(clients, t, d);
      var s, f := Run(s0, es), Fillings(s0, es);
      && ArrivalsIn(es) == Multiple(f, |clients|) + |s.waiting|
      && WakesIn(es) + |s.notified| == Multiple(f, |clients| - 1)
      && ArrivalsIn(es) + WakesIn(es) + Rounds(es) == |es|
  {
    NotEmpty(clients);
    TotalsHold(Init(clients, t, d), |clients|, es);
    TotalsAre(Init(clients, t, d), es);
    EventsAddUp(es);
  }

  lemma NobodyInside(s: Server, n: nat, t: Totals)
    requires LiveOrDoomed(s) && n > 0 && TotalsAt(s, n, t)
    ensures s.processed == 0 && s.waiting == {} <==>
      t.arrivals == Multiple(t.completed, n) && t.wakes == Multiple(t.completed, n - 1)
  {
    SubsetSize({}, s.waiting);
  }

  /** A batch takes exactly n arrivals and n - 1 wakes: nobody is inside the barrier exactly when
      those are the numbers of calls and wakes so far for the k batches completed. */
  lemma BatchesTakeExactly(clients: set<Client>, t: real, d: real, es: seq<Event>)
    requires clients != {} && Valid(Init(clients, t, d), es) && FixedClients(Init(clients, t, d), es)
    ensures var s0 := Init(clients, t, d);
      var s, k := Run(s0, es), Completed(s0, es);
      s.processed == 0 && s.waiting == {} <==>
        ArrivalsIn(es) == Multiple(k, |clients|) && WakesIn(es) == Multiple(k, |clients| - 1)
  {
    var s0 := Init(clients, t, d);
    NotEmpty(clients);
    TotalsHold(s0, |clients|, es);
    TotalsAre(s0, es);
    LiveOrDoomedRuns(s0, es);
    NobodyInside(Run(s0, es), |clients|, TotalsOf(s0, es));
  }
}
