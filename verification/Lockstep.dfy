/**
 One federated round: n training loops that report the norm of every batch to the barrier and go on
 until it answers "stop". `norm(c, j)` is the drift of client c after its batch number j (from 0).
 A loop that hears "continue" may call again at once, also while the batch still drains.
 */
module Lockstep {
  import opened FiniteSets
  import opened Sums
  import opened MetricBarrier
  import opened BarrierLiveness
  import opened BarrierCounts

  type NormsOf = (Client, nat) -> real

  /** Some participant leaves the safe ball at batch j. */
  ghost predicate Crossed(norm: NormsOf, clients: set<Client>, t: real, j: nat) {
    exists c :: c in clients && norm(c, j) > t
  }

  ghost predicate NoneBefore(norm: NormsOf, clients: set<Client>, t: real, k: nat) {
    forall j: nat :: j < k ==> !Crossed(norm, clients, t, j)
  }

  ghost predicate FirstCrossing(norm: NormsOf, clients: set<Client>, t: real, b: nat) {
    Crossed(norm, clients, t, b) && NoneBefore(norm, clients, t, b)
  }

  /** Every call comes from a loop that was never told to stop and carries that loop's next norm. */
  ghost predicate Training(s0: Server, norm: NormsOf, es: seq<Event>) {
    es == [] ||
    (var pre, e := es[..|es| - 1], es[|es| - 1];
     && Training(s0, norm, pre)
     && match e
        case EndRound(_) => false
        case Wake(_) => true
        case Arrive(c, x) => true !in Heard(Replies(s0, pre), c) && x == norm(c, Trained(pre, c)))
  }

  /** A run of one round, however the loops interleave. */
  ghost predicate RoundRun(clients: set<Client>, t: real, d: real, norm: NormsOf, es: seq<Event>) {
    clients != {} && Valid(Init(clients, t, d), es) && Training(Init(clients, t, d), norm, es)
  }

  /** Told to stop. */
  ghost predicate Stopped(s0: Server, es: seq<Event>, c: Client) {
    true in Heard(Replies(s0, es), c)
  }

  ghost predicate AllStopped(clients: set<Client>, t: real, d: real, es: seq<Event>) {
    forall c <- clients :: Stopped(Init(clients, t, d), es, c)
  }

  // ------------------------------------------------------------ the server

  lemma {:induction false} OneRoundOnly(s0: Server, norm: NormsOf, es: seq<Event>)
    requires Training(s0, norm, es)
    ensures Rounds(es) == 0 && FixedClients(s0, es)
  {
    if es == [] {
    } else {
      OneRoundOnly(s0, norm, es[..|es| - 1]);
    }
  }

  lemma ServerHolds(clients: set<Client>, t: real, d: real, norm: NormsOf, es: seq<Event>)
    requires RoundRun(clients, t, d, norm, es)
    ensures Rounds(es) == 0 && FixedClients(Init(clients, t, d), es)
    ensures var s := Run(Init(clients, t, d), es);
      LiveOrDoomed(s) && s.clients == clients && s.threshold == t && s.discount == d
  {
    OneRoundOnly(Init(clients, t, d), norm, es);
    LiveOrDoomedRuns(Init(clients, t, d), es);
    RoundThreshold(clients, t, d, es);
  }

  // ------------------------------------------------------------ one client

  /** If a loop was told to stop, then by the answer to its latest batch. */
  predicate OnlyLastStops(heard: seq<bool>, trained: nat) {
    forall j: nat :: j < |heard| && heard[j] ==> j + 1 == trained
  }

  predicate ClientAt(s: Server, fillings: nat, c: Client, heard: seq<bool>, trained: nat) {
    CountsAt(s, fillings, c, |heard|, trained) && OnlyLastStops(heard, trained)
  }

  function HeardNext(s: Server, e: Event, c: Client, heard: seq<bool>): seq<bool> {
    heard + if Answers(s, e) && e.client == c then [Emitted(s, e)[0].stop] else []
  }

  lemma ClientStep(s: Server, e: Event, fillings: nat, c: Client, heard: seq<bool>, trained: nat)
    requires LiveOrDoomed(s) && Keeps(s, e) && c in s.clients && ClientAt(s, fillings, c, heard, trained)
    requires e.Arrive? && e.client == c ==> true !in heard
    ensures ClientAt(Next(s, e), if Fills(s, e) then fillings + 1 else fillings, c, HeardNext(s, e, c, heard),
                     if e.Arrive? && e.client == c then trained + 1 else trained)
  {
    CountsStep(s, e, fillings, c, |heard|, trained);
  }

  lemma {:induction false} ClientHolds(clients: set<Client>, t: real, d: real, norm: NormsOf, es: seq<Event>, c: Client)
    requires RoundRun(clients, t, d, norm, es) && c in clients
    ensures var s0 := Init(clients, t, d);
      ClientAt(Run(s0, es), Fillings(s0, es), c, Heard(Replies(s0, es), c), Trained(es, c))
  {
    if es == [] {
    } else {
      var s0, pre := Init(clients, t, d), es[..|es| - 1];
      ClientHolds(clients, t, d, norm, pre, c);
      ServerHolds(clients, t, d, norm, pre);
      HeardStep(s0, es, c);
      ClientStep(Run(s0, pre), es[|es| - 1], Fillings(s0, pre), c, Heard(Replies(s0, pre), c), Trained(pre, c));
    }
  }

  /** A client inside the barrier has heard only "continue". */
  lemma InsideGoesOn(s: Server, fillings: nat, c: Client, heard: seq<bool>, trained: nat)
    requires LiveOrDoomed(s) && ClientAt(s, fillings, c, heard, trained)
    requires c in s.waiting || c in s.notified
    ensures true !in heard
  {
    forall j: nat | j < |heard| ensures !heard[j] {
    }
  }

  // ---------------------------------------------------------------- order

  lemma {:induction false} OrderlyIffNeverStrands(s: Server, es: seq<Event>)
    requires Rounds(es) == 0
    ensures Orderly(s, es) <==> NeverStrands(s, es)
  {
    if es == [] {
    } else {
      OrderlyIffNeverStrands(s, es[..|es| - 1]);
    }
  }

  lemma NobodyLeftInside(clients: set<Client>, t: real, d: real, norm: NormsOf, es: seq<Event>)
    requires RoundRun(clients, t, d, norm, es) && AllStopped(clients, t, d, es)
    ensures var s := Run(Init(clients, t, d), es); s.waiting == {} && s.notified == {}
  {
    var s0 := Init(clients, t, d);
    var s := Run(s0, es);
    ServerHolds(clients, t, d, norm, es);
    forall c <- clients ensures c !in s.waiting && c !in s.notified {
      ClientHolds(clients, t, d, norm, es, c);
      if c in s.waiting || c in s.notified {
        InsideGoesOn(s, Fillings(s0, es), c, Heard(Replies(s0, es), c), Trained(es, c));
      }
    }
  }

  /** A round in which everyone is told to stop was orderly: nobody had re-entered during a drain. */
  lemma StoppedIsOrderly(clients: set<Client>, t: real, d: real, norm: NormsOf, es: seq<Event>)
    requires RoundRun(clients, t, d, norm, es) && AllStopped(clients, t, d, es)
    ensures Orderly(Init(clients, t, d), es)
    ensures var s := Run(Init(clients, t, d), es); s.processed == 0 && s.waiting == {} && s.notified == {}
  {
    var s0 := Init(clients, t, d);
    NobodyLeftInside(clients, t, d, norm, es);
    ServerHolds(clients, t, d, norm, es);
    OrderlyIffNeverStrands(s0, es);
    if !NeverStrands(s0, es) {
      StrandedRuns(s0, es);
    }
  }

  // ---------------------------------------------- what the server decides

  ghost predicate OpenCalls(k: nat, norm: NormsOf, calls: seq<Event>) {
    forall e <- calls :: e.Arrive? && e.norm == norm(e.client, k)
  }

  /** An orderly round with k batches complete and the observer's notes on the open one. */
  ghost predicate RoundAt(s: Server, k: nat, norm: NormsOf, open: Batch) {
    s.clients != {} && (Filling(s) || Draining(s)) && OpenMatches(s, open) && OpenCalls(k, norm, open.calls)
  }

  /** The server's decision is whether some participant crosses at this batch. */
  lemma VerdictIsCrossing(calls: seq<Event>, clients: set<Client>, k: nat, norm: NormsOf, t: real)
    requires OpenCalls(k, norm, calls) && Callers(calls) == clients
    ensures Exceeds(Norms(calls), t) <==> Crossed(norm, clients, t, k)
  {
    var ns := Norms(calls);
    if Exceeds(ns, t) {
      var i :| 0 <= i < |ns| && ns[i] > t;
      assert calls[i] in calls && calls[i].client in clients;
    }
    if Crossed(norm, clients, t, k) {
      var c :| c in clients && norm(c, k) > t;
      var i :| 0 <= i < |calls| && calls[i].client == c;
      assert ns[i] > t;
    }
  }

  lemma VerdictAt(s: Server, e: Event, k: nat, norm: NormsOf, open: Batch)
    requires RoundAt(s, k, norm, open) && Enabled(s, e) && Answers(s, e)
    requires e.Arrive? ==> s.processed == 0 && e.norm == norm(e.client, k)
    ensures Emitted(s, e)[0].stop == Crossed(norm, s.clients, s.threshold, k)
  {
    if e.Arrive? {
      FillingArrival(s, e, open);
      VerdictIsCrossing(open.calls + [e], s.clients, k, norm, s.threshold);
    } else {
      VerdictIsCrossing(open.calls, s.clients, k, norm, s.threshold);
    }
  }

  lemma RoundStep(s: Server, e: Event, k: nat, norm: NormsOf, open: Batch)
    requires RoundAt(s, k, norm, open) && Enabled(s, e) && !e.EndRound?
    requires e.Arrive? ==> s.processed == 0 && e.norm == norm(e.client, k)
    ensures RoundAt(Next(s, e), if Completes(s, e) then k + 1 else k, norm, Observe(Log([], open), s, e).open)
  {
    OrderlyStep(s, e, open);
  }

  /** Each answer is whether some participant crossed at the batch it answers. */
  ghost predicate HeardTruth(norm: NormsOf, clients: set<Client>, t: real, heard: seq<bool>) {
    forall j: nat :: j < |heard| ==> heard[j] == Crossed(norm, clients, t, j)
  }

  lemma TruthStep(s: Server, e: Event, k: nat, norm: NormsOf, open: Batch, c: Client, heard: seq<bool>)
    requires RoundAt(s, k, norm, open) && Enabled(s, e)
    requires e.Arrive? ==> s.processed == 0 && e.norm == norm(e.client, k)
    requires HeardTruth(norm, s.clients, s.threshold, heard)
    requires Answers(s, e) && e.client == c ==> |heard| == k
    ensures HeardTruth(norm, s.clients, s.threshold, HeardNext(s, e, c, heard))
  {
    if Answers(s, e) && e.client == c {
      VerdictAt(s, e, k, norm, open);
    }
  }

  /** Fillings, completed batches and the phase. */
  lemma FillingsAt(clients: set<Client>, t: real, d: real, norm: NormsOf, es: seq<Event>)
    requires RoundRun(clients, t, d, norm, es)
    ensures var s0 := Init(clients, t, d);
      Fillings(s0, es) == Completed(s0, es) + if Run(s0, es).processed > 0 then 1 else 0
  {
    ServerHolds(clients, t, d, norm, es);
    NotEmpty(clients);
    TotalsHold(Init(clients, t, d), |clients|, es);
    TotalsAre(Init(clients, t, d), es);
  }

  /** What the next event of an orderly round brings. */
  lemma NextEvent(clients: set<Client>, t: real, d: real, norm: NormsOf, es: seq<Event>)
    requires es != [] && RoundRun(clients, t, d, norm, es) && Orderly(Init(clients, t, d), es)
    ensures var s0, pre, e := Init(clients, t, d), es[..|es| - 1], es[|es| - 1];
      var u, k := Run(s0, pre), Completed(s0, pre);
      && RoundRun(clients, t, d, norm, pre) && Orderly(s0, pre)
      && Enabled(u, e) && !e.EndRound? && u.clients == clients && u.threshold == t
      && (e.Arrive? ==> u.processed == 0 && e.norm == norm(e.client, k))
      && (Answers(u, e) ==> |Heard(Replies(s0, pre), e.client)| == k)
  {
    var s0, pre, e := Init(clients, t, d), es[..|es| - 1], es[|es| - 1];
    ServerHolds(clients, t, d, norm, pre);
    if !e.EndRound? {
      FillingsAt(clients, t, d, norm, pre);
      ClientHolds(clients, t, d, norm, pre, e.client);
    }
  }

  lemma {:induction false} RoundHolds(clients: set<Client>, t: real, d: real, norm: NormsOf, es: seq<Event>)
    requires RoundRun(clients, t, d, norm, es) && Orderly(Init(clients, t, d), es)
    ensures var s0 := Init(clients, t, d);
      RoundAt(Run(s0, es), Completed(s0, es), norm, Observed(s0, es).open)
  {
    if es == [] {
    } else {
      var s0, pre := Init(clients, t, d), es[..|es| - 1];
      NextEvent(clients, t, d, norm, es);
      RoundHolds(clients, t, d, norm, pre);
      RoundStep(Run(s0, pre), es[|es| - 1], Completed(s0, pre), norm, Observed(s0, pre).open);
    }
  }

  /** In an orderly round every client is told, batch by batch, exactly whether some participant crossed. */
  lemma {:induction false} ToldTheTruth(clients: set<Client>, t: real, d: real, norm: NormsOf, es: seq<Event>, c: Client)
    requires RoundRun(clients, t, d, norm, es) && Orderly(Init(clients, t, d), es)
    ensures HeardTruth(norm, clients, t, Heard(Replies(Init(clients, t, d), es), c))
  {
    if es == [] {
    } else {
      var s0, pre := Init(clients, t, d), es[..|es| - 1];
      NextEvent(clients, t, d, norm, es);
      RoundHolds(clients, t, d, norm, pre);
      ToldTheTruth(clients, t, d, norm, pre, c);
      HeardStep(s0, es, c);
      TruthStep(Run(s0, pre), es[|es| - 1], Completed(s0, pre), norm, Observed(s0, pre).open, c,
                Heard(Replies(s0, pre), c));
    }
  }

  // -------------------------------------------------------------- results

  /** A client told to stop outside the barrier has trained up to the first crossing. */
  lemma StoppedAtCrossing(norm: NormsOf, clients: set<Client>, t: real, heard: seq<bool>, trained: nat)
    requires HeardTruth(norm, clients, t, heard) && OnlyLastStops(heard, trained) && true in heard && |heard| == trained
    ensures trained > 0 && FirstCrossing(norm, clients, t, trained - 1)
  {
    var j: nat :| j < |heard| && heard[j];
  }

  lemma StoppedClient(clients: set<Client>, t: real, d: real, norm: NormsOf, es: seq<Event>, c: Client)
    requires RoundRun(clients, t, d, norm, es) && AllStopped(clients, t, d, es) && c in clients
    ensures var s0 := Init(clients, t, d);
      && Trained(es, c) == |Heard(Replies(s0, es), c)| == Fillings(s0, es) == Completed(s0, es) > 0
      && FirstCrossing(norm, clients, t, Fillings(s0, es) - 1)
      && HeardTruth(norm, clients, t, Heard(Replies(s0, es), c))
  {
    var s0 := Init(clients, t, d);
    StoppedIsOrderly(clients, t, d, norm, es);
    FillingsAt(clients, t, d, norm, es);
    ClientHolds(clients, t, d, norm, es, c);
    ToldTheTruth(clients, t, d, norm, es, c);
    StoppedAtCrossing(norm, clients, t, Heard(Replies(s0, es), c), Trained(es, c));
  }

  /** Lockstep and first crossing: when every participant has been told to stop, all have trained the
      same b + 1 batches, where b is the first batch at which anyone crossed, so some participant's
      last norm exceeds the threshold; the barrier was passed exactly b + 1 times. */
  lemma AllStopAtFirstCrossing(clients: set<Client>, t: real, d: real, norm: NormsOf, es: seq<Event>) returns (b: nat)
    requires RoundRun(clients, t, d, norm, es) && AllStopped(clients, t, d, es)
    ensures FirstCrossing(norm, clients, t, b) && Completed(Init(clients, t, d), es) == b + 1
    ensures forall c <- clients :: Trained(es, c) == b + 1
    ensures exists c :: c in clients && norm(c, Trained(es, c) - 1) > t
  {
    var any :| any in clients;
    StoppedClient(clients, t, d, norm, es, any);
    b := Completed(Init(clients, t, d), es) - 1;
    forall c <- clients ensures FirstCrossing(norm, clients, t, b) && Trained(es, c) == b + 1 {
      StoppedClient(clients, t, d, norm, es, c);
    }
    var c :| c in clients && norm(c, b) > t;
    assert norm(c, Trained(es, c) - 1) > t;
  }
}
