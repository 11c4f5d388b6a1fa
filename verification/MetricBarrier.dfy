/**
 The reusable barrier inside the metric server, as a transition system.

 One event is one stretch of code that runs under the server's lock without
 giving it up: a call from its entry to either its wait or its return (`Arrive`),
 a notified call from the end of its wait to its return (`Wake`), and the
 between-round reset together with the hand-out of the next round's clients
 (`EndRound`).
 */
module MetricBarrier {
  import opened FiniteSets

  type Client = nat

  datatype Event =
    | Arrive(client: Client, norm: real)
    | Wake(client: Client)
    | EndRound(next: set<Client>)

  datatype Reply = Reply(client: Client, stop: bool)

  /** The fields of the server; `waiting` and `notified` are the condition variable:
      calls still inside wait(), and calls that were notified but do not hold the lock yet.
      The barrier's size is `|clients|`, the number of proxies handed out. */
  datatype Server = Server(
    clients: set<Client>, threshold: real, discount: real,
    metrics: seq<real>, processed: nat,
    waiting: set<Client>, notified: set<Client>)

  predicate Exceeds(norms: seq<real>, threshold: real) {
    exists i :: 0 <= i < |norms| && norms[i] > threshold
  }

  function Init(clients: set<Client>, threshold: real, discount: real): Server {
    Server(clients, threshold, discount, [], 0, {}, {})
  }

  /** A client's call blocks its training loop, so a client inside the barrier cannot call again. */
  predicate Enabled(s: Server, e: Event) {
    match e
    case Arrive(c, _) => c in s.clients && c !in s.waiting && c !in s.notified
    case Wake(c) => c in s.notified
    case EndRound(_) => true
  }

  predicate Fills(s: Server, e: Event) {
    e.Arrive? && |s.metrics| + 1 == |s.clients|
  }

  /** The server at the moment the verdict is computed. */
  function AtVerdict(s: Server, e: Event): Server {
    match e
    case Arrive(c, norm) =>
      s.(metrics := s.metrics + [norm], waiting := {}, notified := s.notified + s.waiting)
    case Wake(c) => s.(notified := s.notified - {c})
    case EndRound(_) => s
  }

  predicate Answers(s: Server, e: Event) {
    Fills(s, e) || e.Wake?
  }

  predicate Completes(s: Server, e: Event) {
    Answers(s, e) && s.processed + 1 == |s.clients|
  }

  function Emitted(s: Server, e: Event): seq<Reply> {
    if Answers(s, e) then
      var v := AtVerdict(s, e);
      [Reply(e.client, Exceeds(v.metrics, v.threshold))]
    else []
  }

  function Next(s: Server, e: Event): Server {
    if Completes(s, e) then AtVerdict(s, e).(metrics := [], processed := 0)
    else if Answers(s, e) then AtVerdict(s, e).(processed := s.processed + 1)
    else match e
      case Arrive(c, norm) => s.(metrics := s.metrics + [norm], waiting := s.waiting + {c})
      case EndRound(next) => s.(clients := next, threshold := s.threshold * s.discount, metrics := [])
      case Wake(_) => s
  }

  // ---------------------------------------------------------------- runs

  function Run(s: Server, es: seq<Event>): Server {
    if es == [] then s else Next(Run(s, es[..|es| - 1]), es[|es| - 1])
  }

  predicate Valid(s: Server, es: seq<Event>) {
    es == [] || (Valid(s, es[..|es| - 1]) && Enabled(Run(s, es[..|es| - 1]), es[|es| - 1]))
  }

  function Replies(s: Server, es: seq<Event>): seq<Reply> {
    if es == [] then []
    else Replies(s, es[..|es| - 1]) + Emitted(Run(s, es[..|es| - 1]), es[|es| - 1])
  }

  function Calls(es: seq<Event>): seq<Event> {
    if es == [] then []
    else Calls(es[..|es| - 1]) + if es[|es| - 1].Arrive? then [es[|es| - 1]] else []
  }

  function Rounds(es: seq<Event>): nat {
    if es == [] then 0 else Rounds(es[..|es| - 1]) + if es[|es| - 1].EndRound? then 1 else 0
  }

  /** No client re-enters while a batch drains, and a round ends only when nobody is inside. */
  predicate Orderly(s: Server, es: seq<Event>) {
    es == [] ||
    (Orderly(s, es[..|es| - 1]) &&
     var u, e := Run(s, es[..|es| - 1]), es[|es| - 1];
     && (e.Arrive? ==> u.processed == 0)
     && (e.EndRound? ==> u.processed == 0 && u.waiting == {}))
  }

  /** The threshold after k rounds: discounted once per round. */
  function Discounted(t0: real, d: real, k: nat): real {
    if k == 0 then t0 else Discounted(t0, d, k - 1) * d
  }

  function Pow(d: real, k: nat): real {
    if k == 0 then 1.0 else Pow(d, k - 1) * d
  }

  lemma {:induction false} DiscountedIsGeometric(t0: real, d: real, k: nat)
    ensures Discounted(t0, d, k) == t0 * Pow(d, k)
  {
    if k == 0 {
    } else {
      DiscountedIsGeometric(t0, d, k - 1);
      assert t0 * Pow(d, k - 1) * d == t0 * (Pow(d, k - 1) * d);
    }
  }

  /** How the run functions read one more event. */
  lemma Snoc(s: Server, es: seq<Event>, e: Event)
    ensures Run(s, []) == s && Run(s, es + [e]) == Next(Run(s, es), e)
    ensures Valid(s, es + [e]) <==> Valid(s, es) && Enabled(Run(s, es), e)
    ensures Replies(s, es + [e]) == Replies(s, es) + Emitted(Run(s, es), e)
    ensures Orderly(s, es + [e]) <==>
      (Orderly(s, es)
       && (e.Arrive? ==> Run(s, es).processed == 0)
       && (e.EndRound? ==> Run(s, es).processed == 0 && Run(s, es).waiting == {}))
  {
    assert (es + [e])[..|es + [e]| - 1] == es;
  }

  // ------------------------------------------------------------- batches

  /** What an observer writes down: the calls and replies of one passage of the barrier. */
  datatype Batch = Batch(round: nat, clients: set<Client>, calls: seq<Event>, replies: seq<Reply>)

  datatype Log = Log(done: seq<Batch>, open: Batch)

  function Norms(calls: seq<Event>): seq<real>
    requires forall e <- calls :: e.Arrive?
  {
    seq(|calls|, i requires 0 <= i < |calls| => calls[i].norm)
  }

  function Callers(calls: seq<Event>): set<Client>
    requires forall e <- calls :: e.Arrive?
  {
    set e <- calls :: e.client
  }

  function Repliers(replies: seq<Reply>): set<Client> {
    set r <- replies :: r.client
  }

  predicate Unanimous(replies: seq<Reply>, stop: bool) {
    forall r <- replies :: r.stop == stop
  }

  /** Each participant called exactly once, was answered exactly once, and every answer is
      "some norm among exactly these calls exceeds the threshold". */
  ghost predicate Agreed(b: Batch, threshold: real) {
    && (forall e <- b.calls :: e.Arrive?)
    && |b.calls| == |b.clients| && Callers(b.calls) == b.clients
    && |b.replies| == |b.clients| && Repliers(b.replies) == b.clients
    && Unanimous(b.replies, Exceeds(Norms(b.calls), threshold))
  }

  function Extend(open: Batch, s: Server, e: Event): Batch {
    match e
    case EndRound(next) => open.(round := open.round + 1, clients := next)
    case Wake(_) => open.(replies := open.replies + Emitted(s, e))
    case Arrive(_, _) => open.(calls := open.calls + [e], replies := open.replies + Emitted(s, e))
  }

  function Observe(g: Log, s: Server, e: Event): Log {
    var open := Extend(g.open, s, e);
    if Completes(s, e) then Log(g.done + [open], open.(calls := [], replies := []))
    else g.(open := open)
  }

  function Observed(s: Server, es: seq<Event>): Log {
    if es == [] then Log([], Batch(0, s.clients, [], []))
    else Observe(Observed(s, es[..|es| - 1]), Run(s, es[..|es| - 1]), es[|es| - 1])
  }

  function AllCalls(bs: seq<Batch>): seq<Event> {
    if bs == [] then [] else AllCalls(bs[..|bs| - 1]) + bs[|bs| - 1].calls
  }

  function AllReplies(bs: seq<Batch>): seq<Reply> {
    if bs == [] then [] else AllReplies(bs[..|bs| - 1]) + bs[|bs| - 1].replies
  }

  // --------------------------------------------- safety of orderly runs

  predicate Filling(s: Server) {
    s.processed == 0 && s.notified == {} && s.waiting <= s.clients &&
    |s.metrics| == |s.waiting| && (|s.waiting| < |s.clients| || s.clients == {})
  }

  predicate Draining(s: Server) {
    s.waiting == {} && s.notified <= s.clients && |s.metrics| == |s.clients| &&
    0 < s.processed < |s.clients| && s.processed + |s.notified| == |s.clients|
  }

  ghost predicate OpenMatches(s: Server, open: Batch) {
    && open.clients == s.clients
    && (forall e <- open.calls :: e.Arrive?)
    && Norms(open.calls) == s.metrics
    && (Filling(s) ==> open.replies == [] && Callers(open.calls) == s.waiting)
    && (Draining(s) ==>
          && Callers(open.calls) == s.clients
          && |open.replies| == s.processed && Repliers(open.replies) == s.clients - s.notified
          && Unanimous(open.replies, Exceeds(s.metrics, s.threshold)))
  }

  lemma CallersSnoc(calls: seq<Event>, e: Event)
    requires (forall x <- calls :: x.Arrive?) && e.Arrive?
    ensures forall x <- calls + [e] :: x.Arrive?
    ensures Callers(calls + [e]) == Callers(calls) + {e.client}
    ensures Norms(calls + [e]) == Norms(calls) + [e.norm]
  {
    assert (calls + [e])[|calls|] == e;
  }

  lemma RepliersSnoc(replies: seq<Reply>, r: Reply)
    ensures Repliers(replies + [r]) == Repliers(replies) + {r.client}
    ensures forall stop :: Unanimous(replies, stop) && r.stop == stop ==> Unanimous(replies + [r], stop)
  {
    assert (replies + [r])[|replies|] == r;
  }

  lemma WaitingArrival(s: Server, e: Event, open: Batch)
    requires Filling(s) && OpenMatches(s, open) && e.Arrive? && Enabled(s, e) && !Fills(s, e)
    ensures Filling(Next(s, e)) && OpenMatches(Next(s, e), Extend(open, s, e))
  {
    CallersSnoc(open.calls, e);
    assert |s.waiting + {e.client}| == |s.waiting| + 1;
    SubsetSize(s.waiting + {e.client}, s.clients);
  }

  lemma FillingArrival(s: Server, e: Event, open: Batch)
    requires Filling(s) && OpenMatches(s, open) && e.Arrive? && Enabled(s, e) && Fills(s, e)
    ensures Callers(open.calls + [e]) == s.clients && s.waiting == s.clients - {e.client}
    ensures forall x <- open.calls + [e] :: x.Arrive?
    ensures Norms(open.calls + [e]) == s.metrics + [e.norm]
    ensures |s.waiting| == |s.clients| - 1
  {
    CallersSnoc(open.calls, e);
    assert |s.waiting + {e.client}| == |s.waiting| + 1;
    SubsetSize(s.waiting + {e.client}, s.clients);
  }

  lemma CompletingArrival(s: Server, e: Event, open: Batch)
    requires Filling(s) && OpenMatches(s, open) && e.Arrive? && Enabled(s, e) && Completes(s, e)
    ensures Filling(Next(s, e)) && Agreed(Extend(open, s, e), s.threshold)
    ensures OpenMatches(Next(s, e), Observe(Log([], open), s, e).open)
  {
    FillingArrival(s, e, open);
    SubsetSize({}, s.waiting);
    assert s.clients == {e.client};
    RepliersSnoc([], Emitted(s, e)[0]);
    assert open.replies + Emitted(s, e) == [] + Emitted(s, e);
  }

  lemma NotifyingArrival(s: Server, e: Event, open: Batch)
    requires Filling(s) && OpenMatches(s, open) && e.Arrive? && Enabled(s, e)
    requires Fills(s, e) && !Completes(s, e)
    ensures Draining(Next(s, e)) && OpenMatches(Next(s, e), Extend(open, s, e))
  {
    FillingArrival(s, e, open);
    RepliersSnoc([], Emitted(s, e)[0]);
    assert open.replies + Emitted(s, e) == [] + Emitted(s, e);
    assert s.clients - s.waiting == {e.client};
  }

  lemma WakeStep(s: Server, e: Event, open: Batch)
    requires Draining(s) && OpenMatches(s, open) && e.Wake? && Enabled(s, e) && !Completes(s, e)
    ensures Draining(Next(s, e)) && OpenMatches(Next(s, e), Extend(open, s, e))
  {
    RepliersSnoc(open.replies, Emitted(s, e)[0]);
    assert s.clients - (s.notified - {e.client}) == (s.clients - s.notified) + {e.client};
    assert |s.notified - {e.client}| == |s.notified| - 1;
  }

  lemma LastWake(s: Server, e: Event, open: Batch)
    requires Draining(s) && OpenMatches(s, open) && e.Wake? && Completes(s, e) && Enabled(s, e)
    ensures Filling(Next(s, e)) && Agreed(Extend(open, s, e), s.threshold)
    ensures OpenMatches(Next(s, e), Observe(Log([], open), s, e).open)
  {
    RepliersSnoc(open.replies, Emitted(s, e)[0]);
    SubsetSize({e.client}, s.notified);
    assert s.notified == {e.client};
    assert (s.clients - s.notified) + {e.client} == s.clients;
  }

  /** One orderly step keeps the phase, matches the observer's notes, and files only agreed batches. */
  lemma OrderlyStep(s: Server, e: Event, open: Batch)
    requires Filling(s) || Draining(s)
    requires Enabled(s, e) && OpenMatches(s, open)
    requires e.Arrive? ==> s.processed == 0
    requires e.EndRound? ==> s.processed == 0 && s.waiting == {}
    ensures Filling(Next(s, e)) || Draining(Next(s, e))
    ensures Completes(s, e) ==> Agreed(Extend(open, s, e), s.threshold)
    ensures OpenMatches(Next(s, e), Observe(Log([], open), s, e).open)
  {
    match e
    case EndRound(next) =>
      assert open.calls == [];
    case Wake(_) =>
      if Completes(s, e) {
        LastWake(s, e, open);
      } else {
        WakeStep(s, e, open);
      }
    case Arrive(_, _) =>
      if Completes(s, e) {
        CompletingArrival(s, e, open);
      } else if Fills(s, e) {
        NotifyingArrival(s, e, open);
      } else {
        WaitingArrival(s, e, open);
      }
  }

  lemma {:induction false} OrderlyPhases(clients: set<Client>, t0: real, d: real, es: seq<Event>)
    requires Valid(Init(clients, t0, d), es) && Orderly(Init(clients, t0, d), es)
    ensures var s := Run(Init(clients, t0, d), es);
      (Filling(s) || Draining(s)) && OpenMatches(s, Observed(Init(clients, t0, d), es).open)
  {
    var s0 := Init(clients, t0, d);
    if es == [] {
    } else {
      var pre, e := es[..|es| - 1], es[|es| - 1];
      OrderlyPhases(clients, t0, d, pre);
      OrderlyStep(Run(s0, pre), e, Observed(s0, pre).open);
    }
  }

  lemma ThresholdStep(u: Server, e: Event, t0: real, d: real, k: nat, t: real)
    requires u.discount == d && u.threshold == t == Discounted(t0, d, k)
    ensures Next(u, e).discount == d
    ensures Next(u, e).threshold == if e.EndRound? then Discounted(t0, d, k + 1) else t
  {
    if e.EndRound? {
      assert Next(u, e).threshold == t * d;
    }
  }

  lemma {:induction false} RoundThreshold(clients: set<Client>, t0: real, d: real, es: seq<Event>)
    ensures Run(Init(clients, t0, d), es).discount == d
    ensures Run(Init(clients, t0, d), es).threshold == Discounted(t0, d, Rounds(es))
  {
    if es == [] {
    } else {
      var pre, e := es[..|es| - 1], es[|es| - 1];
      var u := Run(Init(clients, t0, d), pre);
      RoundThreshold(clients, t0, d, pre);
      ThresholdStep(u, e, t0, d, Rounds(pre), u.threshold);
    }
  }

  lemma {:induction false} NotedRound(s0: Server, es: seq<Event>)
    ensures Observed(s0, es).open.round == Rounds(es)
  {
    if es == [] {
    } else {
      NotedRound(s0, es[..|es| - 1]);
    }
  }

  lemma FiledSnoc(bs: seq<Batch>, b: Batch)
    ensures AllCalls(bs + [b]) == AllCalls(bs) + b.calls
    ensures AllReplies(bs + [b]) == AllReplies(bs) + b.replies
  {
    assert (bs + [b])[..|bs + [b]| - 1] == bs;
  }

  lemma Associates<T>(a: seq<T>, b: seq<T>, c: seq<T>)
    ensures a + (b + c) == a + b + c && a + (b + c) + [] == a + b + c
  {
  }

  lemma NotedCalls(g: Log, s: Server, e: Event)
    ensures AllCalls(Observe(g, s, e).done) + Observe(g, s, e).open.calls
      == AllCalls(g.done) + g.open.calls + if e.Arrive? then [e] else []
  {
    var open, more := Extend(g.open, s, e), if e.Arrive? then [e] else [];
    assert open.calls == g.open.calls + more;
    Associates(AllCalls(g.done), g.open.calls, more);
    FiledSnoc(g.done, open);
  }

  lemma NotedReplies(g: Log, s: Server, e: Event)
    ensures AllReplies(Observe(g, s, e).done) + Observe(g, s, e).open.replies
      == AllReplies(g.done) + g.open.replies + Emitted(s, e)
  {
    var open := Extend(g.open, s, e);
    assert open.replies == g.open.replies + Emitted(s, e);
    Associates(AllReplies(g.done), g.open.replies, Emitted(s, e));
    FiledSnoc(g.done, open);
  }

  /** The observer's notes lose nothing and invent nothing, in any run. */
  lemma {:induction false} NotesAreTheTrace(s0: Server, es: seq<Event>)
    ensures Calls(es) == AllCalls(Observed(s0, es).done) + Observed(s0, es).open.calls
    ensures Replies(s0, es) == AllReplies(Observed(s0, es).done) + Observed(s0, es).open.replies
  {
    if es == [] {
    } else {
      var pre, e := es[..|es| - 1], es[|es| - 1];
      NotesAreTheTrace(s0, pre);
      NotedCalls(Observed(s0, pre), Run(s0, pre), e);
      NotedReplies(Observed(s0, pre), Run(s0, pre), e);
    }
  }

  ghost predicate AllAgreed(bs: seq<Batch>, t0: real, d: real) {
    forall b <- bs :: Agreed(b, Discounted(t0, d, b.round))
  }

  lemma FileStep(g: Log, u: Server, e: Event, t0: real, d: real)
    requires AllAgreed(g.done, t0, d) && u.threshold == Discounted(t0, d, g.open.round)
    requires Completes(u, e) ==> Agreed(Extend(g.open, u, e), u.threshold)
    ensures AllAgreed(Observe(g, u, e).done, t0, d)
  {
    if Completes(u, e) {
      assert Extend(g.open, u, e).round == g.open.round;
    }
  }

  lemma {:induction false} FiledBatchesAgree(clients: set<Client>, t0: real, d: real, es: seq<Event>)
    requires Valid(Init(clients, t0, d), es) && Orderly(Init(clients, t0, d), es)
    ensures AllAgreed(Observed(Init(clients, t0, d), es).done, t0, d)
  {
    var s0 := Init(clients, t0, d);
    if es == [] {
    } else {
      var pre, e := es[..|es| - 1], es[|es| - 1];
      var u, g := Run(s0, pre), Observed(s0, pre);
      FiledBatchesAgree(clients, t0, d, pre);
      OrderlyPhases(clients, t0, d, pre);
      RoundThreshold(clients, t0, d, pre);
      NotedRound(s0, pre);
      assert Orderly(s0, pre) && Enabled(u, e);
      OrderlyStep(u, e, g.open);
      FileStep(g, u, e, t0, d);
    }
  }

  /** Safety over whole runs: however the calls interleave, an orderly run alternates filling and
      draining, uses threshold t0 * d^r after r completed rounds, and is exactly a sequence of
      agreed batches followed by the one still open. */
  lemma OrderlyRunsAgree(clients: set<Client>, t0: real, d: real, es: seq<Event>)
    requires Valid(Init(clients, t0, d), es) && Orderly(Init(clients, t0, d), es)
    ensures
      var s0 := Init(clients, t0, d);
      var s, g := Run(s0, es), Observed(s0, es);
      && (Filling(s) || Draining(s)) && OpenMatches(s, g.open)
      && s.threshold == Discounted(t0, d, Rounds(es)) && g.open.round == Rounds(es)
      && AllAgreed(g.done, t0, d)
      && Calls(es) == AllCalls(g.done) + g.open.calls
      && Replies(s0, es) == AllReplies(g.done) + g.open.replies
  {
    OrderlyPhases(clients, t0, d, es);
    RoundThreshold(clients, t0, d, es);
    NotedRound(Init(clients, t0, d), es);
    FiledBatchesAgree(clients, t0, d, es);
    NotesAreTheTrace(Init(clients, t0, d), es);
  }

  /** The reset between rounds restores the initial barrier exactly when nobody is inside:
      it leaves `processed` and the waiting calls as they are. */
  lemma ResetRestoresInit(s: Server, next: set<Client>)
    ensures Next(s, EndRound(next)) == Init(next, s.threshold * s.discount, s.discount)
      <==> s.processed == 0 && s.waiting == {} && s.notified == {}
  {
  }

  /** After k rounds, with nobody inside, the reset leaves a fresh barrier at the next threshold. */
  lemma ResetWhenEmpty(s: Server, next: set<Client>, t0: real, d: real, k: nat)
    requires s.processed == 0 && s.waiting == {} && s.notified == {}
    requires s.discount == d && s.threshold == Discounted(t0, d, k)
    ensures Next(s, EndRound(next)) == Init(next, Discounted(t0, d, k + 1), d)
  {
    ThresholdStep(s, EndRound(next), t0, d, k, s.threshold);
  }

  lemma SecondCallFills()
    ensures
      var s0, es := Init({0, 1}, 25.0, 0.9), [Arrive(0, 1.0)] + [Arrive(1, 2.0)];
      && Valid(s0, es) && Replies(s0, es) == [Reply(1, false)]
      && Run(s0, es) == Server({0, 1}, 25.0, 0.9, [1.0, 2.0], 1, {}, {0})
  {
    var s0 := Init({0, 1}, 25.0, 0.9);
    Snoc(s0, [], Arrive(0, 1.0));
    assert [] + [Arrive(0, 1.0)] == [Arrive(0, 1.0)];
    assert Run(s0, [Arrive(0, 1.0)]) == s0.(metrics := [1.0], waiting := {0});
    Snoc(s0, [Arrive(0, 1.0)], Arrive(1, 2.0));
  }

  lemma ThirdCallReenters(s: Server, s': Server)
    requires s == Server({0, 1}, 25.0, 0.9, [1.0, 2.0], 1, {}, {0})
    requires s' == Server({0, 1}, 25.0, 0.9, [1.0, 2.0] + [30.0], 1, {1}, {0})
    ensures Enabled(s, Arrive(1, 30.0)) && Next(s, Arrive(1, 30.0)) == s' && Emitted(s, Arrive(1, 30.0)) == []
    ensures Enabled(s', Wake(0)) && Emitted(s', Wake(0)) == [Reply(0, true)]
  {
    assert |s.metrics| + 1 == 3 && |s.clients| == 2;
    assert s'.metrics[2] > 25.0;
  }

  /** Without that order agreement fails: two clients, one of which re-enters while the other is still
      to be woken, get different answers for the same batch. */
  lemma ReentrySplitsTheVerdict()
    ensures
      var s0 := Init({0, 1}, 25.0, 0.9);
      var es := [Arrive(0, 1.0)] + [Arrive(1, 2.0)] + [Arrive(1, 30.0)] + [Wake(0)];
      Valid(s0, es) && !Orderly(s0, es) && Replies(s0, es) == [Reply(1, false), Reply(0, true)]
  {
    var s0, es := Init({0, 1}, 25.0, 0.9), [Arrive(0, 1.0)] + [Arrive(1, 2.0)];
    SecondCallFills();
    ThirdCallReenters(Run(s0, es), Server({0, 1}, 25.0, 0.9, [1.0, 2.0] + [30.0], 1, {1}, {0}));
    Snoc(s0, es, Arrive(1, 30.0));
    Snoc(s0, es + [Arrive(1, 30.0)], Wake(0));
  }
}
