/**
 How a round ends: how long it can be, which rounds can still end, and when its answers are true,
 for every interleaving of the training loops, re-entry during a drain included.
 */
module RoundBoundary {
  import opened FiniteSets
  import opened Sums
  import opened MetricBarrier
  import opened BarrierLiveness
  import opened BarrierCounts
  import opened BarrierPool
  import opened BarrierReentry
  import opened Lockstep

  // ------------------------------------------------------- rounds in order

  lemma OrderlyIsLive(clients: set<Client>, t: real, d: real, norm: NormsOf, es: seq<Event>)
    requires RoundRun(clients, t, d, norm, es) && Orderly(Init(clients, t, d), es)
    ensures Live(Run(Init(clients, t, d), es))
  {
    ServerHolds(clients, t, d, norm, es);
    OrderlyIffNeverStrands(Init(clients, t, d), es);
    LiveRuns(Init(clients, t, d), es);
  }

  /** While nobody drains, all have heard the same. */
  lemma AllHeardTheSame(clients: set<Client>, t: real, d: real, norm: NormsOf, es: seq<Event>, c: Client, c': Client)
    requires RoundRun(clients, t, d, norm, es) && Orderly(Init(clients, t, d), es)
    requires c in clients && c' in clients && Run(Init(clients, t, d), es).notified == {}
    ensures Heard(Replies(Init(clients, t, d), es), c) == Heard(Replies(Init(clients, t, d), es), c')
  {
    ToldTheTruth(clients, t, d, norm, es, c);
    ToldTheTruth(clients, t, d, norm, es, c');
    ClientHolds(clients, t, d, norm, es, c);
    ClientHolds(clients, t, d, norm, es, c');
  }

  /** An orderly round that is not over has a next step that keeps it orderly. */
  lemma CanGoOn(clients: set<Client>, t: real, d: real, norm: NormsOf, es: seq<Event>) returns (e: Event)
    requires RoundRun(clients, t, d, norm, es) && Orderly(Init(clients, t, d), es)
    requires !AllStopped(clients, t, d, es)
    ensures RoundRun(clients, t, d, norm, es + [e]) && Orderly(Init(clients, t, d), es + [e])
  {
    var s0 := Init(clients, t, d);
    var s := Run(s0, es);
    OrderlyIsLive(clients, t, d, norm, es);
    ServerHolds(clients, t, d, norm, es);
    if s.processed > 0 {
      var w :| w in s.notified;
      e := Wake(w);
    } else {
      SubsetSize(s.waiting, s.clients);
      assert s.clients - s.waiting != {};
      var next :| next in s.clients - s.waiting;
      var c :| c in clients && !Stopped(s0, es, c);
      AllHeardTheSame(clients, t, d, norm, es, c, next);
      e := Arrive(next, norm(next, Trained(es, next)));
    }
  }

  // -------------------------------------------------- rounds out of order

  /** A re-entry during a drain comes from a loop that has heard only "continue". */
  lemma ReentryHeardContinue(clients: set<Client>, t: real, d: real, norm: NormsOf, es: seq<Event>, e: Event)
    requires RoundRun(clients, t, d, norm, es + [e]) && Orderly(Init(clients, t, d), es)
    requires e.Arrive? && Run(Init(clients, t, d), es).processed > 0
    ensures RoundRun(clients, t, d, norm, es)
    ensures NoneBefore(norm, clients, t, Fillings(Init(clients, t, d), es))
    ensures |clients| >= 2
  {
    var s0 := Init(clients, t, d);
    assert (es + [e])[..|es + [e]| - 1] == es;
    OrderlyIsLive(clients, t, d, norm, es);
    ServerHolds(clients, t, d, norm, es);
    ClientHolds(clients, t, d, norm, es, e.client);
    ToldTheTruth(clients, t, d, norm, es, e.client);
    var heard := Heard(Replies(s0, es), e.client);
    forall j: nat | j < Fillings(s0, es) ensures !Crossed(norm, clients, t, j) {
      assert heard[j] in heard;
    }
    SubsetSize({}, Run(s0, es).notified);
  }

  /** A disturbed round has at least two participants, has not crossed at any batch filled so far, and
      is stuck for good. */
  lemma {:induction false} Disturbed(clients: set<Client>, t: real, d: real, norm: NormsOf, es: seq<Event>)
    requires RoundRun(clients, t, d, norm, es) && !Orderly(Init(clients, t, d), es)
    ensures |clients| >= 2 && Doomed(Run(Init(clients, t, d), es))
    ensures NoneBefore(norm, clients, t, Fillings(Init(clients, t, d), es))
  {
    var s0, pre, e := Init(clients, t, d), es[..|es| - 1], es[|es| - 1];
    assert es == pre + [e];
    ServerHolds(clients, t, d, norm, es);
    ServerHolds(clients, t, d, norm, pre);
    if Orderly(s0, pre) {
      ReentryHeardContinue(clients, t, d, norm, pre, e);
      OrderlyIsLive(clients, t, d, norm, pre);
      StrandingStep(Run(s0, pre), e);
    } else {
      Disturbed(clients, t, d, norm, pre);
      DoomedStep(Run(s0, pre), e);
    }
  }

  // ---------------------------------------------------------------- length

  lemma HeardTheCrossing(norm: NormsOf, clients: set<Client>, t: real, heard: seq<bool>, trained: nat, b: nat)
    requires HeardTruth(norm, clients, t, heard) && OnlyLastStops(heard, trained)
    requires Crossed(norm, clients, t, b) && b < |heard|
    ensures trained == b + 1 && true in heard
  {
    assert heard[b];
  }

  /** No batch fills after the first crossing. */
  lemma FillingsAtMost(clients: set<Client>, t: real, d: real, norm: NormsOf, es: seq<Event>, b: nat)
    requires RoundRun(clients, t, d, norm, es) && FirstCrossing(norm, clients, t, b)
    ensures var s0 := Init(clients, t, d);
      && Fillings(s0, es) <= b + 1
      && (Fillings(s0, es) == b + 1 ==> Orderly(s0, es) && Run(s0, es).waiting == {})
  {
    var s0 := Init(clients, t, d);
    if !Orderly(s0, es) {
      Disturbed(clients, t, d, norm, es);
    } else {
      var s := Run(s0, es);
      OrderlyIsLive(clients, t, d, norm, es);
      ServerHolds(clients, t, d, norm, es);
      var c :| c in clients && (s.waiting == {} || c in s.waiting);
      ClientHolds(clients, t, d, norm, es, c);
      ToldTheTruth(clients, t, d, norm, es, c);
      var heard := Heard(Replies(s0, es), c);
      if b < |heard| {
        HeardTheCrossing(norm, clients, t, heard, Trained(es, c), b);
      }
    }
  }

  /** Everyone has been told to stop exactly when the batch of the first crossing is through. */
  lemma OverIff(clients: set<Client>, t: real, d: real, norm: NormsOf, es: seq<Event>, b: nat)
    requires RoundRun(clients, t, d, norm, es) && FirstCrossing(norm, clients, t, b)
    ensures var s0 := Init(clients, t, d);
      AllStopped(clients, t, d, es) <==> Fillings(s0, es) == b + 1 && Run(s0, es).notified == {}
  {
    var s0 := Init(clients, t, d);
    if AllStopped(clients, t, d, es) {
      StoppedIsOrderly(clients, t, d, norm, es);
      var c :| c in clients;
      StoppedClient(clients, t, d, norm, es, c);
    } else if Fillings(s0, es) == b + 1 && Run(s0, es).notified == {} {
      FillingsAtMost(clients, t, d, norm, es, b);
      forall c <- clients ensures Stopped(s0, es, c) {
        ClientHolds(clients, t, d, norm, es, c);
        ToldTheTruth(clients, t, d, norm, es, c);
        HeardTheCrossing(norm, clients, t, Heard(Replies(s0, es), c), Trained(es, c), b);
      }
    }
  }

  /** The steps of k batches: n arrivals and n - 1 wakes each. */
  function BatchSteps(n: nat, k: nat): nat
    requires n > 0
  {
    Multiple(k, 2 * n - 1)
  }

  lemma BatchStepsGrow(n: nat, k: nat, k': nat)
    requires n > 0 && k <= k'
    ensures k < k' ==> BatchSteps(n, k) + 2 * n - 1 <= BatchSteps(n, k')
  {
    MultipleGrows(k, k', 2 * n - 1);
  }

  lemma AddUp(s: Server, n: nat, t: Totals)
    requires n > 0 && TotalsAt(s, n, t)
    ensures t.arrivals + t.wakes + |s.notified| == BatchSteps(n, t.fillings) + |s.waiting|
  {
    MultipleSplits(t.fillings, n, n - 1);
    assert n + (n - 1) == 2 * n - 1;
  }

  lemma RunLength(s0: Server, n: nat, es: seq<Event>)
    requires LiveOrDoomed(s0) && s0.waiting == {} && s0.processed == 0 && n == |s0.clients| > 0
    requires Valid(s0, es) && FixedClients(s0, es)
    ensures var s, t := Run(s0, es), TotalsOf(s0, es);
      t.arrivals + t.wakes + |s.notified| == BatchSteps(n, t.fillings) + |s.waiting|
  {
    TotalsHold(s0, n, es);
    AddUp(Run(s0, es), n, TotalsOf(s0, es));
  }

  lemma TotalsLength(s: Server, es: seq<Event>)
    ensures var t := TotalsOf(s, es);
      t.fillings == Fillings(s, es) && t.arrivals + t.wakes + Rounds(es) == |es|
  {
    TotalsAre(s, es);
    EventsAddUp(es);
  }

  lemma LengthOf(clients: set<Client>, t: real, d: real, norm: NormsOf, es: seq<Event>)
    requires RoundRun(clients, t, d, norm, es)
    ensures |clients| > 0
    ensures var s0 := Init(clients, t, d);
      |es| + |Run(s0, es).notified| == BatchSteps(|clients|, Fillings(s0, es)) + |Run(s0, es).waiting|
  {
    var s0 := Init(clients, t, d);
    ServerHolds(clients, t, d, norm, es);
    NotEmpty(clients);
    RunLength(s0, |clients|, es);
    TotalsLength(s0, es);
  }

  /** Fewer than a whole batch of steps are under way. */
  lemma WaitingAtMost(clients: set<Client>, t: real, d: real, norm: NormsOf, es: seq<Event>)
    requires RoundRun(clients, t, d, norm, es)
    ensures |Run(Init(clients, t, d), es).waiting| < 2 * |clients| - 1
  {
    var s := Run(Init(clients, t, d), es);
    ServerHolds(clients, t, d, norm, es);
    NotEmpty(clients);
    SubsetSize(s.waiting, s.clients);
    if Orderly(Init(clients, t, d), es) {
      OrderlyIsLive(clients, t, d, norm, es);
      SubsetSize({}, s.waiting);
    } else {
      Disturbed(clients, t, d, norm, es);
    }
  }

  lemma LengthIff(n: nat, length: nat, fillings: nat, waiting: nat, notified: nat, b: nat)
    requires n > 0 && length + notified == BatchSteps(n, fillings) + waiting && waiting < 2 * n - 1
    requires fillings <= b + 1 && (fillings == b + 1 ==> waiting == 0)
    ensures length <= BatchSteps(n, b + 1)
    ensures length == BatchSteps(n, b + 1) <==> fillings == b + 1 && notified == 0
  {
    BatchStepsGrow(n, fillings, b + 1);
  }

  /** If b is the first crossing, no round of n clients is longer than b + 1 times n arrivals and
      n - 1 wakes, however its calls interleave, and it has that length exactly when it is over. */
  lemma EveryRoundEnds(clients: set<Client>, t: real, d: real, norm: NormsOf, es: seq<Event>, b: nat)
    requires RoundRun(clients, t, d, norm, es) && FirstCrossing(norm, clients, t, b)
    ensures |clients| > 0 && |es| <= BatchSteps(|clients|, b + 1)
    ensures AllStopped(clients, t, d, es) <==> |es| == BatchSteps(|clients|, b + 1)
  {
    var s0 := Init(clients, t, d);
    LengthOf(clients, t, d, norm, es);
    WaitingAtMost(clients, t, d, norm, es);
    FillingsAtMost(clients, t, d, norm, es, b);
    OverIff(clients, t, d, norm, es, b);
    LengthIff(|clients|, |es|, Fillings(s0, es), |Run(s0, es).waiting|, |Run(s0, es).notified|, b);
    SubsetSize({}, Run(s0, es).notified);
  }

  // ------------------------------------------------- which rounds can end

  ghost predicate CanEnd(clients: set<Client>, t: real, d: real, norm: NormsOf, es: seq<Event>) {
    exists more :: RoundRun(clients, t, d, norm, es + more) && AllStopped(clients, t, d, es + more)
  }

  lemma {:induction false} OrderlyPrefix(s: Server, es: seq<Event>, more: seq<Event>)
    requires Orderly(s, es + more)
    ensures Orderly(s, es)
  {
    if more == [] {
      assert es + more == es;
    } else {
      assert (es + more)[..|es + more| - 1] == es + more[..|more| - 1];
      OrderlyPrefix(s, es, more[..|more| - 1]);
    }
  }

  lemma StillRunning(clients: set<Client>, t: real, d: real, norm: NormsOf, es: seq<Event>, b: nat)
    requires RoundRun(clients, t, d, norm, es) && FirstCrossing(norm, clients, t, b)
    ensures |clients| > 0 && |es| <= BatchSteps(|clients|, b + 1)
  {
    EveryRoundEnds(clients, t, d, norm, es, b);
  }

  lemma OneStepMore(clients: set<Client>, t: real, d: real, norm: NormsOf, es: seq<Event>, b: nat, length: nat)
    returns (e: Event)
    requires RoundRun(clients, t, d, norm, es) && Orderly(Init(clients, t, d), es) && !AllStopped(clients, t, d, es)
    requires FirstCrossing(norm, clients, t, b) && |clients| > 0 && length == BatchSteps(|clients|, b + 1)
    ensures RoundRun(clients, t, d, norm, es + [e]) && Orderly(Init(clients, t, d), es + [e])
    ensures |es + [e]| <= length
  {
    e := CanGoOn(clients, t, d, norm, es);
    StillRunning(clients, t, d, norm, es + [e], b);
  }

  lemma {:induction false} GoesToTheEnd(clients: set<Client>, t: real, d: real, norm: NormsOf, es: seq<Event>,
                                        b: nat, length: nat)
    returns (more: seq<Event>)
    requires RoundRun(clients, t, d, norm, es) && Orderly(Init(clients, t, d), es)
    requires FirstCrossing(norm, clients, t, b) && |clients| > 0 && length == BatchSteps(|clients|, b + 1)
    ensures RoundRun(clients, t, d, norm, es + more) && AllStopped(clients, t, d, es + more)
    decreases length - |es|
  {
    if AllStopped(clients, t, d, es) {
      more := [];
      assert es + more == es;
    } else {
      var e := OneStepMore(clients, t, d, norm, es, b, length);
      var rest := GoesToTheEnd(clients, t, d, norm, es + [e], b, length);
      more := [e] + rest;
      Associates(es, [e], rest);
    }
  }

  /** The exact boundary of lockstep: if some batch crosses, a round can still end, with everyone told
      to stop, if and only if no call has entered during a drain so far. */
  lemma CanEndIffOrderly(clients: set<Client>, t: real, d: real, norm: NormsOf, es: seq<Event>, b: nat)
    requires RoundRun(clients, t, d, norm, es) && FirstCrossing(norm, clients, t, b)
    ensures CanEnd(clients, t, d, norm, es) <==> Orderly(Init(clients, t, d), es)
  {
    if Orderly(Init(clients, t, d), es) {
      StillRunning(clients, t, d, norm, es, b);
      var more := GoesToTheEnd(clients, t, d, norm, es, b, BatchSteps(|clients|, b + 1));
    } else if CanEnd(clients, t, d, norm, es) {
      var more :| RoundRun(clients, t, d, norm, es + more) && AllStopped(clients, t, d, es + more);
      StoppedIsOrderly(clients, t, d, norm, es + more);
      OrderlyPrefix(Init(clients, t, d), es, more);
    }
  }

  // ---------------------------------------------- which answers are true

  /** A call with a norm above the threshold came in during a drain. */
  predicate LoudReentry(s: Server, es: seq<Event>) {
    es != [] &&
    (var u, e := Run(s, es[..|es| - 1]), es[|es| - 1];
     LoudReentry(s, es[..|es| - 1]) || (e.Arrive? && u.processed > 0 && e.norm > u.threshold))
  }

  /** A call woke after such a re-entry. */
  predicate Spoiled(s: Server, es: seq<Event>) {
    es != [] && (Spoiled(s, es[..|es| - 1]) || (es[|es| - 1].Wake? && LoudReentry(s, es[..|es| - 1])))
  }

  lemma {:induction false} OrderlyIsQuiet(s: Server, es: seq<Event>)
    requires Orderly(s, es)
    ensures !LoudReentry(s, es) && !Spoiled(s, es)
  {
    if es == [] {
    } else {
      OrderlyIsQuiet(s, es[..|es| - 1]);
    }
  }

  predicate SomeStop(replies: seq<Reply>) {
    exists r :: r in replies && r.stop
  }

  lemma {:induction false} HeardIsReply(replies: seq<Reply>, c: Client)
    ensures true in Heard(replies, c) <==> exists r :: r in replies && r.client == c && r.stop
  {
    if replies == [] {
    } else {
      var init, last := replies[..|replies| - 1], replies[|replies| - 1];
      HeardIsReply(init, c);
      assert replies == init + [last];
    }
  }

  lemma {:induction false} RepliersTakePart(s: Server, es: seq<Event>)
    requires LiveOrDoomed(s) && Valid(s, es) && FixedClients(s, es)
    ensures forall r <- Replies(s, es) :: r.client in s.clients
  {
    if es == [] {
    } else {
      RepliersTakePart(s, es[..|es| - 1]);
      LiveOrDoomedRuns(s, es[..|es| - 1]);
    }
  }

  /** Some participant was told to stop exactly if some answer said so. */
  lemma StopWasHeard(clients: set<Client>, t: real, d: real, norm: NormsOf, es: seq<Event>)
    requires RoundRun(clients, t, d, norm, es)
    ensures SomeStop(Replies(Init(clients, t, d), es)) <==>
      exists c :: c in clients && Stopped(Init(clients, t, d), es, c)
  {
    var s0 := Init(clients, t, d);
    ServerHolds(clients, t, d, norm, es);
    RepliersTakePart(s0, es);
    if r :| r in Replies(s0, es) && r.stop {
      HeardIsReply(Replies(s0, es), r.client);
      assert Stopped(s0, es, r.client);
    }
    forall c | c in clients && Stopped(s0, es, c) ensures SomeStop(Replies(s0, es)) {
      HeardIsReply(Replies(s0, es), c);
    }
  }

  /** As long as no filled batch crossed, answers are true exactly if all of them are "continue". */
  lemma TrueIffAllContinue(clients: set<Client>, t: real, d: real, norm: NormsOf, es: seq<Event>)
    requires RoundRun(clients, t, d, norm, es)
    requires NoneBefore(norm, clients, t, Fillings(Init(clients, t, d), es))
    ensures (forall c <- clients :: HeardTruth(norm, clients, t, Heard(Replies(Init(clients, t, d), es), c)))
      <==> !SomeStop(Replies(Init(clients, t, d), es))
  {
    var s0 := Init(clients, t, d);
    StopWasHeard(clients, t, d, norm, es);
    forall c <- clients
      ensures HeardTruth(norm, clients, t, Heard(Replies(s0, es), c)) <==> !Stopped(s0, es, c)
    {
      ClientHolds(clients, t, d, norm, es, c);
    }
  }

  /** What a disturbed round has recorded: its list exceeds the threshold exactly by loud re-entries. */
  ghost predicate DisturbedAt(s0: Server, es: seq<Event>) {
    var s := Run(s0, es);
    && Doomed(s)
    && (s.processed > 0 ==> (Exceeds(s.metrics, s.threshold) <==> LoudReentry(s0, es)))
    && (SomeStop(Replies(s0, es)) <==> Spoiled(s0, es))
  }

  lemma DisturbedStep(s0: Server, es: seq<Event>)
    requires es != [] && DisturbedAt(s0, es[..|es| - 1])
    requires Enabled(Run(s0, es[..|es| - 1]), es[|es| - 1]) && !es[|es| - 1].EndRound?
    ensures DisturbedAt(s0, es)
  {
    var pre, e := es[..|es| - 1], es[|es| - 1];
    var u := Run(s0, pre);
    DoomedStep(u, e);
    if e.Arrive? {
      ExceedsSnoc(u.metrics, e.norm, u.threshold);
    } else {
      assert Emitted(u, e) == [Reply(e.client, Exceeds(u.metrics, u.threshold))];
      assert SomeStop(Emitted(u, e)) <==> Exceeds(u.metrics, u.threshold);
    }
  }

  /** The list of a draining batch exceeds the threshold exactly if some participant crossed at it. */
  lemma DrainingVerdict(clients: set<Client>, t: real, d: real, norm: NormsOf, es: seq<Event>)
    requires RoundRun(clients, t, d, norm, es) && Orderly(Init(clients, t, d), es)
    requires Run(Init(clients, t, d), es).processed > 0
    ensures var s0 := Init(clients, t, d);
      Exceeds(Run(s0, es).metrics, t) <==> Crossed(norm, clients, t, Completed(s0, es))
  {
    var s0 := Init(clients, t, d);
    RoundHolds(clients, t, d, norm, es);
    ServerHolds(clients, t, d, norm, es);
    VerdictIsCrossing(Observed(s0, es).open.calls, clients, Completed(s0, es), norm, t);
  }

  lemma QuietSoFar(clients: set<Client>, t: real, d: real, norm: NormsOf, es: seq<Event>)
    requires RoundRun(clients, t, d, norm, es) && Orderly(Init(clients, t, d), es)
    requires NoneBefore(norm, clients, t, Fillings(Init(clients, t, d), es))
    ensures !SomeStop(Replies(Init(clients, t, d), es))
  {
    forall c <- clients ensures HeardTruth(norm, clients, t, Heard(Replies(Init(clients, t, d), es), c)) {
      ToldTheTruth(clients, t, d, norm, es, c);
    }
    TrueIffAllContinue(clients, t, d, norm, es);
  }

  lemma FirstReentry(clients: set<Client>, t: real, d: real, norm: NormsOf, es: seq<Event>, e: Event)
    requires RoundRun(clients, t, d, norm, es + [e]) && Orderly(Init(clients, t, d), es)
    requires e.Arrive? && Run(Init(clients, t, d), es).processed > 0
    ensures DisturbedAt(Init(clients, t, d), es + [e])
  {
    var s0 := Init(clients, t, d);
    var u := Run(s0, es);
    ReentryHeardContinue(clients, t, d, norm, es, e);
    ServerHolds(clients, t, d, norm, es);
    OrderlyIsLive(clients, t, d, norm, es);
    StrandingStep(u, e);
    FillingsAt(clients, t, d, norm, es);
    DrainingVerdict(clients, t, d, norm, es);
    OrderlyIsQuiet(s0, es);
    QuietSoFar(clients, t, d, norm, es);
    Snoc(s0, es, e);
    ExceedsSnoc(u.metrics, e.norm, t);
    assert (es + [e])[..|es + [e]| - 1] == es;
  }

  lemma {:induction false} DisturbedHolds(clients: set<Client>, t: real, d: real, norm: NormsOf, es: seq<Event>)
    requires RoundRun(clients, t, d, norm, es) && !Orderly(Init(clients, t, d), es)
    ensures DisturbedAt(Init(clients, t, d), es)
  {
    var s0, pre, e := Init(clients, t, d), es[..|es| - 1], es[|es| - 1];
    assert es == pre + [e];
    ServerHolds(clients, t, d, norm, es);
    if Orderly(s0, pre) {
      FirstReentry(clients, t, d, norm, pre, e);
    } else {
      DisturbedHolds(clients, t, d, norm, pre);
      DisturbedStep(s0, es);
    }
  }

  /** The exact boundary of truth: every answer of a round so far says whether some participant crossed at
      its batch if and only if no call has woken after a loud re-entry. */
  lemma ToldTheTruthIff(clients: set<Client>, t: real, d: real, norm: NormsOf, es: seq<Event>)
    requires RoundRun(clients, t, d, norm, es)
    ensures (forall c <- clients :: HeardTruth(norm, clients, t, Heard(Replies(Init(clients, t, d), es), c)))
      <==> !Spoiled(Init(clients, t, d), es)
  {
    var s0 := Init(clients, t, d);
    if Orderly(s0, es) {
      OrderlyIsQuiet(s0, es);
      forall c <- clients ensures HeardTruth(norm, clients, t, Heard(Replies(s0, es), c)) {
        ToldTheTruth(clients, t, d, norm, es, c);
      }
    } else {
      Disturbed(clients, t, d, norm, es);
      DisturbedHolds(clients, t, d, norm, es);
      TrueIffAllContinue(clients, t, d, norm, es);
    }
  }

  /** In every round, re-entry included, "continue" is true: nobody crossed at the batch it answers. */
  lemma ContinueIsTrue(clients: set<Client>, t: real, d: real, norm: NormsOf, es: seq<Event>, c: Client, j: nat)
    requires RoundRun(clients, t, d, norm, es) && c in clients
    requires var heard := Heard(Replies(Init(clients, t, d), es), c); j < |heard| && !heard[j]
    ensures !Crossed(norm, clients, t, j)
  {
    ClientHolds(clients, t, d, norm, es, c);
    if Orderly(Init(clients, t, d), es) {
      ToldTheTruth(clients, t, d, norm, es, c);
    } else {
      Disturbed(clients, t, d, norm, es);
    }
  }

  // ------------------------------------------------- a round that goes wrong

  /** Client 0 stays in place; client 1 leaves the safe ball at its second batch. */
  function Wanderer(c: Client, j: nat): real {
    if c == 0 then 1.0 else if j == 0 then 2.0 else 30.0
  }

  /** Both clients train their first batch; client 1 fills the barrier and is told to go on. */
  lemma FirstBatch()
    ensures var s0, es := Init({0, 1}, 25.0, 0.9), [Arrive(0, 1.0)] + [Arrive(1, 2.0)];
      && RoundRun({0, 1}, 25.0, 0.9, Wanderer, es)
      && Trained(es, 1) == 1 && Heard(Replies(s0, es), 1) == [false] && Heard(Replies(s0, es), 0) == []
  {
    var s0, a, b := Init({0, 1}, 25.0, 0.9), Arrive(0, 1.0), Arrive(1, 2.0);
    SecondCallFills();
    Snoc(s0, [], a);
    assert [] + [a] == [a];
    assert Emitted(s0, a) == [];
    assert Heard(Replies(s0, [a]), 1) == [];
    HeardSnoc([], Reply(1, false), 1);
    HeardSnoc([], Reply(1, false), 0);
    assert [] + [Reply(1, false)] == [Reply(1, false)];
  }

  lemma WandererReenters()
    ensures
      var s0, es := Init({0, 1}, 25.0, 0.9), [Arrive(0, 1.0)] + [Arrive(1, 2.0)] + [Arrive(1, 30.0)];
      && RoundRun({0, 1}, 25.0, 0.9, Wanderer, es) && !Orderly(s0, es) && LoudReentry(s0, es)
      && Run(s0, es) == Server({0, 1}, 25.0, 0.9, [1.0, 2.0] + [30.0], 1, {1}, {0})
  {
    var s0, es, e := Init({0, 1}, 25.0, 0.9), [Arrive(0, 1.0)] + [Arrive(1, 2.0)], Arrive(1, 30.0);
    SecondCallFills();
    FirstBatch();
    ThirdCallReenters(Run(s0, es), Server({0, 1}, 25.0, 0.9, [1.0, 2.0] + [30.0], 1, {1}, {0}));
    Snoc(s0, es, e);
    assert (es + [e])[..|es + [e]| - 1] == es;
  }

  /** Three calls of two training loops after which the round can never end, although client 1 has crossed. */
  lemma ReentryStrandsTheRound()
    ensures
      var es := [Arrive(0, 1.0)] + [Arrive(1, 2.0)] + [Arrive(1, 30.0)];
      && RoundRun({0, 1}, 25.0, 0.9, Wanderer, es) && FirstCrossing(Wanderer, {0, 1}, 25.0, 1)
      && !CanEnd({0, 1}, 25.0, 0.9, Wanderer, es)
  {
    var es := [Arrive(0, 1.0)] + [Arrive(1, 2.0)] + [Arrive(1, 30.0)];
    WandererReenters();
    CanEndIffOrderly({0, 1}, 25.0, 0.9, Wanderer, es, 1);
  }

  /** One step later client 0 is told to stop at its first batch, at which nobody crossed. */
  lemma ReentryStopsTooEarly()
    ensures
      var s0, es := Init({0, 1}, 25.0, 0.9), [Arrive(0, 1.0)] + [Arrive(1, 2.0)] + [Arrive(1, 30.0)] + [Wake(0)];
      && RoundRun({0, 1}, 25.0, 0.9, Wanderer, es) && Spoiled(s0, es)
      && !forall c <- {0, 1} :: HeardTruth(Wanderer, {0, 1}, 25.0, Heard(Replies(s0, es), c))
  {
    var s0, es := Init({0, 1}, 25.0, 0.9), [Arrive(0, 1.0)] + [Arrive(1, 2.0)] + [Arrive(1, 30.0)];
    WandererReenters();
    Snoc(s0, es, Wake(0));
    assert (es + [Wake(0)])[..|es + [Wake(0)]| - 1] == es;
    ToldTheTruthIff({0, 1}, 25.0, 0.9, Wanderer, es + [Wake(0)]);
  }

  // --------------------------------------------------------- behind the pool

  /** With a handler for each participant the pool never holds a round up, so what holds of rounds holds
      of rounds behind the pool. */
  lemma PoolNeverBinds(clients: set<Client>, t: real, d: real, norm: NormsOf, handlers: nat, es: seq<Event>)
    requires RoundRun(clients, t, d, norm, es) && |clients| <= handlers
    ensures Served(Init(clients, t, d), handlers, es)
  {
    ServerHolds(clients, t, d, norm, es);
    EnoughHandlers(Init(clients, t, d), handlers, es);
  }
}
