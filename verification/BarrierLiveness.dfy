/**
 When the barrier keeps passing batches, and when it never passes one again:
 n fixed clients, any interleaving, no discipline assumed.
 */
module BarrierLiveness {
  import opened FiniteSets
  import opened MetricBarrier

  /** The two steps that strand a call: an arrival while a batch drains, and a round reset
      while calls are still waiting. Both can be tested before the step. */
  predicate Strands(s: Server, e: Event) {
    (e.Arrive? && s.processed > 0) || (e.EndRound? && s.waiting != {})
  }

  predicate NeverStrands(s: Server, es: seq<Event>) {
    es == [] ||
    (NeverStrands(s, es[..|es| - 1]) && !Strands(Run(s, es[..|es| - 1]), es[|es| - 1]))
  }

  /** Every round hands out the same clients. */
  predicate FixedClients(s: Server, es: seq<Event>) {
    forall e <- es :: e.EndRound? ==> e.next == s.clients
  }

  /** How many batches filled up, that is, how often notify_all ran. */
  function Fillings(s: Server, es: seq<Event>): nat {
    if es == [] then 0
    else Fillings(s, es[..|es| - 1]) + if Fills(Run(s, es[..|es| - 1]), es[|es| - 1]) then 1 else 0
  }

  predicate Inside(s: Server) {
    s.clients != {} && s.waiting <= s.clients && s.notified <= s.clients && s.waiting !! s.notified
  }

  predicate Live(s: Server) {
    && Inside(s)
    && if s.processed == 0
       then s.notified == {} && |s.metrics| == |s.waiting| < |s.clients|
       else s.waiting == {} && s.notified != {} && s.processed + |s.notified| == |s.clients|
            && (|s.metrics| == |s.clients| || s.metrics == [])
  }

  /** Some call waits although the list can no longer grow to exactly n with it inside. */
  predicate Doomed(s: Server) {
    && Inside(s) && s.waiting != {}
    && if s.processed == 0
       then s.notified == {} && |s.metrics| < |s.waiting|
       else s.notified != {} && s.processed + |s.notified| == |s.clients|
            && (|s.metrics| > |s.clients| || |s.metrics| <= |s.waiting|)
  }

  lemma WaitsFit(s: Server, c: Client)
    requires Inside(s) && c in s.clients && c !in s.waiting && c !in s.notified
    ensures |s.waiting + {c}| == |s.waiting| + 1
    ensures |s.waiting| + 1 + |s.notified| <= |s.clients|
  {
    DisjointSize(s.waiting + {c}, s.notified, s.clients);
  }

  lemma WakeShrinks(s: Server, c: Client)
    requires c in s.notified
    ensures |s.notified - {c}| == |s.notified| - 1
  {
  }

  lemma LiveArrival(s: Server, e: Event)
    requires Live(s) && Enabled(s, e) && e.Arrive? && s.processed == 0
    ensures Live(Next(s, e)) && Next(s, e).clients == s.clients
  {
    WaitsFit(s, e.client);
    if Fills(s, e) {
      assert AtVerdict(s, e).notified == s.waiting;
      if Completes(s, e) {
        SubsetSize({}, s.waiting);
      }
    }
  }

  lemma LiveWake(s: Server, e: Event)
    requires Live(s) && Enabled(s, e) && e.Wake?
    ensures Live(Next(s, e)) && Next(s, e).clients == s.clients
  {
    WakeShrinks(s, e.client);
    SubsetSize({}, s.notified - {e.client});
  }

  lemma LiveStep(s: Server, e: Event)
    requires Live(s) && Enabled(s, e) && !Strands(s, e)
    requires e.EndRound? ==> e.next == s.clients
    ensures Live(Next(s, e)) && Next(s, e).clients == s.clients
  {
    match e
    case EndRound(_) =>
    case Wake(_) => LiveWake(s, e);
    case Arrive(_, _) => LiveArrival(s, e);
  }

  lemma StrandingStep(s: Server, e: Event)
    requires Live(s) && Enabled(s, e) && Strands(s, e)
    requires e.EndRound? ==> e.next == s.clients
    ensures !Fills(s, e) && Doomed(Next(s, e)) && Next(s, e).clients == s.clients
  {
    if e.Arrive? {
      WaitsFit(s, e.client);
    }
  }

  lemma DoomedStep(s: Server, e: Event)
    requires Doomed(s) && Enabled(s, e)
    requires e.EndRound? ==> e.next == s.clients
    ensures !Fills(s, e) && Doomed(Next(s, e)) && Next(s, e).clients == s.clients
    ensures Completes(s, e) ==> Next(s, e).metrics == [] && Next(s, e).waiting == s.waiting
  {
    match e
    case EndRound(_) =>
    case Wake(c) => WakeShrinks(s, c);
    case Arrive(c, _) => WaitsFit(s, c);
  }

  // ------------------------------------------------------- concatenated runs

  lemma {:induction false} Append(s: Server, es: seq<Event>, more: seq<Event>)
    ensures Run(s, es + more) == Run(Run(s, es), more)
    ensures Valid(s, es + more) <==> Valid(s, es) && Valid(Run(s, es), more)
    ensures Fillings(s, es + more) == Fillings(s, es) + Fillings(Run(s, es), more)
  {
    if more == [] {
      assert es + more == es;
    } else {
      var init := more[..|more| - 1];
      Append(s, es, init);
      assert (es + more)[..|es + more| - 1] == es + init;
      assert (es + more)[|es + more| - 1] == more[|more| - 1];
    }
  }

  lemma One(s: Server, e: Event)
    ensures Run(s, [e]) == Next(s, e)
    ensures Valid(s, [e]) <==> Enabled(s, e)
    ensures Fillings(s, [e]) == if Fills(s, e) then 1 else 0
  {
    assert [e][..0] == [];
  }

  // ---------------------------------------------------- never stranded: live

  lemma {:induction false} LiveRuns(s: Server, es: seq<Event>)
    requires Live(s) && Valid(s, es) && FixedClients(s, es) && NeverStrands(s, es)
    ensures Live(Run(s, es)) && Run(s, es).clients == s.clients
  {
    if es == [] {
    } else {
      LiveRuns(s, es[..|es| - 1]);
      LiveStep(Run(s, es[..|es| - 1]), es[|es| - 1]);
    }
  }

  /** Steps left until the barrier fills: the wakes of the current drain, then the missing arrivals. */
  function ToFill(s: Server): nat
    requires Live(s)
  {
    if s.processed > 0 then |s.notified| + |s.clients| else |s.clients| - |s.waiting|
  }

  lemma StepTowardsFill(s: Server) returns (e: Event)
    requires Live(s)
    ensures Enabled(s, e) && !e.EndRound? && !Strands(s, e) && Live(Next(s, e))
    ensures Next(s, e).clients == s.clients
    ensures Fills(s, e) || ToFill(Next(s, e)) == ToFill(s) - 1
  {
    if s.processed > 0 {
      var c :| c in s.notified;
      e := Wake(c);
      WakeShrinks(s, c);
      if Completes(s, e) {
        SubsetSize({c}, s.notified);
        assert s.notified - {c} == {};
      }
    } else {
      SubsetSize(s.waiting, s.clients);
      assert s.clients - s.waiting != {};
      var c :| c in s.clients - s.waiting;
      e := Arrive(c, 0.0);
      WaitsFit(s, c);
    }
    LiveStep(s, e);
  }

  lemma {:induction false} FillOnce(s: Server) returns (es: seq<Event>)
    requires Live(s)
    ensures Valid(s, es) && FixedClients(s, es) && Fillings(s, es) == 1
    ensures Live(Run(s, es)) && Run(s, es).clients == s.clients
    decreases ToFill(s)
  {
    var e := StepTowardsFill(s);
    One(s, e);
    if Fills(s, e) {
      es := [e];
    } else {
      var rest := FillOnce(Next(s, e));
      Append(s, [e], rest);
      es := [e] + rest;
    }
  }

  ghost predicate CanFill(s: Server, k: nat) {
    exists es :: Valid(s, es) && FixedClients(s, es) && Fillings(s, es) == k
  }

  lemma {:induction false} LiveFillsForever(s: Server, k: nat)
    requires Live(s)
    ensures CanFill(s, k)
    decreases k
  {
    if k == 0 {
      assert Valid(s, []) && FixedClients(s, []) && Fillings(s, []) == 0;
    } else {
      var es := FillOnce(s);
      LiveFillsForever(Run(s, es), k - 1);
      var more :| Valid(Run(s, es), more) && FixedClients(Run(s, es), more)
                  && Fillings(Run(s, es), more) == k - 1;
      Append(s, es, more);
      assert FixedClients(s, es + more);
    }
  }

  // ------------------------------------------------------ once stranded: doomed

  function BudgetOf(clients: set<Client>, waiting: set<Client>, notified: set<Client>): nat {
    2 * |notified| + |clients - waiting - notified|
  }

  /** Steps a stranded barrier can still take: notified calls wake and may return once,
      clients outside come back once, and then everyone waits. */
  function Budget(s: Server): nat {
    BudgetOf(s.clients, s.waiting, s.notified)
  }

  lemma WakeBudget(clients: set<Client>, waiting: set<Client>, notified: set<Client>, c: Client)
    requires c in clients && c in notified && c !in waiting
    ensures BudgetOf(clients, waiting, notified - {c}) == BudgetOf(clients, waiting, notified) - 1
  {
    var outside := clients - waiting - notified;
    assert clients - waiting - (notified - {c}) == outside + {c};
  }

  lemma WaitBudget(clients: set<Client>, waiting: set<Client>, notified: set<Client>, c: Client)
    requires c in clients && c !in waiting && c !in notified
    ensures BudgetOf(clients, waiting + {c}, notified) == BudgetOf(clients, waiting, notified) - 1
  {
    var outside := clients - waiting - notified;
    assert clients - (waiting + {c}) - notified == outside - {c};
  }

  lemma DoomedBudget(s: Server, e: Event)
    requires Doomed(s) && Enabled(s, e)
    requires e.EndRound? ==> e.next == s.clients
    ensures Budget(Next(s, e)) == Budget(s) - if e.EndRound? then 0 else 1
  {
    DoomedStep(s, e);
    match e
    case EndRound(_) =>
    case Wake(c) => WakeBudget(s.clients, s.waiting, s.notified, c);
    case Arrive(c, _) => WaitBudget(s.clients, s.waiting, s.notified, c);
  }

  /** From a doomed state on no batch fills, and the run dries up after at most `Budget` calls and wakes. */
  lemma {:induction false} DoomedRunsDryUp(s: Server, es: seq<Event>)
    requires Doomed(s) && Valid(s, es) && FixedClients(s, es)
    ensures Doomed(Run(s, es)) && Run(s, es).clients == s.clients && Fillings(s, es) == 0
    ensures |es| - Rounds(es) + Budget(Run(s, es)) == Budget(s)
  {
    if es == [] {
    } else {
      var u, e := Run(s, es[..|es| - 1]), es[|es| - 1];
      DoomedRunsDryUp(s, es[..|es| - 1]);
      DoomedStep(u, e);
      DoomedBudget(u, e);
    }
  }

  lemma {:induction false} StrandedRuns(s: Server, es: seq<Event>)
    requires Live(s) && Valid(s, es) && FixedClients(s, es) && !NeverStrands(s, es)
    ensures Doomed(Run(s, es)) && Run(s, es).clients == s.clients
  {
    var pre, e := es[..|es| - 1], es[|es| - 1];
    if NeverStrands(s, pre) {
      LiveRuns(s, pre);
      StrandingStep(Run(s, pre), e);
    } else {
      StrandedRuns(s, pre);
      DoomedStep(Run(s, pre), e);
    }
  }

  /** The exact liveness boundary. For n fixed clients and any interleaving at all, the barrier can
      go on passing batches forever if and only if no arrival has overlapped a drain and no reset
      has hit a waiting call; once one has, no batch ever fills again. */
  lemma PassesForeverIffNeverStranded(clients: set<Client>, t0: real, d: real, es: seq<Event>)
    requires clients != {}
    requires Valid(Init(clients, t0, d), es) && FixedClients(Init(clients, t0, d), es)
    ensures var s0 := Init(clients, t0, d);
      (forall k: nat :: CanFill(Run(s0, es), k)) <==> NeverStrands(s0, es)
    ensures var s0 := Init(clients, t0, d);
      !NeverStrands(s0, es) ==> !CanFill(Run(s0, es), 1) && Run(s0, es).waiting != {}
  {
    var s0 := Init(clients, t0, d);
    var s := Run(s0, es);
    if NeverStrands(s0, es) {
      LiveRuns(s0, es);
      forall k: nat ensures CanFill(s, k) { LiveFillsForever(s, k); }
    } else {
      StrandedRuns(s0, es);
      forall more | Valid(s, more) && FixedClients(s, more) ensures Fillings(s, more) == 0 {
        DoomedRunsDryUp(s, more);
      }
      assert !CanFill(s, 1);
    }
  }

  // ---------------------------------------- what a disturbed drain answers

  ghost predicate OnlyTurnsToStop(replies: seq<Reply>) {
    forall i, j :: 0 <= i < j < |replies| && replies[i].stop ==> replies[j].stop
  }

  /** Every answer given so far still holds of the list as it stands. */
  ghost predicate StillInDrain(s: Server, u: Server, replies: seq<Reply>) {
    && u.clients == s.clients && u.threshold == s.threshold
    && u.processed == s.processed + |replies| && |u.metrics| >= |u.clients|
    && forall i :: 0 <= i < |replies| && replies[i].stop ==> Exceeds(u.metrics, u.threshold)
  }

  lemma DrainStep(s: Server, u: Server, e: Event, replies: seq<Reply>)
    requires StillInDrain(s, u, replies) && OnlyTurnsToStop(replies)
    requires 0 < u.processed < |u.clients| && Enabled(u, e) && !e.EndRound?
    ensures OnlyTurnsToStop(replies + Emitted(u, e))
    ensures Completes(u, e) || StillInDrain(s, Next(u, e), replies + Emitted(u, e))
  {
    var t := AtVerdict(u, e);
    assert u.metrics <= t.metrics;
    if Exceeds(u.metrics, u.threshold) {
      var i :| 0 <= i < |u.metrics| && u.metrics[i] > u.threshold;
      assert t.metrics[i] > t.threshold && (u.metrics + [0.0])[i] > u.threshold;
      assert Exceeds(t.metrics, t.threshold);
      if e.Arrive? {
        assert Next(u, e).metrics[i] > u.threshold;
      }
    }
  }

  lemma {:induction false} DrainRuns(s: Server, es: seq<Event>)
    requires s.processed > 0 && |s.metrics| >= |s.clients| && Valid(s, es) && Rounds(es) == 0
    requires s.processed + |Replies(s, es)| <= |s.clients|
    ensures OnlyTurnsToStop(Replies(s, es))
    ensures s.processed + |Replies(s, es)| < |s.clients| ==> StillInDrain(s, Run(s, es), Replies(s, es))
  {
    if es == [] {
    } else {
      var pre, e := es[..|es| - 1], es[|es| - 1];
      DrainRuns(s, pre);
      if s.processed + |Replies(s, pre)| < |s.clients| {
        DrainStep(s, Run(s, pre), e, Replies(s, pre));
      } else {
        assert Emitted(Run(s, pre), e) == [];
      }
    }
  }

  /** While one batch drains the list only grows, even if clients re-enter: until all n calls are
      answered, answers can only turn from "continue" to "stop", in the order in which calls wake. */
  lemma DrainAnswersOnlyTurnToStop(s: Server, es: seq<Event>)
    requires Draining(s) && Valid(s, es) && Rounds(es) == 0
    requires s.processed + |Replies(s, es)| <= |s.clients|
    ensures forall i, j :: 0 <= i < j < |Replies(s, es)| && Replies(s, es)[i].stop ==> Replies(s, es)[j].stop
  {
    DrainRuns(s, es);
  }
}
