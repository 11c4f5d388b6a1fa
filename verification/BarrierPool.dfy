/**
 The barrier behind a pool of W handler threads: a call keeps its handler from its entry to its
 return, waits included, and the round reset is served by a handler of the same pool.
 */
module BarrierPool {
  import opened FiniteSets
  import opened MetricBarrier
  import opened BarrierLiveness
  import opened BarrierCounts

  predicate HandlerFree(s: Server, handlers: nat) {
    |s.waiting| + |s.notified| < handlers
  }

  predicate Served(s: Server, handlers: nat, es: seq<Event>) {
    es == [] ||
    (Served(s, handlers, es[..|es| - 1]) &&
     var u, e := Run(s, es[..|es| - 1]), es[|es| - 1];
     Enabled(u, e) && (e.Wake? || HandlerFree(u, handlers)))
  }

  lemma {:induction false} ServedIsValid(s: Server, handlers: nat, es: seq<Event>)
    requires Served(s, handlers, es)
    ensures Valid(s, es)
  {
    if es == [] {
    } else {
      ServedIsValid(s, handlers, es[..|es| - 1]);
    }
  }

  lemma {:induction false} ServedAppend(s: Server, handlers: nat, es: seq<Event>, more: seq<Event>)
    ensures Served(s, handlers, es + more) <==> Served(s, handlers, es) && Served(Run(s, es), handlers, more)
  {
    if more == [] {
      assert es + more == es;
    } else {
      var init := more[..|more| - 1];
      ServedAppend(s, handlers, es, init);
      Append(s, es, init);
      assert (es + more)[..|es + more| - 1] == es + init;
      assert (es + more)[|es + more| - 1] == more[|more| - 1];
    }
  }

  lemma ServedOne(s: Server, handlers: nat, e: Event)
    requires Enabled(s, e) && (e.Wake? || HandlerFree(s, handlers))
    ensures Served(s, handlers, [e])
  {
    assert [e][..|[e]| - 1] == [];
    assert Served(s, handlers, []);
  }

  /** Too few handlers: everyone inside waits, and the list is too short to fill. */
  predicate Starved(s: Server, handlers: nat) {
    s.processed == 0 && s.notified == {} && |s.metrics| <= |s.waiting| <= handlers < |s.clients|
  }

  lemma {:induction false} StarvedRuns(s: Server, handlers: nat, es: seq<Event>)
    requires Starved(s, handlers) && Served(s, handlers, es) && FixedClients(s, es)
    ensures Starved(Run(s, es), handlers) && Run(s, es).clients == s.clients
    ensures Replies(s, es) == [] && Fillings(s, es) == 0
  {
    if es == [] {
    } else {
      StarvedRuns(s, handlers, es[..|es| - 1]);
      var u, e := Run(s, es[..|es| - 1]), es[|es| - 1];
      if e.Arrive? {
        assert |u.waiting + {e.client}| == |u.waiting| + 1;
      }
    }
  }

  lemma {:induction false} ServedFill(s: Server, handlers: nat) returns (es: seq<Event>)
    requires Live(s) && |s.clients| <= handlers
    ensures Served(s, handlers, es) && FixedClients(s, es) && Fillings(s, es) == 1
    decreases ToFill(s)
  {
    var e := StepTowardsFill(s);
    One(s, e);
    if e.Arrive? {
      WaitsFit(s, e.client);
    }
    ServedOne(s, handlers, e);
    if Fills(s, e) {
      es := [e];
    } else {
      var rest := ServedFill(Next(s, e), handlers);
      Append(s, [e], rest);
      ServedAppend(s, handlers, [e], rest);
      es := [e] + rest;
    }
  }

  ghost predicate SomeBatchFills(s: Server, handlers: nat) {
    exists es :: Served(s, handlers, es) && FixedClients(s, es) && Fillings(s, es) > 0
  }

  /** The pool is large enough exactly when it has a handler for every proxy handed out;
      with fewer, no call of any run is ever answered. */
  lemma PoolSufficesIff(clients: set<Client>, t0: real, d: real, handlers: nat)
    requires clients != {}
    ensures SomeBatchFills(Init(clients, t0, d), handlers) <==> |clients| <= handlers
    ensures handlers < |clients| ==>
      forall es :: Served(Init(clients, t0, d), handlers, es) && FixedClients(Init(clients, t0, d), es)
        ==> Replies(Init(clients, t0, d), es) == []
  {
    var s0 := Init(clients, t0, d);
    if |clients| <= handlers {
      var es := ServedFill(s0, handlers);
      assert SomeBatchFills(s0, handlers);
    } else {
      forall es | Served(s0, handlers, es) && FixedClients(s0, es)
        ensures Replies(s0, es) == [] && Fillings(s0, es) == 0
      {
        StarvedRuns(s0, handlers, es);
      }
    }
  }

  lemma CallFindsHandler(s: Server, e: Event, handlers: nat)
    requires LiveOrDoomed(s) && Enabled(s, e) && e.Arrive? && |s.clients| <= handlers
    ensures HandlerFree(s, handlers)
  {
    WaitsFit(s, e.client);
  }

  /** With a handler for each of n fixed clients every run between two resets is served. */
  lemma {:induction false} EnoughHandlers(s: Server, handlers: nat, es: seq<Event>)
    requires LiveOrDoomed(s) && Valid(s, es) && FixedClients(s, es) && Rounds(es) == 0
    requires |s.clients| <= handlers
    ensures Served(s, handlers, es)
  {
    if es == [] {
    } else {
      var pre, e := es[..|es| - 1], es[|es| - 1];
      EnoughHandlers(s, handlers, pre);
      LiveOrDoomedRuns(s, pre);
      if e.Arrive? {
        CallFindsHandler(Run(s, pre), e, handlers);
      }
    }
  }

  // ------------------------------------------------- how long a batch takes

  /** Steps to the end of the open batch: n arrivals and n - 1 wakes in all. */
  function StepsLeft(s: Server): int {
    if s.processed > 0 then |s.notified| else 2 * |s.clients| - 1 - |s.waiting|
  }

  lemma WakeCounts(s: Server, e: Event)
    requires Draining(s) && e.Wake? && Enabled(s, e)
    ensures Completes(s, e) <==> StepsLeft(s) == 1
    ensures StepsLeft(Next(s, e)) == if Completes(s, e) then 2 * |s.clients| - 1 else StepsLeft(s) - 1
  {
    WakeShrinks(s, e.client);
  }

  lemma ArrivalCounts(s: Server, e: Event)
    requires Filling(s) && e.Arrive? && Enabled(s, e)
    ensures Completes(s, e) <==> StepsLeft(s) == 1
    ensures StepsLeft(Next(s, e)) == if Completes(s, e) then 2 * |s.clients| - 1 else StepsLeft(s) - 1
  {
    WaitsFit(s, e.client);
    if Completes(s, e) {
      SubsetSize({}, s.waiting);
    }
  }

  lemma OrderlyPhase(s: Server, e: Event)
    requires (Filling(s) || Draining(s)) && Enabled(s, e) && !e.EndRound?
    requires e.Arrive? ==> s.processed == 0
    ensures Filling(Next(s, e)) || Draining(Next(s, e))
    ensures Next(s, e).clients == s.clients
  {
    if e.Wake? {
      WakeShrinks(s, e.client);
      SubsetSize({}, s.notified - {e.client});
    } else {
      WaitsFit(s, e.client);
      SubsetSize({}, s.waiting);
    }
  }

  lemma StepCounts(s: Server, e: Event)
    requires s.clients != {} && (Filling(s) || Draining(s)) && Enabled(s, e) && !e.EndRound?
    requires e.Arrive? ==> s.processed == 0
    ensures Filling(Next(s, e)) || Draining(Next(s, e))
    ensures Next(s, e).clients == s.clients
    ensures StepsLeft(Next(s, e)) == if Completes(s, e) then 2 * |s.clients| - 1 else StepsLeft(s) - 1
    ensures Completes(s, e) ==> StepsLeft(s) == 1
  {
    OrderlyPhase(s, e);
    if e.Wake? {
      WakeCounts(s, e);
    } else {
      ArrivalCounts(s, e);
    }
  }

  /** An orderly run never has to stop: some client can step, and with a handler per proxy the
      pool lets it. */
  lemma OrderlyProgress(s: Server, handlers: nat)
    requires s.clients != {} && (Filling(s) || Draining(s)) && |s.clients| <= handlers
    ensures exists e ::
      (Enabled(s, e) && !e.EndRound? && (e.Arrive? ==> s.processed == 0)
       && (e.Wake? || HandlerFree(s, handlers)))
  {
    var e := StepTowardsFill(s);
    if e.Arrive? {
      WaitsFit(s, e.client);
    }
  }
}
