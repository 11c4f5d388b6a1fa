/** The drift metric a client reports, and what it means when the barrier answers "continue". */
module L2Norm {
  import opened Geometry
  import opened MetricBarrier
  import opened BarrierReentry

  datatype Start = Unset | Start(weights: seq<Vec>)

  datatype Outcome = Done | ValueError(message: string)

  function Flatten(tensors: seq<Vec>): Vec {
    if tensors == [] then [] else tensors[0] + Flatten(tensors[1..])
  }

  /** Paired tensors have equal shapes; zip drops what the longer list has left over. */
  predicate Pairable(a: seq<Vec>, b: seq<Vec>) {
    forall i :: 0 <= i < |a| && i < |b| ==> |a[i]| == |b[i]|
  }

  function Drift(start: seq<Vec>, end: seq<Vec>): real
    requires Pairable(start, end)
  {
    if start == [] || end == [] then 0.0
    else SqDist(end[0], start[0]) + Drift(start[1..], end[1..])
  }

  class L2Metric {
    var initialWeights: Start
    var l2Norm: real

    constructor ()
      ensures initialWeights == Unset && l2Norm == 0.0
    {
      initialWeights, l2Norm := Unset, 0.0;
    }

    method ResetState()
      modifies this`l2Norm
      ensures l2Norm == 0.0
    {
      l2Norm := 0.0;
    }

    method SetWeightMean(weights: seq<Vec>)
      modifies this`initialWeights
      ensures initialWeights == Start(weights)
    {
      initialWeights := Start(weights);
    }

    method UpdateState(weights: seq<Vec>) returns (r: Outcome)
      requires initialWeights.Start? ==> Pairable(initialWeights.weights, weights)
      modifies this`l2Norm
      ensures initialWeights == Unset ==> r.ValueError? && l2Norm == old(l2Norm)
      ensures initialWeights.Start? ==> r == Done && l2Norm == Drift(initialWeights.weights, weights)
    {
      if initialWeights == Unset {
        return ValueError("Call set_weight_mean() with the initial weights first.");
      }
      var start := initialWeights.weights;
      var normChange, i := 0.0, 0;
      while i < |start| && i < |weights|
        invariant 0 <= i <= |start| && i <= |weights|
        invariant normChange + Drift(start[i..], weights[i..]) == Drift(start, weights)
      {
        normChange := normChange + SqDist(weights[i], start[i]);
        i := i + 1;
      }
      l2Norm := normChange;
      r := Done;
    }
  }

  lemma {:induction false} SqDistAppend(a: Vec, b: Vec, u: Vec, v: Vec)
    requires |a| == |b| && |u| == |v|
    ensures SqDist(a + u, b + v) == SqDist(a, b) + SqDist(u, v)
  {
    if a == [] {
      assert a + u == u && b + v == v;
    } else {
      assert (a + u)[1..] == a[1..] + u && (b + v)[1..] == b[1..] + v;
      SqDistAppend(a[1..], b[1..], u, v);
    }
  }

  lemma {:induction false} FlattenSize(a: seq<Vec>, b: seq<Vec>)
    requires |a| == |b| && Pairable(a, b)
    ensures |Flatten(a)| == |Flatten(b)|
  {
    if a == [] {
    } else {
      FlattenSize(a[1..], b[1..]);
    }
  }

  /** The tensor by tensor accumulation is the squared norm of the flattened difference. */
  lemma {:induction false} DriftIsFlatDistance(start: seq<Vec>, end: seq<Vec>)
    requires |start| == |end| && Pairable(start, end)
    ensures |Flatten(end)| == |Flatten(start)| && Drift(start, end) == SqDist(Flatten(end), Flatten(start))
  {
    FlattenSize(start, end);
    if start == [] {
    } else {
      FlattenSize(start[1..], end[1..]);
      DriftIsFlatDistance(start[1..], end[1..]);
      SqDistAppend(end[0], start[0], Flatten(end[1..]), Flatten(start[1..]));
    }
  }

  lemma ProductPositive(x: real, y: real, p: real)
    requires x > 0.0 && y > 0.0 && p == x * y
    ensures p > 0.0
  {
  }

  lemma SquarePositive(x: real)
    requires x != 0.0
    ensures Sq(x) > 0.0
  {
    if x > 0.0 {
      ProductPositive(x, x, Sq(x));
    } else {
      ProductPositive(-x, -x, Sq(x));
    }
  }

  /** Two vectors that differ anywhere are at a positive distance. */
  lemma {:induction false} DistancePositive(u: Vec, v: Vec, i: nat)
    requires |u| == |v| && i < |u| && u[i] != v[i]
    ensures SqDist(u, v) > 0.0
  {
    SqDistNonNegative(u[1..], v[1..]);
    if i == 0 {
      SquarePositive(u[0] - v[0]);
    } else {
      DistancePositive(u[1..], v[1..], i - 1);
    }
  }

  lemma {:induction false} DistanceToSelf(u: Vec)
    ensures SqDist(u, u) == 0.0
  {
    if u == [] {
    } else {
      DistanceToSelf(u[1..]);
      assert u[0] - u[0] == 0.0;
    }
  }

  lemma DistanceZeroIff(u: Vec, v: Vec)
    requires |u| == |v|
    ensures SqDist(u, v) == 0.0 <==> u == v
  {
    if u == v {
      DistanceToSelf(u);
    } else {
      var i :| 0 <= i < |u| && u[i] != v[i];
      DistancePositive(u, v, i);
    }
  }

  lemma {:induction false} DriftNonNegative(start: seq<Vec>, end: seq<Vec>)
    requires |start| == |end| && Pairable(start, end)
    ensures Drift(start, end) >= 0.0
  {
    if start == [] {
    } else {
      SqDistNonNegative(end[0], start[0]);
      DriftNonNegative(start[1..], end[1..]);
    }
  }

  /** The metric is zero exactly when the model stands where set_weight_mean found it. */
  lemma {:induction false} ZeroIffUnmoved(start: seq<Vec>, end: seq<Vec>)
    requires |start| == |end| && Pairable(start, end)
    ensures Drift(start, end) == 0.0 <==> start == end
  {
    if start == [] {
    } else {
      ZeroIffUnmoved(start[1..], end[1..]);
      DriftNonNegative(start[1..], end[1..]);
      SqDistNonNegative(end[0], start[0]);
      DistanceZeroIff(end[0], start[0]);
      assert start == [start[0]] + start[1..] && end == [end[0]] + end[1..];
    }
  }

  lemma {:induction false} OneCoordinateMoved(u: Vec, i: nat, x: real)
    requires i < |u|
    ensures SqDist(u[i := u[i] + x], u) == x * x
  {
    var v := u[i := u[i] + x];
    if i == 0 {
      var moved := v[0] - u[0];
      assert moved == x && Sq(moved) == x * x;
      assert v[1..] == u[1..];
      DistanceToSelf(u[1..]);
    } else {
      assert v[0] - u[0] == 0.0 && Sq(0.0) == 0.0;
      assert v[1..] == u[1..][i - 1 := u[1..][i - 1] + x];
      OneCoordinateMoved(u[1..], i - 1, x);
    }
  }

  /** A single weight that moves by x makes the drift x squared. */
  lemma {:induction false} OneWeightMoved(start: seq<Vec>, k: nat, i: nat, x: real)
    requires k < |start| && i < |start[k]|
    ensures var end := start[k := start[k][i := start[k][i] + x]];
      Pairable(start, end) && Drift(start, end) == x * x
  {
    var end := start[k := start[k][i := start[k][i] + x]];
    if k == 0 {
      assert end[1..] == start[1..];
      ZeroIffUnmoved(start[1..], start[1..]);
      OneCoordinateMoved(start[0], i, x);
    } else {
      assert end[1..] == start[1..][k - 1 := start[1..][k - 1][i := start[1..][k - 1][i] + x]];
      OneWeightMoved(start[1..], k - 1, i, x);
      DistanceToSelf(start[0]);
    }
  }

  /** Tensors beyond those of the shorter list are not compared. */
  lemma {:induction false} DriftOfShorter(start: seq<Vec>, end: seq<Vec>, more: seq<Vec>)
    requires |start| == |end| && Pairable(start, end)
    ensures Pairable(start, end + more) && Drift(start, end + more) == Drift(start, end)
    ensures Pairable(start + more, end) && Drift(start + more, end) == Drift(start, end)
  {
    if start == [] {
    } else {
      DriftOfShorter(start[1..], end[1..], more);
      assert (end + more)[1..] == end[1..] + more && (start + more)[1..] == start[1..] + more;
    }
  }

  // ------------------------------------------------ the server says "continue"

  /** Every call carries the drift of its client's model. */
  predicate NormsAreDrifts(calls: seq<Event>, models: map<Client, seq<Vec>>, start: seq<Vec>) {
    forall e <- calls ::
      e.Arrive? && e.client in models && |models[e.client]| == |start|
      && Pairable(start, models[e.client]) && e.norm == Drift(start, models[e.client])
  }

  function FlatModels(calls: seq<Event>, models: map<Client, seq<Vec>>): (ws: seq<Vec>)
    requires forall e <- calls :: e.Arrive? && e.client in models
    ensures |ws| == |calls| && forall i :: 0 <= i < |calls| ==> ws[i] == Flatten(models[calls[i].client])
  {
    seq(|calls|, i requires 0 <= i < |calls| => Flatten(models[calls[i].client]))
  }

  /** The models' mean squared distance to their average, and the squared drift of that average, share
      the threshold between them. */
  predicate InSafeBall(ws: seq<Vec>, w0: Vec, threshold: real) {
    && ws != [] && SameDim(ws, |w0|)
    && var m := Mean(ws, |w0|);
       && TotalSqDist(ws, m) / |ws| as real + SqDist(m, w0) <= threshold
       && TotalSqDist(ws, m) / |ws| as real <= threshold && SqDist(m, w0) <= threshold
  }

  lemma QuietBatchIsSafe(calls: seq<Event>, threshold: real, models: map<Client, seq<Vec>>, start: seq<Vec>)
    requires calls != [] && NormsAreDrifts(calls, models, start) && !Exceeds(Norms(calls), threshold)
    ensures InSafeBall(FlatModels(calls, models), Flatten(start), threshold)
  {
    var ws, w0 := FlatModels(calls, models), Flatten(start);
    forall k | 0 <= k < |ws| ensures |ws[k]| == |w0| && SqDist(ws[k], w0) <= threshold {
      var e := calls[k];
      DriftIsFlatDistance(start, models[e.client]);
      assert Norms(calls)[k] == e.norm;
    }
    SafeBall(ws, w0, threshold);
  }

  /** What the call e that fills the barrier is answered, and what the calls after it are answered until
      all n calls of the batch are through. */
  function PassageReplies(s: Server, e: Event, es: seq<Event>): seq<Reply> {
    Emitted(s, e) + Replies(Next(s, e), es)
  }

  /** Whatever happens between the filling of a batch and its last answer, "continue" is only said if no
      norm of the batch exceeds the threshold. */
  lemma PassageContinues(s: Server, open: Batch, e: Event, es: seq<Event>, r: Reply)
    requires Filling(s) && OpenMatches(s, open) && Enabled(s, e) && Fills(s, e)
    requires Valid(Next(s, e), es) && Rounds(es) == 0 && |PassageReplies(s, e, es)| <= |s.clients|
    requires r in PassageReplies(s, e, es) && !r.stop
    ensures forall x <- open.calls + [e] :: x.Arrive?
    ensures !Exceeds(Norms(open.calls + [e]), s.threshold)
  {
    FillingArrival(s, e, open);
    assert Emitted(s, e) == [Reply(e.client, Exceeds(s.metrics + [e.norm], s.threshold))];
    if r in Replies(Next(s, e), es) {
      assert !Completes(s, e);
      NotifyingArrival(s, e, open);
      ContinueIsDeserved(Next(s, e), es);
    }
  }

  /** Geometric soundness of every passage of the barrier, re-entry during its drain included: if any of
      its answers is "continue", the models of its n calls are in the safe ball. */
  lemma ContinueBoundsTheSpread(s: Server, open: Batch, e: Event, es: seq<Event>, r: Reply,
                                models: map<Client, seq<Vec>>, start: seq<Vec>)
    requires Filling(s) && OpenMatches(s, open) && Enabled(s, e) && Fills(s, e)
    requires Valid(Next(s, e), es) && Rounds(es) == 0 && |PassageReplies(s, e, es)| <= |s.clients|
    requires r in PassageReplies(s, e, es) && !r.stop
    requires NormsAreDrifts(open.calls + [e], models, start)
    ensures Callers(open.calls + [e]) == s.clients
    ensures InSafeBall(FlatModels(open.calls + [e], models), Flatten(start), s.threshold)
  {
    FillingArrival(s, e, open);
    PassageContinues(s, open, e, es, r);
    QuietBatchIsSafe(open.calls + [e], s.threshold, models, start);
  }

  /** The same for a batch in which everyone agrees, from the observer's record alone. */
  lemma AgreedContinueBoundsTheSpread(b: Batch, threshold: real, models: map<Client, seq<Vec>>, start: seq<Vec>, r: Reply)
    requires Agreed(b, threshold) && NormsAreDrifts(b.calls, models, start)
    requires r in b.replies && !r.stop
    ensures InSafeBall(FlatModels(b.calls, models), Flatten(start), threshold)
  {
    QuietBatchIsSafe(b.calls, threshold, models, start);
  }
}
