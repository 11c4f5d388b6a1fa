/** Squared distances between weight vectors, and what the drift of each local model says
    about the spread of all of them. */
module Geometry {
  import opened Sums

  type Vec = seq<real>

  function Sq(x: real): real {
    x * x
  }

  function SqDist(u: Vec, v: Vec): real
    requires |u| == |v|
  {
    if u == [] then 0.0 else Sq(u[0] - v[0]) + SqDist(u[1..], v[1..])
  }

  predicate SameDim(ws: seq<Vec>, dim: nat) {
    forall k :: 0 <= k < |ws| ==> |ws[k]| == dim
  }

  function TotalSqDist(ws: seq<Vec>, center: Vec): real
    requires SameDim(ws, |center|)
  {
    if ws == [] then 0.0 else SqDist(ws[0], center) + TotalSqDist(ws[1..], center)
  }

  function Column(ws: seq<Vec>, j: nat): seq<real>
    requires forall k :: 0 <= k < |ws| ==> j < |ws[k]|
  {
    if ws == [] then [] else [ws[0][j]] + Column(ws[1..], j)
  }

  function Tails(ws: seq<Vec>, dim: nat): (tails: seq<Vec>)
    requires SameDim(ws, dim) && dim > 0
    ensures |tails| == |ws| && SameDim(tails, dim - 1)
  {
    if ws == [] then [] else [ws[0][1..]] + Tails(ws[1..], dim)
  }

  /** The coordinate-wise average. */
  function Mean(ws: seq<Vec>, dim: nat): (m: Vec)
    requires SameDim(ws, dim) && ws != []
    ensures |m| == dim
  {
    seq(dim, j requires 0 <= j < dim => Sum(Column(ws, j)) / |ws| as real)
  }

  /** n times each coordinate of m is the sum of that coordinate: what makes m the average. */
  predicate IsMean(ws: seq<Vec>, m: Vec)
    requires SameDim(ws, |m|)
  {
    forall j :: 0 <= j < |m| ==> Times(|ws|, m[j]) == Sum(Column(ws, j))
  }

  lemma MeanIsMean(ws: seq<Vec>, dim: nat)
    requires SameDim(ws, dim) && ws != []
    ensures IsMean(ws, Mean(ws, dim))
  {
    forall j | 0 <= j < dim ensures Times(|ws|, Mean(ws, dim)[j]) == Sum(Column(ws, j)) {
      QuotientTimes(Sum(Column(ws, j)), |ws|);
    }
  }

  lemma {:induction false} ColumnOfTails(ws: seq<Vec>, dim: nat, j: nat)
    requires SameDim(ws, dim) && j + 1 < dim
    ensures Column(Tails(ws, dim), j) == Column(ws, j + 1)
  {
    if ws == [] {
    } else {
      var ts := Tails(ws, dim);
      assert ts[0] == ws[0][1..] && ts[1..] == Tails(ws[1..], dim);
      ColumnOfTails(ws[1..], dim, j);
    }
  }

  lemma MeanOfTails(ws: seq<Vec>, m: Vec)
    requires m != [] && SameDim(ws, |m|) && IsMean(ws, m)
    ensures IsMean(Tails(ws, |m|), m[1..])
  {
    forall j | 0 <= j < |m| - 1 ensures Times(|ws|, m[1..][j]) == Sum(Column(Tails(ws, |m|), j)) {
      ColumnOfTails(ws, |m|, j);
      assert m[1..][j] == m[j + 1];
    }
  }

  // ---------------------------------------------------- one coordinate

  function SumSq(xs: seq<real>, a: real): real {
    if xs == [] then 0.0 else Sq(xs[0] - a) + SumSq(xs[1..], a)
  }

  /** c times the sum of the deviations from m. */
  function Skew(xs: seq<real>, c: real, m: real): real {
    if xs == [] then 0.0 else c * (xs[0] - m) + Skew(xs[1..], c, m)
  }

  lemma {:induction false} BalancedSkew(xs: seq<real>, c: real, m: real)
    ensures Skew(xs, c, m) == c * (Sum(xs) - Times(|xs|, m))
  {
    if xs == [] {
    } else {
      BalancedSkew(xs[1..], c, m);
      SumFront(xs);
    }
  }

  /** Moving the centre from m to a. */
  lemma {:induction false} ShiftCentre(xs: seq<real>, a: real, m: real)
    ensures SumSq(xs, a) == SumSq(xs, m) + Skew(xs, 2.0 * (m - a), m) + Times(|xs|, Sq(m - a))
  {
    if xs == [] {
    } else {
      ShiftCentre(xs[1..], a, m);
    }
  }

  lemma ScalarSplit(xs: seq<real>, a: real, m: real)
    requires Times(|xs|, m) == Sum(xs)
    ensures SumSq(xs, m) == SumSq(xs, a) - Times(|xs|, Sq(m - a))
  {
    ShiftCentre(xs, a, m);
    BalancedSkew(xs, 2.0 * (m - a), m);
  }

  // --------------------------------------------------- all coordinates

  lemma {:induction false} SplitFirst(ws: seq<Vec>, c: Vec)
    requires SameDim(ws, |c|) && c != []
    ensures TotalSqDist(ws, c) == SumSq(Column(ws, 0), c[0]) + TotalSqDist(Tails(ws, |c|), c[1..])
  {
    if ws == [] {
    } else {
      var ts := Tails(ws, |c|);
      assert ts[0] == ws[0][1..] && ts[1..] == Tails(ws[1..], |c|);
      assert Column(ws, 0)[1..] == Column(ws[1..], 0);
      SplitFirst(ws[1..], c);
    }
  }

  lemma {:induction false} ColumnLength(ws: seq<Vec>, j: nat)
    requires forall k :: 0 <= k < |ws| ==> j < |ws[k]|
    ensures |Column(ws, j)| == |ws|
  {
    if ws == [] {
    } else {
      ColumnLength(ws[1..], j);
    }
  }

  lemma {:induction false} FlatDim(ws: seq<Vec>)
    requires SameDim(ws, 0)
    ensures TotalSqDist(ws, []) == 0.0
  {
    if ws == [] {
    } else {
      FlatDim(ws[1..]);
    }
  }

  lemma ColumnSplit(ws: seq<Vec>, a: real, m: real, p: real)
    requires p == Sq(m - a) && forall k :: 0 <= k < |ws| ==> 0 < |ws[k]|
    requires Times(|ws|, m) == Sum(Column(ws, 0))
    ensures SumSq(Column(ws, 0), m) == SumSq(Column(ws, 0), a) - Times(|ws|, p)
  {
    ColumnLength(ws, 0);
    ScalarSplit(Column(ws, 0), a, m);
  }

  lemma CombineSplits(n: nat, firstM: real, restM: real, firstA: real, restA: real, p: real, q: real)
    requires firstM == firstA - Times(n, p) && restM == restA - Times(n, q)
    ensures firstM + restM == firstA + restA - Times(n, p + q)
  {
    TimesSum(n, p, q);
  }

  /** The distances to m from those to a, coordinate by coordinate; `rest` and `p` are the distances of m
      and a without and in their first coordinate. */
  lemma SplitStep(ws: seq<Vec>, a: Vec, m: Vec, p: real, rest: real, n: nat)
    requires |m| == |a| > 0 && SameDim(ws, |a|) && n == |ws|
    requires SumSq(Column(ws, 0), m[0]) == SumSq(Column(ws, 0), a[0]) - Times(n, p)
    requires TotalSqDist(Tails(ws, |a|), m[1..]) == TotalSqDist(Tails(ws, |a|), a[1..]) - Times(n, rest)
    ensures TotalSqDist(ws, m) == TotalSqDist(ws, a) - Times(n, p + rest)
  {
    var ts, c := Tails(ws, |a|), Column(ws, 0);
    SplitFirst(ws, m);
    SplitFirst(ws, a);
    CombineSplits(n, SumSq(c, m[0]), TotalSqDist(ts, m[1..]), SumSq(c, a[0]), TotalSqDist(ts, a[1..]), p, rest);
  }

  lemma {:induction false} SplitAt(ws: seq<Vec>, a: Vec, m: Vec, q: real)
    requires |m| == |a| && SameDim(ws, |a|) && IsMean(ws, m) && q == SqDist(m, a)
    ensures TotalSqDist(ws, m) == TotalSqDist(ws, a) - Times(|ws|, q)
    decreases |a|
  {
    if a == [] {
      FlatDim(ws);
      TimesIsProduct(|ws|, 0.0);
    } else {
      var p, rest := Sq(m[0] - a[0]), SqDist(m[1..], a[1..]);
      MeanOfTails(ws, m);
      SplitAt(Tails(ws, |a|), a[1..], m[1..], rest);
      ColumnSplit(ws, a[0], m[0], p);
      SplitStep(ws, a, m, p, rest, |ws|);
    }
  }

  /** The variance identity: the squared distances to the average are the squared distances to any
      point, less n times the squared distance from the average to that point. */
  lemma VarianceSplit(ws: seq<Vec>, a: Vec)
    requires ws != [] && SameDim(ws, |a|)
    ensures TotalSqDist(ws, Mean(ws, |a|)) == TotalSqDist(ws, a) - Times(|ws|, SqDist(Mean(ws, |a|), a))
  {
    MeanIsMean(ws, |a|);
    SplitAt(ws, a, Mean(ws, |a|), SqDist(Mean(ws, |a|), a));
  }

  lemma {:induction false} SqDistNonNegative(u: Vec, v: Vec)
    requires |u| == |v|
    ensures SqDist(u, v) >= 0.0
  {
    if u == [] {
    } else {
      SqDistNonNegative(u[1..], v[1..]);
    }
  }

  lemma {:induction false} TotalNonNegative(ws: seq<Vec>, c: Vec)
    requires SameDim(ws, |c|)
    ensures TotalSqDist(ws, c) >= 0.0
  {
    if ws == [] {
    } else {
      SqDistNonNegative(ws[0], c);
      TotalNonNegative(ws[1..], c);
    }
  }

  lemma {:induction false} TotalAtMost(ws: seq<Vec>, c: Vec, t: real)
    requires SameDim(ws, |c|) && forall k :: 0 <= k < |ws| ==> SqDist(ws[k], c) <= t
    ensures TotalSqDist(ws, c) <= Times(|ws|, t)
  {
    if ws == [] {
    } else {
      assert forall k :: 0 <= k < |ws[1..]| ==> ws[1..][k] == ws[k + 1];
      TotalAtMost(ws[1..], c, t);
    }
  }

  lemma Divide(v: real, q: real, n: real, t: real)
    requires n > 0.0 && v >= 0.0 && q >= 0.0 && v + n * q <= n * t
    ensures v / n + q <= t && v / n >= 0.0
  {
    var r := v / n;
    assert n * r == v;
    if r + q > t {
      assert n * (r + q) > n * t;
      assert n * (r + q) == n * r + n * q;
    }
  }

  lemma Share(v: real, q: real, n: nat, t: real)
    requires n > 0 && v >= 0.0 && q >= 0.0 && v + Times(n, q) <= Times(n, t)
    ensures v / n as real + q <= t && v / n as real <= t && q <= t
  {
    TimesIsProduct(n, q);
    TimesIsProduct(n, t);
    Divide(v, q, n as real, t);
  }

  lemma SafeTotal(ws: seq<Vec>, w0: Vec, m: Vec, t: real)
    requires ws != [] && SameDim(ws, |w0|) && m == Mean(ws, |w0|)
    requires forall k :: 0 <= k < |ws| ==> SqDist(ws[k], w0) <= t
    ensures TotalSqDist(ws, m) >= 0.0 && SqDist(m, w0) >= 0.0
    ensures TotalSqDist(ws, m) + Times(|ws|, SqDist(m, w0)) <= Times(|ws|, t)
  {
    TotalAtMost(ws, w0, t);
    VarianceSplit(ws, w0);
    TotalNonNegative(ws, m);
    SqDistNonNegative(m, w0);
  }

  /** If every local model has drifted by at most t, then the mean squared distance of the models to
      their average and the drift of the average share the budget t between them. */
  lemma SafeBall(ws: seq<Vec>, w0: Vec, t: real)
    requires ws != [] && SameDim(ws, |w0|)
    requires forall k :: 0 <= k < |ws| ==> SqDist(ws[k], w0) <= t
    ensures var m := Mean(ws, |w0|);
      && TotalSqDist(ws, m) / |ws| as real + SqDist(m, w0) <= t
      && TotalSqDist(ws, m) / |ws| as real <= t
      && SqDist(m, w0) <= t
  {
    var m := Mean(ws, |w0|);
    SafeTotal(ws, w0, m, t);
    Share(TotalSqDist(ws, m), SqDist(m, w0), |ws|, t);
  }
}
