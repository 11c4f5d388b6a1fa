/** Averages, minima and maxima of lists of reals. */
module Averages {
  import opened Sums

  predicate Within(xs: seq<real>, lo: real, hi: real) {
    forall i :: 0 <= i < |xs| ==> lo <= xs[i] <= hi
  }

  predicate IsMax(xs: seq<real>, m: real) {
    m in xs && forall i :: 0 <= i < |xs| ==> xs[i] <= m
  }

  predicate IsMin(xs: seq<real>, m: real) {
    m in xs && forall i :: 0 <= i < |xs| ==> m <= xs[i]
  }

  lemma {:induction false} SumWithin(xs: seq<real>, lo: real, hi: real)
    requires Within(xs, lo, hi)
    ensures Times(|xs|, lo) <= Sum(xs) <= Times(|xs|, hi)
  {
    if xs == [] {
    } else {
      SumWithin(xs[..|xs| - 1], lo, hi);
    }
  }

  /** The arithmetic mean, as Python computes it from a nonempty list. */
  function Average(xs: seq<real>): real
    requires xs != []
  {
    Sum(xs) / |xs| as real
  }

  /** An average lies between any bounds of its terms. */
  lemma AverageWithin(xs: seq<real>, lo: real, hi: real)
    requires xs != [] && Within(xs, lo, hi)
    ensures lo <= Average(xs) <= hi
  {
    SumWithin(xs, lo, hi);
    QuotientBetween(|xs|, Sum(xs), lo, hi);
  }

  function Max(xs: seq<real>): (m: real)
    requires xs != []
    ensures IsMax(xs, m)
  {
    var x := xs[|xs| - 1];
    if |xs| == 1 then x
    else
      var rest := xs[..|xs| - 1];
      var m := Max(rest);
      assert forall y <- rest :: y in xs;
      assert forall i :: 0 <= i < |rest| ==> rest[i] == xs[i];
      if m < x then x else m
  }

  function Min(xs: seq<real>): (m: real)
    requires xs != []
    ensures IsMin(xs, m)
  {
    var x := xs[|xs| - 1];
    if |xs| == 1 then x
    else
      var rest := xs[..|xs| - 1];
      var m := Min(rest);
      assert forall y <- rest :: y in xs;
      assert forall i :: 0 <= i < |rest| ==> rest[i] == xs[i];
      if x < m then x else m
  }

  /** |xs| times a is the sum of xs; so a lies between the least and the largest term. */
  predicate IsAverage(xs: seq<real>, a: real) {
    xs != [] && Times(|xs|, a) == Sum(xs) && Min(xs) <= a <= Max(xs)
  }

  lemma AverageIsAverage(xs: seq<real>)
    requires xs != []
    ensures IsAverage(xs, Average(xs))
  {
    QuotientTimes(Sum(xs), |xs|);
    AverageWithin(xs, Min(xs), Max(xs));
  }
}
