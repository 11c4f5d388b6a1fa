/** The accuracy aggregation of the strategy: a loop over (number of examples, accuracy) pairs. */
module WeightedAverage {
  import opened Sums

  datatype Score = Score(examples: nat, accuracy: real)

  function Examples(ms: seq<Score>): nat {
    if ms == [] then 0 else Examples(ms[..|ms| - 1]) + ms[|ms| - 1].examples
  }

  /** Each accuracy counted once for every example. */
  function Correct(ms: seq<Score>): real {
    if ms == [] then 0.0 else Correct(ms[..|ms| - 1]) + Times(ms[|ms| - 1].examples, ms[|ms| - 1].accuracy)
  }

  function Mean(ms: seq<Score>): real {
    if Examples(ms) > 0 then Correct(ms) / Examples(ms) as real else 0.0
  }

  lemma {:induction false} Append(a: seq<Score>, b: seq<Score>)
    ensures Examples(a + b) == Examples(a) + Examples(b)
    ensures Correct(a + b) == Correct(a) + Correct(b)
  {
    if b == [] {
      assert a + b == a;
    } else {
      Append(a, b[..|b| - 1]);
      assert (a + b)[..|a + b| - 1] == a + b[..|b| - 1];
    }
  }

  lemma Pull(a: seq<Score>, x: Score, b: seq<Score>)
    ensures Examples(a + [x] + b) == Examples(a + b) + x.examples
    ensures Correct(a + [x] + b) == Correct(a + b) + Times(x.examples, x.accuracy)
  {
    Append(a + [x], b);
    Append(a, [x]);
    Append(a, b);
  }

  lemma RestsAgree<T>(ms: seq<T>, rest: seq<T>, x: T, ns: seq<T>, a: seq<T>, b: seq<T>)
    requires ms == rest + [x] && ns == a + [x] + b && multiset(ms) == multiset(ns)
    ensures multiset(rest) == multiset(a + b)
  {
    assert multiset(rest) == multiset(ms) - multiset{x};
    assert multiset(a + b) == multiset(ns) - multiset{x};
  }

  /** The last element of one list can be taken out of any reordering of it. */
  lemma Extract<T>(ms: seq<T>, ns: seq<T>) returns (a: seq<T>, b: seq<T>)
    requires ms != [] && multiset(ms) == multiset(ns)
    ensures ns == a + [ms[|ms| - 1]] + b
    ensures multiset(ms[..|ms| - 1]) == multiset(a + b)
  {
    var x := ms[|ms| - 1];
    assert x in multiset(ns) by { assert x in ms; }
    var i :| 0 <= i < |ns| && ns[i] == x;
    a, b := ns[..i], ns[i + 1..];
    RestsAgree(ms, ms[..|ms| - 1], x, ns, a, b);
  }

  lemma {:induction false} SumsIgnoreOrder(ms: seq<Score>, ns: seq<Score>)
    requires multiset(ms) == multiset(ns)
    ensures Examples(ms) == Examples(ns) && Correct(ms) == Correct(ns)
    decreases |ms|
  {
    if ms == [] {
      assert |ns| == |multiset(ns)| == 0;
    } else {
      var a, b := Extract(ms, ns);
      Pull(a, ms[|ms| - 1], b);
      SumsIgnoreOrder(ms[..|ms| - 1], a + b);
    }
  }

  /** The order in which clients report does not matter. */
  lemma MeanIgnoresOrder(ms: seq<Score>, ns: seq<Score>)
    requires multiset(ms) == multiset(ns)
    ensures Mean(ms) == Mean(ns)
  {
    SumsIgnoreOrder(ms, ns);
  }

  lemma {:induction false} CorrectWithin(ms: seq<Score>, lo: real, hi: real)
    requires forall i :: 0 <= i < |ms| && ms[i].examples > 0 ==> lo <= ms[i].accuracy <= hi
    ensures Times(Examples(ms), lo) <= Correct(ms) <= Times(Examples(ms), hi)
  {
    if ms == [] {
    } else {
      var rest, x := ms[..|ms| - 1], ms[|ms| - 1];
      CorrectWithin(rest, lo, hi);
      TimesAdds(Examples(rest), x.examples, lo);
      TimesAdds(Examples(rest), x.examples, hi);
      TimesMonotone(x.examples, lo, x.accuracy);
      TimesMonotone(x.examples, x.accuracy, hi);
    }
  }

  /** The average lies between any bounds on the accuracies of clients that saw examples. */
  lemma MeanWithin(ms: seq<Score>, lo: real, hi: real)
    requires Examples(ms) > 0
    requires forall i :: 0 <= i < |ms| && ms[i].examples > 0 ==> lo <= ms[i].accuracy <= hi
    ensures lo <= Mean(ms) <= hi
  {
    CorrectWithin(ms, lo, hi);
    QuotientBetween(Examples(ms), Correct(ms), lo, hi);
  }

  lemma {:induction false} NoExamples(ms: seq<Score>)
    requires Examples(ms) == 0
    ensures Correct(ms) == 0.0
  {
    if ms == [] {
    } else {
      NoExamples(ms[..|ms| - 1]);
    }
  }

  lemma MeanTimesExamples(ms: seq<Score>)
    ensures Times(Examples(ms), Mean(ms)) == Correct(ms)
  {
    if Examples(ms) == 0 {
      NoExamples(ms);
    } else {
      QuotientTimes(Correct(ms), Examples(ms));
    }
  }

  method Aggregate(metrics: seq<Score>) returns (accuracy: real)
    ensures accuracy == Mean(metrics)
    ensures Times(Examples(metrics), accuracy) == Correct(metrics)
    ensures Examples(metrics) == 0 ==> accuracy == 0.0
  {
    var totalExamples: nat, totalAccuracy := 0, 0.0;
    for i := 0 to |metrics|
      invariant totalExamples == Examples(metrics[..i]) && totalAccuracy == Correct(metrics[..i])
    {
      assert metrics[..i + 1][..i] == metrics[..i];
      TimesIsProduct(metrics[i].examples, metrics[i].accuracy);
      totalAccuracy := totalAccuracy + metrics[i].accuracy * metrics[i].examples as real;
      totalExamples := totalExamples + metrics[i].examples;
    }
    assert metrics[..|metrics|] == metrics;
    accuracy := if totalExamples > 0 then totalAccuracy / totalExamples as real else 0.0;
    MeanTimesExamples(metrics);
  }

  /** A group of clients seen as one: its examples and its average. */
  function Group(ms: seq<Score>): Score {
    Score(Examples(ms), Mean(ms))
  }

  lemma GroupSums(ms: seq<Score>)
    ensures Examples([Group(ms)]) == Examples(ms) && Correct([Group(ms)]) == Correct(ms)
  {
    MeanTimesExamples(ms);
  }

  lemma GroupedSums(a: seq<Score>, b: seq<Score>)
    ensures Examples([Group(a)] + [Group(b)]) == Examples(a + b)
    ensures Correct([Group(a)] + [Group(b)]) == Correct(a + b)
  {
    GroupSums(a);
    GroupSums(b);
    Append([Group(a)], [Group(b)]);
    Append(a, b);
  }

  /** Averaging two groups of clients and then the two results, each weighted by the group's
      examples, is averaging all clients at once. */
  lemma MeanOfGroups(a: seq<Score>, b: seq<Score>)
    ensures Mean([Group(a)] + [Group(b)]) == Mean(a + b)
  {
    GroupedSums(a, b);
  }
}
