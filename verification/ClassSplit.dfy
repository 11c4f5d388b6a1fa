/** Grouping a labelled data set by class, the first half of the biased partition. */
module ClassSplit {
  import opened Partition

  /** The samples carrying one label, in the order of the data set. */
  function WithLabel<X>(samples: seq<(X, nat)>, cls: nat): seq<(X, nat)> {
    if samples == [] then []
    else WithLabel(samples[..|samples| - 1], cls)
         + if samples[|samples| - 1].1 == cls then [samples[|samples| - 1]] else []
  }

  predicate Distinct(labels: seq<nat>) {
    forall i, j :: 0 <= i < j < |labels| ==> labels[i] != labels[j]
  }

  /** The groups of all labels, one after the other. */
  function Grouped<X>(samples: seq<(X, nat)>, labels: seq<nat>): seq<(X, nat)> {
    if labels == [] then []
    else Grouped(samples, labels[..|labels| - 1]) + WithLabel(samples, labels[|labels| - 1])
  }

  lemma WithLabelSnoc<X>(samples: seq<(X, nat)>, s: (X, nat), cls: nat)
    ensures WithLabel(samples + [s], cls) == WithLabel(samples, cls) + if s.1 == cls then [s] else []
  {
    assert (samples + [s])[..|samples + [s]| - 1] == samples;
  }

  /** The group of a label is in the order of the data set. */
  lemma {:induction false} WithLabelAppend<X>(a: seq<(X, nat)>, b: seq<(X, nat)>, cls: nat)
    ensures WithLabel(a + b, cls) == WithLabel(a, cls) + WithLabel(b, cls)
  {
    if b == [] {
      assert a + b == a;
    } else {
      WithLabelAppend(a, b[..|b| - 1], cls);
      assert a + b == (a + b[..|b| - 1]) + [b[|b| - 1]];
    }
  }

  /** Two groups side by side, when one more element joins the first of them, the second, or neither. */
  lemma Joined<T>(a: seq<T>, b: seq<T>, x: T)
    ensures multiset(a + (b + [x])) == multiset(a + b) + multiset{x}
  {
    assert a + (b + [x]) == a + b + [x];
  }

  lemma JoinedFirst<T>(a: seq<T>, a': seq<T>, b: seq<T>, extra: multiset<T>)
    requires multiset(a') == multiset(a) + extra
    ensures multiset(a' + b) == multiset(a + b) + extra
  {
    assert multiset(a' + b) == multiset(a') + multiset(b);
    assert multiset(a + b) == multiset(a) + multiset(b);
  }

  lemma {:induction false} GroupedWithout<X>(samples: seq<(X, nat)>, s: (X, nat), labels: seq<nat>)
    requires s.1 !in labels
    ensures Grouped(samples + [s], labels) == Grouped(samples, labels)
  {
    if labels == [] {
    } else {
      GroupedWithout(samples, s, labels[..|labels| - 1]);
      WithLabelSnoc(samples, s, labels[|labels| - 1]);
    }
  }

  lemma {:induction false} GroupedSnoc<X>(samples: seq<(X, nat)>, s: (X, nat), labels: seq<nat>)
    requires Distinct(labels) && s.1 in labels
    ensures multiset(Grouped(samples + [s], labels)) == multiset(Grouped(samples, labels)) + multiset{s}
  {
    var init, l := labels[..|labels| - 1], labels[|labels| - 1];
    var g, w := Grouped(samples, init), WithLabel(samples, l);
    WithLabelSnoc(samples, s, l);
    if s.1 == l {
      GroupedWithout(samples, s, init);
      Joined(g, w, s);
    } else {
      assert s.1 in init by { assert labels == init + [l]; }
      GroupedSnoc(samples, s, init);
      JoinedFirst(g, Grouped(samples + [s], init), w, multiset{s});
    }
  }

  lemma SplitLast<T>(ms: seq<T>)
    requires ms != []
    ensures ms == ms[..|ms| - 1] + [ms[|ms| - 1]]
    ensures multiset(ms) == multiset(ms[..|ms| - 1]) + multiset{ms[|ms| - 1]}
  {
    assert ms == ms[..|ms| - 1] + [ms[|ms| - 1]];
  }

  lemma {:induction false} NothingToGroup<X>(labels: seq<nat>)
    ensures Grouped<X>([], labels) == []
  {
    if labels == [] {
    } else {
      NothingToGroup<X>(labels[..|labels| - 1]);
    }
  }

  /** Grouping loses no sample, duplicates none, and keeps each label with its feature. */
  lemma {:induction false} GroupingPermutes<X>(samples: seq<(X, nat)>, labels: seq<nat>)
    requires Distinct(labels) && forall i :: 0 <= i < |samples| ==> samples[i].1 in labels
    ensures multiset(Grouped(samples, labels)) == multiset(samples)
  {
    if samples == [] {
      NothingToGroup<X>(labels);
    } else {
      var init, s := samples[..|samples| - 1], samples[|samples| - 1];
      GroupingPermutes(init, labels);
      assert s.1 in labels;
      GroupedSnoc(init, s, labels);
      SplitLast(samples);
    }
  }

  /** np.where(y == cls) and the two selections by the resulting indices. */
  method SelectClass<X>(xs: seq<X>, ys: seq<nat>, cls: nat) returns (c: ClassData<X, nat>)
    requires |xs| == |ys|
    ensures |c.xs| == |c.ys| && Zip(c.xs, c.ys) == WithLabel(Zip(xs, ys), cls)
    ensures forall i :: 0 <= i < |c.ys| ==> c.ys[i] == cls
    ensures cls in ys ==> |c.xs| > 0
  {
    var cx, cy := [], [];
    var all := Zip(xs, ys);
    for i := 0 to |xs|
      invariant |cx| == |cy| && Zip(cx, cy) == WithLabel(all[..i], cls)
      invariant forall j :: 0 <= j < |cy| ==> cy[j] == cls
      invariant cls in ys[..i] ==> |cx| > 0
    {
      assert all[..i + 1] == all[..i] + [all[i]] && ys[..i + 1] == ys[..i] + [ys[i]];
      WithLabelSnoc(all[..i], all[i], cls);
      if ys[i] == cls {
        ZipAppend(cx, cy, [xs[i]], [ys[i]]);
        cx, cy := cx + [xs[i]], cy + [ys[i]];
      }
    }
    assert all[..|all|] == all && ys[..|ys|] == ys;
    c := ClassData(cx, cy);
  }

  /** One entry per distinct label, as np.unique lists them. */
  method SplitDataByClass<X>(xs: seq<X>, ys: seq<nat>, labels: seq<nat>) returns (classes: seq<ClassData<X, nat>>)
    requires |xs| == |ys| && Distinct(labels) && forall y :: y in ys <==> y in labels
    ensures WellFormed(classes) && |classes| == |labels|
    ensures forall k, i :: 0 <= k < |labels| && 0 <= i < |classes[k].ys| ==> classes[k].ys[i] == labels[k]
    ensures multiset(AllPairs(classes)) == multiset(Zip(xs, ys))
  {
    classes := [];
    for k := 0 to |labels|
      invariant WellFormed(classes) && |classes| == k
      invariant forall j, i :: 0 <= j < k && 0 <= i < |classes[j].ys| ==> classes[j].ys[i] == labels[j]
      invariant AllPairs(classes) == Grouped(Zip(xs, ys), labels[..k])
    {
      var c := SelectClass(xs, ys, labels[k]);
      assert (classes + [c])[..k] == classes && labels[..k + 1][..k] == labels[..k];
      assert AllPairs(classes + [c]) == AllPairs(classes) + Zip(c.xs, c.ys);
      assert Grouped(Zip(xs, ys), labels[..k + 1]) == Grouped(Zip(xs, ys), labels[..k]) + WithLabel(Zip(xs, ys), labels[k]);
      classes := classes + [c];
    }
    assert labels[..|labels|] == labels;
    GroupingPermutes(Zip(xs, ys), labels);
  }
}
