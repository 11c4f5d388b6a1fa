/** Cardinality facts about finite sets that the solver does not find alone. */
module FiniteSets {

  lemma {:induction false} SubsetSize<T>(a: set<T>, b: set<T>)
    requires a <= b
    ensures |a| <= |b|
    ensures |a| == |b| ==> a == b
    ensures |b - a| == |b| - |a|
  {
    assert b == a + (b - a);
    if a != b {
      var x :| x in b - a;
      assert |b - a| > 0;
    }
  }

  lemma {:induction false} DisjointSize<T>(a: set<T>, b: set<T>, whole: set<T>)
    requires a <= whole && b <= whole && a !! b
    ensures |a| + |b| <= |whole|
  {
    SubsetSize(a + b, whole);
  }
}
