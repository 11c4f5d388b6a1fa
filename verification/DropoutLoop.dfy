/** A loop that pops the element it stands on while it enumerates the list, so that each pop makes
    it step over the next element. `drop` says which elements it means to remove. */
module DropoutLoop {

  /** What the loop keeps and removes when it examines position i of the original list. */
  function KeptFrom<T>(s: seq<T>, drop: T -> bool, i: nat): seq<T>
    decreases |s| - i
  {
    if i >= |s| then []
    else if !drop(s[i]) then [s[i]] + KeptFrom(s, drop, i + 1)
    else if i + 1 < |s| then [s[i + 1]] + KeptFrom(s, drop, i + 2)
    else []
  }

  function RemovedFrom<T>(s: seq<T>, drop: T -> bool, i: nat): seq<T>
    decreases |s| - i
  {
    if i >= |s| then []
    else if !drop(s[i]) then RemovedFrom(s, drop, i + 1)
    else [s[i]] + RemovedFrom(s, drop, i + 2)
  }

  function Tail<T>(s: seq<T>, p: nat): seq<T> {
    if p <= |s| then s[p..] else []
  }

  /** `done` has been passed and position p of the original list is examined next. */
  ghost predicate Reached<T>(s: seq<T>, drop: T -> bool, kept: seq<T>, removed: seq<T>, i: nat, done: seq<T>, p: nat) {
    && kept == done + Tail(s, p)
    && (if p <= |s| then i == |done| else i > |done|)
    && KeptFrom(s, drop, 0) == done + KeptFrom(s, drop, p)
    && RemovedFrom(s, drop, 0) == removed + RemovedFrom(s, drop, p)
  }

  lemma MoveOne<T>(a: seq<T>, x: seq<T>, b: seq<T>)
    ensures a + (x + b) == a + x + b
  {
  }

  lemma TailFront<T>(s: seq<T>, p: nat)
    ensures Tail(s, p) == (if p < |s| then [s[p]] else []) + Tail(s, p + 1)
  {
  }

  lemma TakeOut<T>(kept: seq<T>, done: seq<T>, x: T, rest: seq<T>)
    requires kept == done + ([x] + rest)
    ensures |done| < |kept| && kept[|done|] == x && kept == done + [x] + rest
    ensures kept[..|done|] + kept[|done| + 1..] == done + rest
  {
    assert kept[..|done|] == done && kept[|done| + 1..] == rest;
  }

  lemma TailStep<T>(s: seq<T>, kept: seq<T>, done: seq<T>, p: nat)
    requires kept == done + Tail(s, p) && |done| < |kept|
    ensures p < |s| && kept[|done|] == s[p]
    ensures kept == done + [s[p]] + Tail(s, p + 1)
    ensures kept[..|done|] + kept[|done| + 1..]
      == done + (if p + 1 < |s| then [s[p + 1]] else []) + Tail(s, p + 2)
  {
    TailFront(s, p);
    TailFront(s, p + 1);
    TakeOut(kept, done, s[p], Tail(s, p + 1));
    MoveOne(done, if p + 1 < |s| then [s[p + 1]] else [], Tail(s, p + 2));
  }

  lemma PopStep<T>(s: seq<T>, drop: T -> bool, kept: seq<T>, removed: seq<T>, i: nat, done: seq<T>, p: nat)
    requires Reached(s, drop, kept, removed, i, done, p) && i < |kept| && drop(kept[i])
    ensures p < |s|
    ensures Reached(s, drop, kept[..i] + kept[i + 1..], removed + [kept[i]], i + 1,
                    done + (if p + 1 < |s| then [s[p + 1]] else []), p + 2)
  {
    TailStep(s, kept, done, p);
    var next := if p + 1 < |s| then [s[p + 1]] else [];
    assert KeptFrom(s, drop, p) == next + KeptFrom(s, drop, p + 2);
    assert RemovedFrom(s, drop, p) == [s[p]] + RemovedFrom(s, drop, p + 2);
    MoveOne(done, next, KeptFrom(s, drop, p + 2));
    MoveOne(removed, [s[p]], RemovedFrom(s, drop, p + 2));
  }

  lemma PassStep<T>(s: seq<T>, drop: T -> bool, kept: seq<T>, removed: seq<T>, i: nat, done: seq<T>, p: nat)
    requires Reached(s, drop, kept, removed, i, done, p) && i < |kept| && !drop(kept[i])
    ensures p < |s| && Reached(s, drop, kept, removed, i + 1, done + [kept[i]], p + 1)
  {
    TailStep(s, kept, done, p);
    MoveOne(done, [s[p]], KeptFrom(s, drop, p + 1));
  }

  lemma LoopEnd<T>(s: seq<T>, drop: T -> bool, kept: seq<T>, removed: seq<T>, i: nat, done: seq<T>, p: nat)
    requires Reached(s, drop, kept, removed, i, done, p) && i >= |kept|
    ensures kept == KeptFrom(s, drop, 0) && removed == RemovedFrom(s, drop, 0)
  {
  }

  /** The loop itself: `kept` shrinks under the enumeration, whose index always moves on. */
  method PopWhileEnumerating<T>(s: seq<T>, drop: T -> bool) returns (kept: seq<T>, removed: seq<T>)
    ensures kept == KeptFrom(s, drop, 0) && removed == RemovedFrom(s, drop, 0)
  {
    kept, removed := s, [];
    var i: nat := 0;
    ghost var done: seq<T>, p: nat := [], 0;
    while i < |kept|
      invariant Reached(s, drop, kept, removed, i, done, p)
      decreases |s| - p
    {
      if drop(kept[i]) {
        PopStep(s, drop, kept, removed, i, done, p);
        removed := removed + [kept[i]];
        kept := kept[..i] + kept[i + 1..];
        done, p := done + (if p + 1 < |s| then [s[p + 1]] else []), p + 2;
      } else {
        PassStep(s, drop, kept, removed, i, done, p);
        done, p := done + [kept[i]], p + 1;
      }
      i := i + 1;
    }
    LoopEnd(s, drop, kept, removed, i, done, p);
  }

  /** Only the elements of the list matter to what the loop does. */
  lemma {:induction false} SameDrops<T>(s: seq<T>, drop: T -> bool, drop': T -> bool, i: nat)
    requires forall x <- s :: drop(x) == drop'(x)
    ensures KeptFrom(s, drop, i) == KeptFrom(s, drop', i)
    ensures RemovedFrom(s, drop, i) == RemovedFrom(s, drop', i)
    decreases |s| - i
  {
    if i >= |s| {
    } else {
      SameDrops(s, drop, drop', i + 1);
      SameDrops(s, drop, drop', i + 2);
    }
  }

  /** The number of adjacent dropouts just before position i. */
  function RunBefore<T>(s: seq<T>, drop: T -> bool, i: nat): nat
    requires i <= |s|
  {
    if i == 0 || !drop(s[i - 1]) then 0 else 1 + RunBefore(s, drop, i - 1)
  }

  /** Position i is a dropout at an even offset of its run. */
  predicate Hit<T>(s: seq<T>, drop: T -> bool, i: nat)
    requires i < |s|
  {
    drop(s[i]) && RunBefore(s, drop, i) % 2 == 0
  }

  /** Of two neighbouring dropouts exactly one is at an even offset. */
  lemma HitsAlternate<T>(s: seq<T>, drop: T -> bool, i: nat)
    requires i + 1 < |s| && drop(s[i]) && drop(s[i + 1])
    ensures Hit(s, drop, i) <==> !Hit(s, drop, i + 1)
  {
    assert RunBefore(s, drop, i + 1) == 1 + RunBefore(s, drop, i);
  }

  /** The elements from position i on whose hit status is `want`, in their order. */
  function Select<T>(s: seq<T>, drop: T -> bool, want: bool, i: nat): seq<T>
    decreases |s| - i
  {
    if i >= |s| then []
    else (if Hit(s, drop, i) == want then [s[i]] else []) + Select(s, drop, want, i + 1)
  }

  function Filter<T>(s: seq<T>, drop: T -> bool): seq<T> {
    if s == [] then [] else (if drop(s[0]) then [] else [s[0]]) + Filter(s[1..], drop)
  }

  /** Exactly the dropouts at even offsets of their runs are removed; the others are kept in order. */
  lemma {:induction false} LoopRemovesEvenOffsets<T>(s: seq<T>, drop: T -> bool, i: nat)
    requires i <= |s| ==> RunBefore(s, drop, i) % 2 == 0
    ensures KeptFrom(s, drop, i) == Select(s, drop, false, i)
    ensures RemovedFrom(s, drop, i) == Select(s, drop, true, i)
    decreases |s| - i
  {
    if i >= |s| {
    } else {
      if !drop(s[i]) {
        LoopRemovesEvenOffsets(s, drop, i + 1);
      } else if i + 1 < |s| {
        assert RunBefore(s, drop, i + 1) == 1 + RunBefore(s, drop, i);
        assert Hit(s, drop, i) && !Hit(s, drop, i + 1);
        LoopRemovesEvenOffsets(s, drop, i + 2);
        assert Select(s, drop, false, i) == Select(s, drop, false, i + 1);
        assert Select(s, drop, false, i + 1) == [s[i + 1]] + Select(s, drop, false, i + 2);
        assert Select(s, drop, true, i) == [s[i]] + Select(s, drop, true, i + 1);
        assert Select(s, drop, true, i + 1) == Select(s, drop, true, i + 2);
      }
    }
  }

  lemma PutInFront<T>(x: T, a: seq<T>, b: seq<T>, rest: seq<T>)
    requires multiset(a) + multiset(b) == multiset(rest)
    ensures multiset([x] + a) + multiset(b) == multiset([x] + rest)
    ensures multiset(a) + multiset([x] + b) == multiset([x] + rest)
  {
    assert multiset([x] + a) == multiset{x} + multiset(a);
    assert multiset([x] + b) == multiset{x} + multiset(b);
    assert multiset([x] + rest) == multiset{x} + multiset(rest);
  }

  lemma SelectHere<T>(s: seq<T>, drop: T -> bool, i: nat)
    requires i < |s|
    ensures var a, b := Select(s, drop, false, i + 1), Select(s, drop, true, i + 1);
      if Hit(s, drop, i) then Select(s, drop, false, i) == a && Select(s, drop, true, i) == [s[i]] + b
      else Select(s, drop, false, i) == [s[i]] + a && Select(s, drop, true, i) == b
  {
  }

  lemma {:induction false} SelectConserves<T>(s: seq<T>, drop: T -> bool, i: nat, rest: seq<T>)
    requires i <= |s| && rest == s[i..]
    ensures multiset(Select(s, drop, false, i)) + multiset(Select(s, drop, true, i)) == multiset(rest)
    decreases |s| - i
  {
    if i == |s| {
    } else {
      var after := s[i + 1..];
      assert rest == [s[i]] + after;
      SelectConserves(s, drop, i + 1, after);
      SelectHere(s, drop, i);
      PutInFront(s[i], Select(s, drop, false, i + 1), Select(s, drop, true, i + 1), after);
    }
  }

  lemma {:induction false} HitsDrop<T>(s: seq<T>, drop: T -> bool, i: nat)
    ensures forall x <- Select(s, drop, true, i) :: drop(x)
    decreases |s| - i
  {
    if i >= |s| {
    } else {
      HitsDrop(s, drop, i + 1);
    }
  }

  /** No client is lost or made up, and only dropouts are removed. */
  lemma LoopConserves<T>(s: seq<T>, drop: T -> bool)
    ensures multiset(KeptFrom(s, drop, 0)) + multiset(RemovedFrom(s, drop, 0)) == multiset(s)
    ensures forall x <- RemovedFrom(s, drop, 0) :: drop(x)
  {
    LoopRemovesEvenOffsets(s, drop, 0);
    assert s[0..] == s;
    SelectConserves(s, drop, 0, s);
    HitsDrop(s, drop, 0);
  }

  function Hits<T>(s: seq<T>, drop: T -> bool, a: nat, b: nat): nat
    requires a <= b <= |s|
  {
    if a == b then 0 else Hits(s, drop, a, b - 1) + if Hit(s, drop, b - 1) then 1 else 0
  }

  /** Of k adjacent dropouts, counted from the start of their run, ceil(k / 2) are removed. */
  lemma {:induction false} RunsLoseHalf<T>(s: seq<T>, drop: T -> bool, a: nat, b: nat)
    requires a <= b <= |s| && forall i :: a <= i < b ==> drop(s[i])
    requires a == 0 || !drop(s[a - 1])
    ensures RunBefore(s, drop, b) == b - a
    ensures Hits(s, drop, a, b) == (b - a + 1) / 2
  {
    if a == b {
    } else {
      RunsLoseHalf(s, drop, a, b - 1);
    }
  }

  ghost predicate NoTwoAdjacent<T>(s: seq<T>, drop: T -> bool) {
    forall i :: 0 <= i && i + 1 < |s| && drop(s[i]) ==> !drop(s[i + 1])
  }

  lemma {:induction false} FilterFrom<T>(s: seq<T>, drop: T -> bool, i: nat)
    requires i <= |s| && NoTwoAdjacent(s, drop)
    ensures Select(s, drop, false, i) == Filter(s[i..], drop)
    decreases |s| - i
  {
    if i >= |s| {
    } else {
      FilterFrom(s, drop, i + 1);
      assert s[i..][1..] == s[i + 1..];
    }
  }

  lemma {:induction false} FilterIsClean<T>(s: seq<T>, drop: T -> bool)
    ensures forall x <- Filter(s, drop) :: !drop(x)
  {
    if s == [] {
    } else {
      FilterIsClean(s[1..], drop);
    }
  }

  lemma {:induction false} SelectedAt<T>(s: seq<T>, drop: T -> bool, want: bool, i: nat, j: nat)
    requires i <= j < |s| && Hit(s, drop, j) == want
    ensures s[j] in Select(s, drop, want, i)
    decreases j - i
  {
    SelectHere(s, drop, i);
    if i == j {
      assert Select(s, drop, want, i)[0] == s[i];
    } else {
      SelectedAt(s, drop, want, i + 1, j);
    }
  }

  lemma {:induction false} SelectedFrom<T>(s: seq<T>, drop: T -> bool, want: bool, i: nat, x: T) returns (j: nat)
    requires x in Select(s, drop, want, i)
    ensures i <= j < |s| && s[j] == x && Hit(s, drop, j) == want
    decreases |s| - i
  {
    if Hit(s, drop, i) == want && s[i] == x {
      j := i;
    } else {
      j := SelectedFrom(s, drop, want, i + 1, x);
    }
  }

  /** The loop does what was meant exactly when no two dropouts stand next to each other. */
  lemma LoopIsFilterIff<T>(s: seq<T>, drop: T -> bool)
    ensures KeptFrom(s, drop, 0) == Filter(s, drop) <==> NoTwoAdjacent(s, drop)
  {
    LoopRemovesEvenOffsets(s, drop, 0);
    if NoTwoAdjacent(s, drop) {
      FilterFrom(s, drop, 0);
      assert s[0..] == s;
    } else {
      var i :| 0 <= i && i + 1 < |s| && drop(s[i]) && drop(s[i + 1]);
      FilterIsClean(s, drop);
      HitsAlternate(s, drop, i);
      if Hit(s, drop, i) {
        SelectedAt(s, drop, false, 0, i + 1);
      } else {
        SelectedAt(s, drop, false, 0, i);
      }
    }
  }

  /** Two adjacent dropouts: the second one stays. */
  lemma SecondOfTwoStays()
    ensures KeptFrom([1, 2, 3], (c: int) => c < 3, 0) == [2, 3] && Filter([1, 2, 3], (c: int) => c < 3) == [3]
  {
    var s, drop := [1, 2, 3], (c: int) => c < 3;
    assert KeptFrom(s, drop, 2) == [3];
    assert s[1..] == [2, 3] && [2, 3][1..] == [3];
  }
}
