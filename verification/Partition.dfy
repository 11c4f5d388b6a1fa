/** Splitting a data set over clients: evenly, or with a chosen share of each class. */
module Partition {
  import opened Sums

  // ------------------------------------------------------- even partition

  lemma PartsFit(total: nat, parts: nat)
    requires parts > 0
    ensures Multiple(parts, total / parts) + total % parts == total && total % parts < parts
  {
    MultipleIsProduct(parts, total / parts);
  }

  /** Where the slice of one client begins and ends; the last one takes all that is left. */
  function SliceStart(size: nat, index: nat): nat {
    Multiple(index, size)
  }

  function SliceEnd(total: nat, size: nat, parts: nat, index: nat): nat {
    if index < parts - 1 then SliceStart(size, index) + size else total
  }

  predicate SizeFits(total: nat, size: nat, parts: nat) {
    parts > 0 && Multiple(parts, size) <= total
  }

  lemma BoundsFit(total: nat, size: nat, parts: nat, index: nat)
    requires SizeFits(total, size, parts) && index < parts
    ensures SliceStart(size, index) <= SliceEnd(total, size, parts, index) <= total
  {
    MultipleGrows(index, parts, size);
    MultipleGrows(index + 1, parts, size);
  }

  function Slice<X, Y>(xs: seq<X>, ys: seq<Y>, size: nat, parts: nat, index: nat): (r: (seq<X>, seq<Y>))
    requires index < parts && |xs| == |ys| && SizeFits(|xs|, size, parts)
    ensures |r.0| == |r.1| == SliceEnd(|xs|, size, parts, index) - SliceStart(size, index)
  {
    BoundsFit(|xs|, size, parts, index);
    var start, end := SliceStart(size, index), SliceEnd(|xs|, size, parts, index);
    (xs[start..end], ys[start..end])
  }

  function PartitionData<X, Y>(xs: seq<X>, ys: seq<Y>, parts: nat, index: nat): (r: (seq<X>, seq<Y>))
    requires index < parts && |xs| == |ys|
    ensures |r.0| == |r.1|
  {
    PartsFit(|xs|, parts);
    Slice(xs, ys, |xs| / parts, parts, index)
  }

  /** What the clients 0 .. k - 1 get, put together. */
  function FirstSlices<X, Y>(xs: seq<X>, ys: seq<Y>, parts: nat, k: nat): (seq<X>, seq<Y>)
    requires k <= parts && |xs| == |ys|
  {
    if k == 0 then ([], [])
    else
      var (a, b) := FirstSlices(xs, ys, parts, k - 1);
      var (c, d) := PartitionData(xs, ys, parts, k - 1);
      (a + c, b + d)
  }

  lemma NextSlice<X, Y>(xs: seq<X>, ys: seq<Y>, parts: nat, size: nat, k: nat)
    requires k + 1 < parts && |xs| == |ys| && size == |xs| / parts && SizeFits(|xs|, size, parts)
    ensures Multiple(k, size) <= Multiple(k + 1, size) <= |xs|
    ensures var (c, d) := PartitionData(xs, ys, parts, k);
      && xs[..Multiple(k, size)] + c == xs[..Multiple(k + 1, size)]
      && ys[..Multiple(k, size)] + d == ys[..Multiple(k + 1, size)]
  {
    MultipleGrows(k + 1, parts, size);
    var m, n := Multiple(k, size), Multiple(k + 1, size);
    assert n == m + size;
    assert PartitionData(xs, ys, parts, k) == (xs[m..n], ys[m..n]);
  }

  lemma {:induction false} SlicesSoFar<X, Y>(xs: seq<X>, ys: seq<Y>, parts: nat, size: nat, k: nat)
    requires k < parts && |xs| == |ys| && size == |xs| / parts && SizeFits(|xs|, size, parts)
    ensures Multiple(k, size) <= |xs|
    ensures FirstSlices(xs, ys, parts, k) == (xs[..Multiple(k, size)], ys[..Multiple(k, size)])
  {
    MultipleGrows(k, parts, size);
    if k == 0 {
    } else {
      SlicesSoFar(xs, ys, parts, size, k - 1);
      NextSlice(xs, ys, parts, size, k - 1);
    }
  }

  lemma SliceSizes<X, Y>(xs: seq<X>, ys: seq<Y>, parts: nat, size: nat, i: nat)
    requires i < parts && |xs| == |ys| && Multiple(parts, size) <= |xs| < Multiple(parts, size) + parts
    ensures i < parts - 1 ==> |Slice(xs, ys, size, parts, i).0| == size
    ensures i == parts - 1 ==> size <= |Slice(xs, ys, size, parts, i).0| < size + parts
  {
  }

  lemma LastSlice<X, Y>(xs: seq<X>, ys: seq<Y>, parts: nat, size: nat)
    requires parts > 0 && |xs| == |ys| && size == |xs| / parts && SizeFits(|xs|, size, parts)
    ensures Multiple(parts - 1, size) <= |xs|
    ensures PartitionData(xs, ys, parts, parts - 1) == (xs[Multiple(parts - 1, size)..], ys[Multiple(parts - 1, size)..])
  {
    MultipleGrows(parts - 1, parts, size);
    var m := Multiple(parts - 1, size);
    assert xs[m..|xs|] == xs[m..] && ys[m..|ys|] == ys[m..];
  }

  lemma JoinLast<X, Y>(xs: seq<X>, ys: seq<Y>, parts: nat, m: nat)
    requires parts > 0 && |xs| == |ys| && m <= |xs|
    requires FirstSlices(xs, ys, parts, parts - 1) == (xs[..m], ys[..m])
    requires PartitionData(xs, ys, parts, parts - 1) == (xs[m..], ys[m..])
    ensures FirstSlices(xs, ys, parts, parts) == (xs, ys)
  {
    assert xs[..m] + xs[m..] == xs && ys[..m] + ys[m..] == ys;
  }

  lemma SlicesTile<X, Y>(xs: seq<X>, ys: seq<Y>, parts: nat, size: nat)
    requires parts > 0 && |xs| == |ys| && size == |xs| / parts && SizeFits(|xs|, size, parts)
    ensures FirstSlices(xs, ys, parts, parts) == (xs, ys)
  {
    SlicesSoFar(xs, ys, parts, size, parts - 1);
    LastSlice(xs, ys, parts, size);
    JoinLast(xs, ys, parts, Multiple(parts - 1, size));
  }

  /** The slices tile the data set: taken in order they are the whole of it, features and labels alike;
      all but the last have the same size, and the last has fewer than `parts` samples more. */
  lemma EvenSlicesTile<X, Y>(xs: seq<X>, ys: seq<Y>, parts: nat)
    requires parts > 0 && |xs| == |ys|
    ensures FirstSlices(xs, ys, parts, parts) == (xs, ys)
    ensures forall i :: 0 <= i < parts - 1 ==> |PartitionData(xs, ys, parts, i).0| == |xs| / parts
    ensures |xs| / parts <= |PartitionData(xs, ys, parts, parts - 1).0| < |xs| / parts + parts
  {
    var size := |xs| / parts;
    PartsFit(|xs|, parts);
    SlicesTile(xs, ys, parts, size);
    forall i: nat | i < parts
      ensures i < parts - 1 ==> |PartitionData(xs, ys, parts, i).0| == size
      ensures i == parts - 1 ==> size <= |PartitionData(xs, ys, parts, i).0| < size + parts
    {
      SliceSizes(xs, ys, parts, size, i);
    }
  }

  // ------------------------------------------------------ biased partition

  datatype ClassData<X, Y> = ClassData(xs: seq<X>, ys: seq<Y>)

  predicate WellFormed<X, Y>(classes: seq<ClassData<X, Y>>) {
    forall i :: 0 <= i < |classes| ==> |classes[i].xs| == |classes[i].ys| && |classes[i].xs| > 0
  }

  function Zip<X, Y>(xs: seq<X>, ys: seq<Y>): (r: seq<(X, Y)>)
    requires |xs| == |ys|
    ensures |r| == |xs|
  {
    seq(|xs|, i requires 0 <= i < |xs| => (xs[i], ys[i]))
  }

  /** a % n, by repeated subtraction. */
  function Mod(a: nat, n: nat): (r: nat)
    requires n > 0
    ensures r < n
  {
    if a < n then a else Mod(a - n, n)
  }

  lemma Above(q: int, q': int, n: nat)
    requires q > q'
    ensures q * n >= q' * n + n
  {
    assert q * n == q' * n + n + (q - q' - 1) * n;
  }

  lemma SameRemainder(n: nat, q: int, r: nat, q': int, r': nat)
    requires r < n && r' < n && q * n + r == q' * n + r'
    ensures r == r'
  {
    if q > q' {
      Above(q, q', n);
    } else if q < q' {
      Above(q', q, n);
    }
  }

  lemma {:induction false} ModIsRemainder(a: nat, n: nat)
    requires n > 0
    ensures Mod(a, n) == a % n
  {
    if a >= n {
      ModIsRemainder(a - n, n);
      SameRemainder(n, (a - n) / n + 1, (a - n) % n, a / n, a % n);
    }
  }

  /** The samples taken from one class, wrapping round at its end at most once. */
  function Window<T>(data: seq<T>, start: nat, count: nat): seq<T>
    requires start < |data|
  {
    var end := start + count;
    if end <= |data| then data[start..end] else data[start..] + data[..Mod(end, |data|)]
  }

  /** A window is as long as requested exactly when the request does not run twice past the end of
      the class; otherwise it is shorter, never longer. */
  lemma WindowLength<T>(data: seq<T>, start: nat, count: nat)
    requires start < |data|
    ensures |Window(data, start, count)| <= count
    ensures |Window(data, start, count)| == count <==> start + count < 2 * |data|
    ensures start + count >= |data| ==> |Window(data, start, count)| == |data| - start + Mod(start + count, |data|)
  {
    var end, n := start + count, |data|;
    if n <= end {
      assert Mod(end, n) == Mod(end - n, n);
    }
  }

  /** A request for twice the class gets the class only once. */
  lemma LongRequestFallsShort<T>(data: seq<T>)
    requires data != []
    ensures Window(data, 0, 2 * |data|) == data
  {
    assert Mod(2 * |data|, |data|) == Mod(|data|, |data|) == 0;
    assert data[0..] + data[..0] == data;
  }

  /** Adding a multiple of n, or taking the remainder before adding, does not change the remainder. */
  lemma {:induction false} RemainderFirst(a: nat, j: nat, n: nat)
    requires n > 0
    ensures Mod(Mod(a, n) + j, n) == Mod(a + j, n)
  {
    if a >= n {
      RemainderFirst(a - n, j, n);
      assert Mod(a + j, n) == Mod(a + j - n, n);
    }
  }

  lemma OnceRound(i: nat, n: nat)
    requires n > 0
    ensures i < n ==> Mod(i, n) == i
    ensures n <= i < 2 * n ==> Mod(i, n) == i - n
  {
    if n <= i < 2 * n {
      assert Mod(i, n) == Mod(i - n, n);
    }
  }

  lemma WrappedAt<T>(data: seq<T>, start: nat, rest: nat, j: nat)
    requires start < |data| && rest <= |data| && j < |data| - start + rest
    ensures (data[start..] + data[..rest])[j] == data[Mod(start + j, |data|)]
  {
    OnceRound(start + j, |data|);
  }

  /** Whatever the request, the window is a circular stretch from `start`. */
  lemma WindowIsCircular<T>(data: seq<T>, start: nat, count: nat, j: nat)
    requires start < |data| && j < |Window(data, start, count)|
    ensures Window(data, start, count)[j] == data[Mod(start + j, |data|)]
  {
    if start + count <= |data| {
      OnceRound(start + j, |data|);
    } else {
      WrappedAt(data, start, Mod(start + count, |data|), j);
    }
  }

  lemma ZipAppend<X, Y>(xs: seq<X>, ys: seq<Y>, us: seq<X>, vs: seq<Y>)
    requires |xs| == |ys| && |us| == |vs|
    ensures Zip(xs + us, ys + vs) == Zip(xs, ys) + Zip(us, vs)
  {
  }

  lemma ZipSlice<X, Y>(xs: seq<X>, ys: seq<Y>, i: nat, j: nat)
    requires |xs| == |ys| && i <= j <= |xs|
    ensures Zip(xs[i..j], ys[i..j]) == Zip(xs, ys)[i..j]
  {
  }

  lemma ZipWrap<X, Y>(xs: seq<X>, ys: seq<Y>, start: nat, end: nat)
    requires |xs| == |ys| && start <= |xs| && end <= |xs|
    ensures Zip(xs[start..] + xs[..end], ys[start..] + ys[..end]) == Zip(xs, ys)[start..] + Zip(xs, ys)[..end]
  {
    ZipSlice(xs, ys, start, |xs|);
    ZipSlice(xs, ys, 0, end);
    ZipAppend(xs[start..], ys[start..], xs[..end], ys[..end]);
  }

  lemma ZipWindow<X, Y>(xs: seq<X>, ys: seq<Y>, start: nat, count: nat)
    requires |xs| == |ys| && start < |xs|
    ensures |Window(xs, start, count)| == |Window(ys, start, count)|
    ensures Zip(Window(xs, start, count), Window(ys, start, count)) == Window(Zip(xs, ys), start, count)
  {
    var end, zipped := start + count, Zip(xs, ys);
    assert |zipped| == |xs|;
    if end <= |xs| {
      ZipSlice(xs, ys, start, end);
    } else {
      var rest := Mod(end, |xs|);
      ZipWrap(xs, ys, start, rest);
      assert Window(zipped, start, count) == zipped[start..] + zipped[..rest];
    }
  }

  function TotalSize<X, Y>(classes: seq<ClassData<X, Y>>): nat {
    if classes == [] then 0 else TotalSize(classes[..|classes| - 1]) + |classes[|classes| - 1].xs|
  }

  predicate Shares(ps: seq<real>) {
    (forall i :: 0 <= i < |ps| ==> ps[i] >= 0.0) && Sum(ps) <= 1.0
  }

  /** How often size * p holds a whole one. */
  predicate WholePart(count: nat, size: nat, p: real) {
    count as real <= size as real * p < count as real + 1.0
  }

  /** int() of size * share: how many samples of a class are asked for. */
  function Request(size: nat, p: real): (r: nat)
    requires p >= 0.0
    ensures WholePart(r, size, p)
  {
    (size as real * p).Floor
  }

  function Requests(ps: seq<real>, size: nat): (r: seq<nat>)
    requires forall i :: 0 <= i < |ps| ==> ps[i] >= 0.0
    ensures |r| == |ps|
  {
    if ps == [] then []
    else Requests(ps[..|ps| - 1], size) + [Request(size, ps[|ps| - 1])]
  }

  /** Of each class as many samples are asked for as its share of the size has whole ones. */
  predicate AsksFor(counts: seq<nat>, ps: seq<real>, size: nat) {
    |counts| == |ps| && forall i :: 0 <= i < |ps| ==> WholePart(counts[i], size, ps[i])
  }

  lemma {:induction false} RequestsAt(ps: seq<real>, size: nat, i: nat)
    requires (forall k :: 0 <= k < |ps| ==> ps[k] >= 0.0) && i < |ps|
    ensures Requests(ps, size)[i] == Request(size, ps[i])
  {
    if i < |ps| - 1 {
      RequestsAt(ps[..|ps| - 1], size, i);
    }
  }

  lemma OneWholePart(count: nat, count': nat, size: nat, p: real)
    requires WholePart(count, size, p) && WholePart(count', size, p)
    ensures count == count'
  {
  }

  /** The requests are the only such counts. */
  lemma AsksForIff(counts: seq<nat>, ps: seq<real>, size: nat)
    requires forall i :: 0 <= i < |ps| ==> ps[i] >= 0.0
    ensures AsksFor(counts, ps, size) <==> counts == Requests(ps, size)
  {
    var asked := Requests(ps, size);
    forall i | 0 <= i < |ps| ensures WholePart(asked[i], size, ps[i]) {
      RequestsAt(ps, size, i);
    }
    if AsksFor(counts, ps, size) {
      forall i | 0 <= i < |ps| ensures counts[i] == asked[i] {
        OneWholePart(counts[i], asked[i], size, ps[i]);
      }
    }
  }

  function SumOfCounts(counts: seq<nat>): nat {
    if counts == [] then 0 else SumOfCounts(counts[..|counts| - 1]) + counts[|counts| - 1]
  }

  function SumScaled(ps: seq<real>, size: real): real {
    if ps == [] then 0.0 else SumScaled(ps[..|ps| - 1], size) + size * ps[|ps| - 1]
  }

  lemma {:induction false} ScaledIsProduct(ps: seq<real>, size: real)
    ensures SumScaled(ps, size) == size * Sum(ps)
  {
    if ps == [] {
    } else {
      ScaledIsProduct(ps[..|ps| - 1], size);
      assert size * (Sum(ps[..|ps| - 1]) + ps[|ps| - 1])
          == size * Sum(ps[..|ps| - 1]) + size * ps[|ps| - 1];
    }
  }

  lemma {:induction false} RequestsFit(ps: seq<real>, size: nat)
    requires forall i :: 0 <= i < |ps| ==> ps[i] >= 0.0
    ensures SumOfCounts(Requests(ps, size)) as real <= SumScaled(ps, size as real)
  {
    if ps == [] {
    } else {
      var rest, p := ps[..|ps| - 1], ps[|ps| - 1];
      RequestsFit(rest, size);
      var counts := Requests(ps, size);
      assert counts[..|counts| - 1] == Requests(rest, size);
    }
  }

  /** The (feature, label) pairs chosen by share: the window of each class in turn. */
  function Chosen<X, Y>(classes: seq<ClassData<X, Y>>, counts: seq<nat>, offset: nat): seq<(X, Y)>
    requires WellFormed(classes) && |counts| == |classes|
  {
    if classes == [] then []
    else
      var n := |classes| - 1;
      var c := classes[n];
      Chosen(classes[..n], counts[..n], offset) + Window(Zip(c.xs, c.ys), Mod(offset, |c.xs|), counts[n])
  }

  lemma {:induction false} ChosenFits<X, Y>(classes: seq<ClassData<X, Y>>, counts: seq<nat>, offset: nat)
    requires WellFormed(classes) && |counts| == |classes|
    ensures |Chosen(classes, counts, offset)| <= SumOfCounts(counts)
  {
    if classes == [] {
    } else {
      var n := |classes| - 1;
      var c := classes[n];
      ChosenFits(classes[..n], counts[..n], offset);
      WindowLength(Zip(c.xs, c.ys), Mod(offset, |c.xs|), counts[n]);
    }
  }

  lemma ChosenNext<X, Y>(classes: seq<ClassData<X, Y>>, counts: seq<nat>, offset: nat, k: nat)
    requires WellFormed(classes) && |counts| == |classes| && k < |classes|
    ensures var c := classes[k];
      Chosen(classes[..k + 1], counts[..k + 1], offset)
        == Chosen(classes[..k], counts[..k], offset) + Window(Zip(c.xs, c.ys), Mod(offset, |c.xs|), counts[k])
  {
    assert classes[..k + 1][..k] == classes[..k] && counts[..k + 1][..k] == counts[..k];
  }

  lemma PrefixOfMore<T>(a: seq<T>, b: seq<T>, more: seq<T>)
    requires a <= b
    ensures a <= b + more
  {
  }

  lemma {:induction false} ChosenPrefix<X, Y>(classes: seq<ClassData<X, Y>>, counts: seq<nat>, offset: nat, k: nat)
    requires WellFormed(classes) && |counts| == |classes| && k <= |classes|
    ensures Chosen(classes[..k], counts[..k], offset) <= Chosen(classes, counts, offset)
    decreases |classes|
  {
    var n := |classes| - 1;
    if k == |classes| {
      assert classes[..k] == classes && counts[..k] == counts;
    } else {
      var init := Chosen(classes[..n], counts[..n], offset);
      ChosenPrefix(classes[..n], counts[..n], offset, k);
      assert classes[..n][..k] == classes[..k] && counts[..n][..k] == counts[..k];
      PrefixOfMore(Chosen(classes[..k], counts[..k], offset), init,
                   Window(Zip(classes[n].xs, classes[n].ys), Mod(offset, |classes[n].xs|), counts[n]));
    }
  }

  lemma WindowOfPairs<X, Y>(c: ClassData<X, Y>, offset: nat, count: nat, j: nat)
    requires |c.xs| == |c.ys| && |c.xs| > 0
    ensures var w := Window(Zip(c.xs, c.ys), Mod(offset, |c.xs|), count);
      j < |w| ==> w[j] == (c.xs[Mod(offset + j, |c.xs|)], c.ys[Mod(offset + j, |c.xs|)])
  {
    var n, pairs := |c.xs|, Zip(c.xs, c.ys);
    var start := Mod(offset, n);
    if j < |Window(pairs, start, count)| {
      WindowIsCircular(pairs, start, count, j);
      RemainderFirst(offset, j, n);
    }
  }

  lemma ChosenPart<X, Y>(all: seq<(X, Y)>, before: seq<(X, Y)>, w: seq<(X, Y)>, i: nat)
    requires before + w <= all && |before| <= i < |before| + |w|
    ensures all[i] == w[i - |before|]
  {
    assert all[i] == (before + w)[i];
  }

  /** From lo to hi the pairs are those of a walk round the class that starts at `offset`. */
  ghost predicate Walks<X, Y>(all: seq<(X, Y)>, lo: nat, hi: nat, c: ClassData<X, Y>, offset: nat)
    requires |c.xs| == |c.ys| && |c.xs| > 0 && hi <= |all|
  {
    forall i :: lo <= i < hi ==>
      all[i] == (c.xs[Mod(offset + i - lo, |c.xs|)], c.ys[Mod(offset + i - lo, |c.xs|)])
  }

  lemma WindowWalks<X, Y>(all: seq<(X, Y)>, before: seq<(X, Y)>, w: seq<(X, Y)>, c: ClassData<X, Y>,
                          offset: nat, count: nat)
    requires |c.xs| == |c.ys| && |c.xs| > 0 && before + w <= all
    requires w == Window(Zip(c.xs, c.ys), Mod(offset, |c.xs|), count)
    ensures Walks(all, |before|, |before| + |w|, c, offset)
  {
    forall i | |before| <= i < |before| + |w|
      ensures all[i] == (c.xs[Mod(offset + i - |before|, |c.xs|)], c.ys[Mod(offset + i - |before|, |c.xs|)])
    {
      ChosenPart(all, before, w, i);
      WindowOfPairs(c, offset, count, i - |before|);
    }
  }

  /** Where the samples of class k stand among the chosen ones: as many as were asked for, unless they run
      twice past the end of the class, and each a feature with its own label. */
  lemma ChosenIsCircular<X, Y>(classes: seq<ClassData<X, Y>>, counts: seq<nat>, offset: nat, k: nat)
    requires WellFormed(classes) && |counts| == |classes| && k < |classes|
    ensures
      var c, all := classes[k], Chosen(classes, counts, offset);
      var lo := |Chosen(classes[..k], counts[..k], offset)|;
      var hi := |Chosen(classes[..k + 1], counts[..k + 1], offset)|;
      && lo <= hi <= |all| && Walks(all, lo, hi, c, offset)
      && (Mod(offset, |c.xs|) + counts[k] < 2 * |c.xs| ==> hi - lo == counts[k])
  {
    var c := classes[k];
    var start := Mod(offset, |c.xs|);
    var before, w := Chosen(classes[..k], counts[..k], offset), Window(Zip(c.xs, c.ys), start, counts[k]);
    ChosenPrefix(classes, counts, offset, k + 1);
    ChosenNext(classes, counts, offset, k);
    WindowLength(Zip(c.xs, c.ys), start, counts[k]);
    WindowWalks(Chosen(classes, counts, offset), before, w, c, offset, counts[k]);
  }

  lemma ShareAtMostWhole(size: real, share: real, scaled: real)
    requires size >= 0.0 && share <= 1.0 && scaled == size * share
    ensures scaled <= size
  {
    assert size * (1.0 - share) >= 0.0;
    assert size * (1.0 - share) == size - scaled;
  }

  lemma ScaledAtMost(ps: seq<real>, size: real)
    requires Shares(ps) && size >= 0.0
    ensures SumScaled(ps, size) <= size
  {
    ScaledIsProduct(ps, size);
    ShareAtMostWhole(size, Sum(ps), SumScaled(ps, size));
  }

  lemma AtMostSize(ps: seq<real>, size: nat)
    requires Shares(ps)
    ensures SumOfCounts(Requests(ps, size)) <= size
  {
    RequestsFit(ps, size);
    ScaledAtMost(ps, size as real);
  }

  /** The shortfall is never negative. */
  lemma ShortfallNonNegative<X, Y>(classes: seq<ClassData<X, Y>>, ps: seq<real>, size: nat, offset: nat)
    requires WellFormed(classes) && |ps| == |classes| && Shares(ps)
    ensures |Chosen(classes, Requests(ps, size), offset)| <= size
  {
    ChosenFits(classes, Requests(ps, size), offset);
    AtMostSize(ps, size);
  }

  function AllPairs<X, Y>(classes: seq<ClassData<X, Y>>): (r: seq<(X, Y)>)
    requires WellFormed(classes)
    ensures |r| == TotalSize(classes)
  {
    if classes == [] then []
    else
      var c := classes[|classes| - 1];
      AllPairs(classes[..|classes| - 1]) + Zip(c.xs, c.ys)
  }

  /** Sample j of class k stands after those of the classes before it, with its own label. */
  lemma {:induction false} AllPairsAt<X, Y>(classes: seq<ClassData<X, Y>>, k: nat, j: nat)
    requires WellFormed(classes) && k < |classes| && j < |classes[k].xs|
    ensures var i := TotalSize(classes[..k]) + j;
      i < |AllPairs(classes)| && AllPairs(classes)[i] == (classes[k].xs[j], classes[k].ys[j])
    decreases |classes|
  {
    var n := |classes| - 1;
    var init, last := AllPairs(classes[..n]), Zip(classes[n].xs, classes[n].ys);
    assert AllPairs(classes) == init + last;
    if k < n {
      AllPairsAt(classes[..n], k, j);
      assert classes[..n][..k] == classes[..k];
    } else {
      assert (init + last)[|init| + j] == last[j];
    }
  }

  // ---------------------------------------------------------- the loop

  datatype Parted<X, Y> = Parted(xs: seq<X>, ys: seq<Y>) | NothingToUnpack

  /** np.random.choice without replacement: k distinct indices below the total. */
  ghost predicate DrawsDistinct(choice: nat -> seq<nat>, total: nat) {
    forall k: nat | k <= total ::
      |choice(k)| == k && (forall i :: 0 <= i < k ==> choice(k)[i] < total)
      && forall i, j :: 0 <= i < j < k ==> choice(k)[i] != choice(k)[j]
  }

  function Pick<T>(data: seq<T>, indices: seq<nat>): (r: seq<T>)
    requires forall i :: 0 <= i < |indices| ==> indices[i] < |data|
    ensures |r| == |indices| && forall i :: 0 <= i < |indices| ==> r[i] == data[indices[i]]
  {
    seq(|indices|, i requires 0 <= i < |indices| => data[indices[i]])
  }

  lemma ChosenSnoc<X, Y>(classes: seq<ClassData<X, Y>>, ps: seq<real>, size: nat, offset: nat, k: nat)
    requires WellFormed(classes) && k < |ps| == |classes| && forall i :: 0 <= i < |ps| ==> ps[i] >= 0.0
    ensures var c := classes[k];
      Chosen(classes[..k + 1], Requests(ps[..k + 1], size), offset)
        == Chosen(classes[..k], Requests(ps[..k], size), offset)
           + Window(Zip(c.xs, c.ys), Mod(offset, |c.xs|), Request(size, ps[k]))
  {
    assert classes[..k + 1][..k] == classes[..k] && ps[..k + 1][..k] == ps[..k];
    var counts := Requests(ps[..k + 1], size);
    assert counts[..k] == Requests(ps[..k], size);
  }

  method SelectByClass<X, Y>(classes: seq<ClassData<X, Y>>, ps: seq<real>, size: nat, offset: nat)
    returns (xs: seq<X>, ys: seq<Y>)
    requires WellFormed(classes) && |ps| == |classes| && forall i :: 0 <= i < |ps| ==> ps[i] >= 0.0
    ensures |xs| == |ys| && Zip(xs, ys) == Chosen(classes, Requests(ps, size), offset)
    ensures forall counts :: AsksFor(counts, ps, size) ==> Zip(xs, ys) == Chosen(classes, counts, offset)
  {
    xs, ys := [], [];
    for k := 0 to |classes|
      invariant |xs| == |ys| && Zip(xs, ys) == Chosen(classes[..k], Requests(ps[..k], size), offset)
    {
      var c, count := classes[k], Request(size, ps[k]);
      var start := Mod(offset, |c.xs|);
      var xSelected, ySelected := Window(c.xs, start, count), Window(c.ys, start, count);
      ZipWindow(c.xs, c.ys, start, count);
      ZipAppend(xs, ys, xSelected, ySelected);
      ChosenSnoc(classes, ps, size, offset, k);
      xs, ys := xs + xSelected, ys + ySelected;
    }
    assert classes[..|classes|] == classes && ps[..|ps|] == ps;
    forall counts | AsksFor(counts, ps, size) ensures Zip(xs, ys) == Chosen(classes, counts, offset) {
      AsksForIff(counts, ps, size);
    }
  }

  method Concatenate<X, Y>(classes: seq<ClassData<X, Y>>) returns (xs: seq<X>, ys: seq<Y>)
    requires WellFormed(classes)
    ensures |xs| == |ys| == TotalSize(classes) && Zip(xs, ys) == AllPairs(classes)
  {
    xs, ys := [], [];
    for k := 0 to |classes|
      invariant |xs| == |ys| == TotalSize(classes[..k]) && Zip(xs, ys) == AllPairs(classes[..k])
    {
      assert classes[..k + 1][..k] == classes[..k];
      ZipAppend(xs, ys, classes[k].xs, classes[k].ys);
      xs, ys := xs + classes[k].xs, ys + classes[k].ys;
    }
    assert classes[..|classes|] == classes;
  }

  function Firsts<X, Y>(ps: seq<(X, Y)>): seq<X> {
    seq(|ps|, i requires 0 <= i < |ps| => ps[i].0)
  }

  function Seconds<X, Y>(ps: seq<(X, Y)>): seq<Y> {
    seq(|ps|, i requires 0 <= i < |ps| => ps[i].1)
  }

  lemma Unzip<X, Y>(ps: seq<(X, Y)>)
    ensures Zip(Firsts(ps), Seconds(ps)) == ps
  {
  }

  lemma SizeAtMost(total: nat, parts: nat)
    requires parts > 0
    ensures total / parts <= total
  {
    PartsFit(total, parts);
    MultipleGrows(1, parts, total / parts);
    assert Multiple(1, total / parts) == Multiple(0, total / parts) + total / parts;
  }

  ghost function ExtraPairs<X, Y>(classes: seq<ClassData<X, Y>>, choice: nat -> seq<nat>, k: nat): seq<(X, Y)>
    requires WellFormed(classes) && DrawsDistinct(choice, TotalSize(classes)) && k <= TotalSize(classes)
  {
    Pick(AllPairs(classes), choice(k))
  }

  /** (xs, ys) pairs up the chosen windows and distinct extra samples of the data set, in some order. */
  ghost predicate IsBiased<X, Y>(xs: seq<X>, ys: seq<Y>, classes: seq<ClassData<X, Y>>, counts: seq<nat>,
                                 size: nat, index: nat, choice: nat -> seq<nat>)
    requires WellFormed(classes) && |counts| == |classes|
    requires DrawsDistinct(choice, TotalSize(classes))
  {
    var chosen := Chosen(classes, counts, size * index);
    && |xs| == |ys| == size && |chosen| <= size <= TotalSize(classes)
    && multiset(Zip(xs, ys)) == multiset(chosen + ExtraPairs(classes, choice, size - |chosen|))
  }

  /** Biased as the shares ask, which fixes the counts. */
  ghost predicate BiasedBy<X, Y>(xs: seq<X>, ys: seq<Y>, classes: seq<ClassData<X, Y>>, ps: seq<real>,
                                 size: nat, index: nat, choice: nat -> seq<nat>)
    requires WellFormed(classes) && |ps| == |classes| && DrawsDistinct(choice, TotalSize(classes))
  {
    forall counts :: AsksFor(counts, ps, size) ==> IsBiased(xs, ys, classes, counts, size, index, choice)
  }

  lemma BiasedByRequests<X, Y>(xs: seq<X>, ys: seq<Y>, classes: seq<ClassData<X, Y>>, ps: seq<real>,
                               size: nat, index: nat, choice: nat -> seq<nat>)
    requires WellFormed(classes) && |ps| == |classes| && Shares(ps) && DrawsDistinct(choice, TotalSize(classes))
    requires IsBiased(xs, ys, classes, Requests(ps, size), size, index, choice)
    ensures BiasedBy(xs, ys, classes, ps, size, index, choice)
  {
    forall counts | AsksFor(counts, ps, size) ensures IsBiased(xs, ys, classes, counts, size, index, choice) {
      AsksForIff(counts, ps, size);
    }
  }

  /** The samples at the extra indices of the whole data set, after those already chosen. */
  method FillUp<X, Y>(classes: seq<ClassData<X, Y>>, xs: seq<X>, ys: seq<Y>, extra: seq<nat>)
    returns (xsAll: seq<X>, ysAll: seq<Y>)
    requires WellFormed(classes) && |xs| == |ys|
    requires forall i :: 0 <= i < |extra| ==> extra[i] < TotalSize(classes)
    ensures |xsAll| == |ysAll| && Zip(xsAll, ysAll) == Zip(xs, ys) + Pick(AllPairs(classes), extra)
  {
    xsAll, ysAll := xs, ys;
    if |extra| > 0 {
      var allX, allY := Concatenate(classes);
      ZipAppend(xs, ys, Pick(allX, extra), Pick(allY, extra));
      xsAll, ysAll := xs + Pick(allX, extra), ys + Pick(allY, extra);
    }
  }

  /** The biased partition: exactly total / parts samples, as (feature, label) pairs of the data set:
      each class's window, then distinct extra samples up to that size, in the order of the shuffle.
      Unpacking an empty partition raises, which is exactly when the partition size is zero. */
  method PartitionWithBias<X(!new), Y(!new)>(classes: seq<ClassData<X, Y>>, ps: seq<real>, parts: nat, index: nat,
      choice: nat -> seq<nat>, shuffle: seq<(X, Y)> -> seq<(X, Y)>) returns (r: Parted<X, Y>)
    requires WellFormed(classes) && |ps| == |classes| && Shares(ps) && parts > 0
    requires DrawsDistinct(choice, TotalSize(classes))
    requires forall s :: |shuffle(s)| == |s| && multiset(shuffle(s)) == multiset(s)
    ensures r == NothingToUnpack <==> TotalSize(classes) / parts == 0
    ensures r.Parted? ==> BiasedBy(r.xs, r.ys, classes, ps, TotalSize(classes) / parts, index, choice)
  {
    var size := TotalSize(classes) / parts;
    SizeAtMost(TotalSize(classes), parts);
    var xs, ys := SelectByClass(classes, ps, size, size * index);
    ShortfallNonNegative(classes, ps, size, size * index);
    var xsAll, ysAll := FillUp(classes, xs, ys, choice(size - |xs|));
    var combined := shuffle(Zip(xsAll, ysAll));
    if combined == [] {
      return NothingToUnpack;
    }
    Unzip(combined);
    r := Parted(Firsts(combined), Seconds(combined));
    BiasedByRequests(r.xs, r.ys, classes, ps, size, index, choice);
  }
}
