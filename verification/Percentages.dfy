/** Generating the class shares of a biased partition: draws for a few focus classes, the rest shared out. */
module Percentages {
  import opened Sums
  import opened Partition

  lemma {:induction false} SumUpdate(ps: seq<real>, i: nat, x: real)
    requires i < |ps|
    ensures Sum(ps[i := x]) == Sum(ps) - ps[i] + x
  {
    var n := |ps| - 1;
    if i < n {
      SumUpdate(ps[..n], i, x);
      assert ps[i := x][..n] == ps[..n][i := x];
    } else {
      assert ps[i := x][..n] == ps[..n];
    }
  }

  function Zeros(n: nat): (r: seq<real>)
    ensures |r| == n && forall i :: 0 <= i < n ==> r[i] == 0.0
  {
    seq(n, _ => 0.0)
  }

  lemma {:induction false} SumZeros(n: nat)
    ensures Sum(Zeros(n)) == 0.0
  {
    if n == 0 {
    } else {
      SumZeros(n - 1);
      assert Zeros(n)[..n - 1] == Zeros(n - 1);
    }
  }

  function Divided(ps: seq<real>, d: real): (r: seq<real>)
    requires d != 0.0
    ensures |r| == |ps|
  {
    if ps == [] then [] else Divided(ps[..|ps| - 1], d) + [ps[|ps| - 1] / d]
  }

  lemma {:induction false} SumDivided(ps: seq<real>, d: real)
    requires d != 0.0
    ensures Sum(Divided(ps, d)) == Sum(ps) / d
  {
    if ps == [] {
    } else {
      var n, q := |ps| - 1, Divided(ps, d);
      SumDivided(ps[..n], d);
      assert q[..n] == Divided(ps[..n], d);
    }
  }

  lemma {:induction false} DividedAt(ps: seq<real>, d: real, i: nat)
    requires d > 0.0 && i < |ps|
    ensures Divided(ps, d)[i] == ps[i] / d
    ensures ps[i] >= 0.0 ==> Divided(ps, d)[i] >= 0.0
  {
    if i == |ps| - 1 {
    } else {
      DividedAt(ps[..|ps| - 1], d, i);
    }
  }

  predicate NonNegative(ps: seq<real>) {
    forall i :: 0 <= i < |ps| ==> ps[i] >= 0.0
  }

  // ------------------------------------------------------------- low bias

  /** np.clip to the unit interval. */
  function Clip(x: real): real {
    if x < 0.0 then 0.0 else if x > 1.0 then 1.0 else x
  }

  function Clipped(noise: seq<real>, base: real): (r: seq<real>)
    ensures |r| == |noise| && NonNegative(r)
  {
    seq(|noise|, i requires 0 <= i < |noise| => Clip(base + noise[i]))
  }

  datatype LowShares = Normal(ps: seq<real>) | NotANumber

  lemma {:induction false} SumNonNegative(ps: seq<real>)
    requires NonNegative(ps)
    ensures Sum(ps) >= 0.0
  {
    if ps == [] {
    } else {
      SumNonNegative(ps[..|ps| - 1]);
    }
  }

  lemma DividedNonNegative(ps: seq<real>, d: real)
    requires NonNegative(ps) && d > 0.0
    ensures NonNegative(Divided(ps, d))
  {
    forall i | 0 <= i < |ps| ensures Divided(ps, d)[i] >= 0.0 {
      DividedAt(ps, d, i);
    }
  }

  lemma SelfQuotient(d: real)
    requires d > 0.0
    ensures d / d == 1.0
  {
  }

  lemma Normalised(ps: seq<real>, d: real)
    requires NonNegative(ps) && d == Sum(ps) > 0.0
    ensures NonNegative(Divided(ps, d)) && Sum(Divided(ps, d)) == 1.0
    ensures forall c :: 0 <= c < |ps| ==> Divided(ps, d)[c] == ps[c] / d
  {
    SumDivided(ps, d);
    SelfQuotient(d);
    DividedNonNegative(ps, d);
    forall c | 0 <= c < |ps| ensures Divided(ps, d)[c] == ps[c] / d {
      DividedAt(ps, d, c);
    }
  }

  lemma {:induction false} SumZeroIff(ps: seq<real>)
    requires NonNegative(ps)
    ensures Sum(ps) == 0.0 <==> forall i :: 0 <= i < |ps| ==> ps[i] == 0.0
  {
    if ps == [] {
    } else {
      SumZeroIff(ps[..|ps| - 1]);
      SumNonNegative(ps[..|ps| - 1]);
      assert forall i :: 0 <= i < |ps| - 1 ==> ps[..|ps| - 1][i] == ps[i];
    }
  }

  lemma ClippedAwayIff(noise: seq<real>, base: real)
    ensures Sum(Clipped(noise, base)) == 0.0 <==> forall i :: 0 <= i < |noise| ==> base + noise[i] <= 0.0
  {
    var ps := Clipped(noise, base);
    SumZeroIff(ps);
    assert forall i :: 0 <= i < |noise| ==> (ps[i] == 0.0 <==> base + noise[i] <= 0.0);
  }

  ghost predicate IsClipped(clipped: seq<real>, noise: seq<real>, base: real) {
    |clipped| == |noise| && forall i :: 0 <= i < |noise| ==>
      clipped[i] == if base + noise[i] < 0.0 then 0.0 else if base + noise[i] > 1.0 then 1.0 else base + noise[i]
  }

  ghost predicate Parts(ps: seq<real>, whole: seq<real>, total: real) {
    |ps| == |whole| && total == Sum(whole) > 0.0 && forall i :: 0 <= i < |ps| ==> ps[i] * total == whole[i]
  }

  /** The shares are base plus noise, clipped to the unit interval and divided by the sum of that. */
  ghost predicate ClippedShares(ps: seq<real>, noise: seq<real>, base: real) {
    exists clipped: seq<real> :: IsClipped(clipped, noise, base) && Parts(ps, clipped, Sum(clipped))
  }

  lemma QuotientBack(x: real, d: real)
    requires d > 0.0
    ensures x / d * d == x
  {
  }

  lemma DividedIntoParts(ps: seq<real>, d: real)
    requires d == Sum(ps) > 0.0
    ensures Parts(Divided(ps, d), ps, d)
  {
    forall i | 0 <= i < |ps| ensures Divided(ps, d)[i] * d == ps[i] {
      DividedAt(ps, d, i);
      QuotientBack(ps[i], d);
    }
  }

  lemma SharesAreClipped(noise: seq<real>, base: real, total: real)
    requires total == Sum(Clipped(noise, base)) > 0.0
    ensures ClippedShares(Divided(Clipped(noise, base), total), noise, base)
  {
    DividedIntoParts(Clipped(noise, base), total);
    assert IsClipped(Clipped(noise, base), noise, base);
  }

  /** Low bias: a uniform base plus noise, clipped and normalised. If no class is left with anything, the
      division by zero yields no numbers; otherwise the shares are nonnegative and sum to one. */
  function LowBias(noise: seq<real>): (r: LowShares)
    requires noise != []
    ensures r == NotANumber <==> forall i :: 0 <= i < |noise| ==> 1.0 / |noise| as real + noise[i] <= 0.0
    ensures r.Normal? ==> |r.ps| == |noise| && NonNegative(r.ps) && Sum(r.ps) == 1.0
    ensures r.Normal? ==> ClippedShares(r.ps, noise, 1.0 / |noise| as real)
  {
    var base := 1.0 / |noise| as real;
    var ps := Clipped(noise, base);
    ClippedAwayIff(noise, base);
    SumNonNegative(ps);
    if Sum(ps) == 0.0 then NotANumber
    else
      Normalised(ps, Sum(ps));
      SharesAreClipped(noise, base, Sum(ps));
      Normal(Divided(ps, Sum(ps)))
  }

  // ------------------------------------------------------------ high bias

  /** How many of the classes below n are not in focus. */
  function Others(focus: set<nat>, n: nat): nat {
    if n == 0 then 0 else Others(focus, n - 1) + if n - 1 in focus then 0 else 1
  }

  lemma {:induction false} OthersSame(f: set<nat>, g: set<nat>, n: nat)
    requires forall x: nat :: x < n ==> (x in f <==> x in g)
    ensures Others(f, n) == Others(g, n)
  {
    if n == 0 {
    } else {
      OthersSame(f, g, n - 1);
    }
  }

  lemma {:induction false} OthersCount(focus: set<nat>, n: nat)
    requires forall x <- focus :: x < n
    ensures Others(focus, n) == n - |focus|
  {
    if n > 0 {
      var rest := focus - {n - 1};
      OthersSame(focus, rest, n - 1);
      OthersCount(rest, n - 1);
      if n - 1 !in focus {
        assert rest == focus;
      }
    } else {
      assert focus == {};
    }
  }

  predicate DistinctBelow(focus: seq<nat>, n: nat) {
    (forall i :: 0 <= i < |focus| ==> focus[i] < n)
    && forall i, j :: 0 <= i < j < |focus| ==> focus[i] != focus[j]
  }

  function Members(focus: seq<nat>): set<nat> {
    set x <- focus
  }

  lemma {:induction false} MembersCount(focus: seq<nat>, n: nat)
    requires DistinctBelow(focus, n)
    ensures |Members(focus)| == |focus|
  {
    if focus == [] {
    } else {
      var k := |focus| - 1;
      MembersCount(focus[..k], n);
      assert focus == focus[..k] + [focus[k]];
      assert Members(focus) == Members(focus[..k]) + {focus[k]};
      assert focus[k] !in Members(focus[..k]);
    }
  }

  /** The first loop: one draw for each focus class; the others stay at zero. */
  method DrawFocus(ps: array<real>, focus: seq<nat>, draws: seq<real>)
    requires ps[..] == Zeros(ps.Length)
    requires DistinctBelow(focus, ps.Length) && |draws| == |focus| && NonNegative(draws)
    modifies ps
    ensures NonNegative(ps[..]) && Sum(ps[..]) == Sum(draws)
    ensures forall c :: 0 <= c < ps.Length && c !in focus ==> ps[c] == 0.0
    ensures forall k :: 0 <= k < |focus| ==> ps[focus[k]] == draws[k]
  {
    SumZeros(ps.Length);
    for k := 0 to |focus|
      invariant NonNegative(ps[..]) && Sum(ps[..]) == Sum(draws[..k])
      invariant forall c :: 0 <= c < ps.Length && c !in focus[..k] ==> ps[c] == 0.0
      invariant forall j :: 0 <= j < k ==> ps[focus[j]] == draws[j]
    {
      assert focus[..k + 1] == focus[..k] + [focus[k]];
      assert draws[..k + 1][..k] == draws[..k];
      ghost var before := ps[..];
      SumUpdate(before, focus[k], draws[k]);
      ps[focus[k]] := draws[k];
      assert ps[..] == before[focus[k] := draws[k]];
    }
    assert draws[..|draws|] == draws && focus[..|focus|] == focus;
  }

  function EqualShare(remaining: real, count: nat): (r: real)
    requires remaining >= 0.0
    ensures r >= 0.0
  {
    if count == 0 then 0.0 else remaining / count as real
  }

  method SetShare(ps: array<real>, i: nat, share: real)
    requires i < ps.Length && NonNegative(ps[..]) && share >= 0.0 && ps[i] == 0.0
    modifies ps
    ensures ps[..] == old(ps[..])[i := share]
    ensures NonNegative(ps[..]) && Sum(ps[..]) == old(Sum(ps[..])) + share
  {
    ghost var before := ps[..];
    SumUpdate(before, i, share);
    ps[i] := share;
    assert ps[..] == before[i := share];
  }

  /** The last loop: every class out of focus gets `share`. */
  method FillOthers(ps: array<real>, focus: seq<nat>, share: real)
    requires NonNegative(ps[..]) && share >= 0.0
    requires forall c :: 0 <= c < ps.Length && c !in focus ==> ps[c] == 0.0
    modifies ps
    ensures NonNegative(ps[..])
    ensures Sum(ps[..]) == old(Sum(ps[..])) + Times(Others(Members(focus), ps.Length), share)
    ensures forall c :: 0 <= c < ps.Length ==> ps[c] == if c in focus then old(ps[c]) else share
  {
    ghost var f := Members(focus);
    for i := 0 to ps.Length
      invariant NonNegative(ps[..])
      invariant Sum(ps[..]) == old(Sum(ps[..])) + Times(Others(f, i), share)
      invariant forall c :: 0 <= c < i ==> ps[c] == if c in focus then old(ps[c]) else share
      invariant forall c :: i <= c < ps.Length ==> ps[c] == old(ps[c])
    {
      assert i in f <==> i in focus;
      if i !in focus {
        SetShare(ps, i, share);
      }
    }
  }

  lemma WholeShared(x: real, n: nat)
    requires n > 0 && x >= 0.0
    ensures Times(n, EqualShare(x, n)) == x
  {
    QuotientTimes(x, n);
  }

  /** What is left of the whole, shared equally among the classes out of focus. */
  method ShareRest(ps: array<real>, focus: seq<nat>)
    requires DistinctBelow(focus, ps.Length) && NonNegative(ps[..]) && Sum(ps[..]) <= 1.0
    requires forall c :: 0 <= c < ps.Length && c !in focus ==> ps[c] == 0.0
    modifies ps
    ensures NonNegative(ps[..])
    ensures Sum(ps[..]) == if |focus| < ps.Length then 1.0 else old(Sum(ps[..]))
    ensures forall c :: 0 <= c < ps.Length && c in focus ==> ps[c] == old(ps[c])
    ensures forall b, c :: 0 <= b < c < ps.Length && b !in focus && c !in focus ==> ps[b] == ps[c]
  {
    MembersCount(focus, ps.Length);
    OthersCount(Members(focus), ps.Length);
    var remaining, count: nat := 1.0 - Sum(ps[..]), ps.Length - |focus|;
    FillOthers(ps, focus, EqualShare(remaining, count));
    if count > 0 {
      WholeShared(remaining, count);
    }
  }

  /** A percentage after the total has been brought down to one. */
  function Scaled(x: real, total: real): real {
    if total > 1.0 then x / total else x
  }

  method Normalise(ps: array<real>) returns (qs: array<real>)
    requires NonNegative(ps[..])
    ensures qs == ps || fresh(qs)
    ensures qs.Length == ps.Length && NonNegative(qs[..])
    ensures Sum(qs[..]) == if Sum(ps[..]) > 1.0 then 1.0 else Sum(ps[..])
    ensures forall c :: 0 <= c < ps.Length ==> qs[c] == Scaled(ps[c], Sum(ps[..]))
  {
    var total := Sum(ps[..]);
    if total <= 1.0 {
      return ps;
    }
    var divided := Divided(ps[..], total);
    Normalised(ps[..], total);
    qs := new real[ps.Length](i requires 0 <= i < ps.Length => divided[i]);
    assert qs[..] == divided;
  }

  /** High bias, for any distinct focus classes and any nonnegative draws: the shares are nonnegative
      and sum to at most one, so they suit the biased partition; they sum to exactly one unless
      every class is in focus and the draws fall short of one. */
  method HighBias(classes: nat, focus: seq<nat>, draws: seq<real>) returns (ps: array<real>)
    requires DistinctBelow(focus, classes) && |draws| == |focus| && NonNegative(draws)
    ensures fresh(ps) && ps.Length == classes && Shares(ps[..])
    ensures Sum(ps[..]) == 1.0 <==> |focus| < classes || Sum(draws) >= 1.0
    ensures forall k :: 0 <= k < |focus| ==> ps[focus[k]] == if Sum(draws) > 1.0 then draws[k] / Sum(draws) else draws[k]
    ensures forall b, c :: 0 <= b < c < classes && b !in focus && c !in focus ==> ps[b] == ps[c]
  {
    var drawn := new real[classes](_ => 0.0);
    DrawFocus(drawn, focus, draws);
    MembersCount(focus, classes);
    OthersCount(Members(focus), classes);
    ps := Normalise(drawn);
    ShareRest(ps, focus);
  }
}
