/** Sums of reals, and multiples by repeated addition, which keep products out of the larger proofs. */
module Sums {
  function Sum(xs: seq<real>): real {
    if xs == [] then 0.0 else Sum(xs[..|xs| - 1]) + xs[|xs| - 1]
  }

  lemma {:induction false} SumFront(xs: seq<real>)
    requires xs != []
    ensures Sum(xs) == xs[0] + Sum(xs[1..])
  {
    if |xs| == 1 {
      assert xs[..0] == [] && xs[1..] == [];
    } else {
      var init := xs[..|xs| - 1];
      SumFront(init);
      assert init[1..] == xs[1..][..|xs| - 2];
    }
  }

  /** n * x. */
  function Times(n: nat, x: real): real {
    if n == 0 then 0.0 else Times(n - 1, x) + x
  }

  lemma {:induction false} TimesIsProduct(n: nat, x: real)
    ensures Times(n, x) == n as real * x
  {
    if n == 0 {
    } else {
      TimesIsProduct(n - 1, x);
      assert n as real * x == (n - 1) as real * x + x;
    }
  }

  lemma {:induction false} TimesSum(n: nat, x: real, y: real)
    ensures Times(n, x + y) == Times(n, x) + Times(n, y)
  {
    if n == 0 {
    } else {
      TimesSum(n - 1, x, y);
    }
  }

  lemma {:induction false} TimesAdds(n: nat, m: nat, x: real)
    ensures Times(n + m, x) == Times(n, x) + Times(m, x)
  {
    if m == 0 {
    } else {
      TimesAdds(n, m - 1, x);
    }
  }

  lemma {:induction false} TimesMonotone(n: nat, x: real, y: real)
    requires n > 0 ==> x <= y
    ensures Times(n, x) <= Times(n, y)
  {
    if n == 0 {
    } else {
      TimesMonotone(n - 1, x, y);
    }
  }

  lemma QuotientTimes(s: real, n: nat)
    requires n > 0
    ensures Times(n, s / n as real) == s
  {
    TimesIsProduct(n, s / n as real);
  }

  lemma {:induction false} TimesStrict(n: nat, x: real, y: real)
    requires n > 0 && x < y
    ensures Times(n, x) < Times(n, y)
  {
    if n == 1 {
      assert Times(1, x) == Times(0, x) + x && Times(1, y) == Times(0, y) + y;
    } else {
      TimesStrict(n - 1, x, y);
    }
  }

  /** The n-th part of s lies between any bounds whose n-folds s lies between. */
  lemma QuotientBetween(n: nat, s: real, lo: real, hi: real)
    requires n > 0 && Times(n, lo) <= s <= Times(n, hi)
    ensures lo <= s / n as real <= hi
  {
    var q := s / n as real;
    QuotientTimes(s, n);
    if q < lo {
      TimesStrict(n, q, lo);
    } else if hi < q {
      TimesStrict(n, hi, q);
    }
  }

  /** k * size. */
  function Multiple(k: nat, size: nat): nat {
    if k == 0 then 0 else Multiple(k - 1, size) + size
  }

  lemma {:induction false} MultipleIsProduct(k: nat, size: nat)
    ensures Multiple(k, size) == k * size
  {
    if k == 0 {
    } else {
      MultipleIsProduct(k - 1, size);
    }
  }

  lemma {:induction false} MultipleGrows(k: nat, n: nat, size: nat)
    requires k <= n
    ensures Multiple(k, size) <= Multiple(n, size)
    ensures k < n ==> Multiple(k, size) + size <= Multiple(n, size)
    decreases n
  {
    if k == n {
    } else {
      MultipleGrows(k, n - 1, size);
    }
  }

  lemma {:induction false} MultipleSplits(k: nat, a: nat, b: nat)
    ensures Multiple(k, a + b) == Multiple(k, a) + Multiple(k, b)
  {
    if k == 0 {
    } else {
      MultipleSplits(k - 1, a, b);
    }
  }

  lemma {:induction false} MultipleAdds(k: nat, m: nat, size: nat)
    ensures Multiple(k + m, size) == Multiple(k, size) + Multiple(m, size)
  {
    if m == 0 {
    } else {
      MultipleAdds(k, m - 1, size);
    }
  }
}
