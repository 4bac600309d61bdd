/** Numbers written in a positional notation, most significant digit first. */
module Positional {
  import opened Int32

  /** The number written by `ds` in the given base, most significant digit first. */
  function Value(base: nat, ds: seq<int>): int {
    if ds == [] then 0 else base * Value(base, ds[..|ds| - 1]) + ds[|ds| - 1]
  }

  predicate InRange(ds: seq<int>, base: nat) {
    forall i | 0 <= i < |ds| :: 0 <= ds[i] < base
  }

  lemma {:induction false} ValueNonnegative(base: nat, ds: seq<int>)
    requires InRange(ds, base)
    ensures 0 <= Value(base, ds)
  {
    if ds != [] {
      ValueNonnegative(base, ds[..|ds| - 1]);
    }
  }

  /** A digit string is determined by its length and its value. */
  lemma {:induction false} ValueInjective(base: nat, x: seq<int>, y: seq<int>)
    requires |x| == |y| && InRange(x, base) && InRange(y, base)
    requires Value(base, x) == Value(base, y)
    ensures x == y
  {
    if x != [] {
      var n := |x| - 1;
      var u, v := Value(base, x[..n]), Value(base, y[..n]);
      SameHighPart(base, u, v, x[n], y[n]);
      ValueInjective(base, x[..n], y[..n]);
      assert x == x[..n] + [x[n]] && y == y[..n] + [y[n]];
    }
  }

  lemma SameHighPart(base: nat, u: int, v: int, d: int, e: int)
    requires 0 <= d < base && 0 <= e < base && base * u + d == base * v + e
    ensures u == v && d == e
  {
    assert base * (u - v) == base * u - base * v;
    if u - v >= 1 { MulGe(base, u - v); } else if u - v <= -1 { MulLe(base, u - v); }
  }

  /** The `k` low digits of `n`, most significant first. */
  function DigitsOf(base: nat, n: nat, k: nat): (ds: seq<int>)
    requires 0 < base
    ensures |ds| == k && InRange(ds, base)
    decreases k
  {
    if k == 0 then []
    else
      DivMod(n, base);
      DivLe(n, base);
      DigitsOf(base, n / base, k - 1) + [n % base]
  }

  function Power(base: nat, k: nat): nat {
    if k == 0 then 1 else base * Power(base, k - 1)
  }

  lemma {:induction false} DigitsOfValue(base: nat, n: nat, k: nat)
    requires 0 < base && n < Power(base, k)
    ensures Value(base, DigitsOf(base, n, k)) == n
    decreases k
  {
    if k > 0 {
      DivMod(n, base);
      DivLe(n, base);
      QuotientBound(n, base, Power(base, k - 1));
      DigitsOfValue(base, n / base, k - 1);
      var ds := DigitsOf(base, n, k);
      assert ds[..k - 1] == DigitsOf(base, n / base, k - 1);
    }
  }

  lemma QuotientBound(n: nat, base: nat, p: nat)
    requires 0 < base && n < base * p
    ensures 0 <= n / base < p
  {
    DivMod(n, base);
    DivLe(n, base);
    var e := n / base - p;
    assert base * e == base * (n / base) - base * p;
    if e >= 1 { MulGe(base, e); }
  }
}
