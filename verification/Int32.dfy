/**
 ECMAScript's 32-bit integer operators on mathematical integers: ToInt32, ToUint32,
 the shifts, and the bitwise operators, with the wrap-around written out.
 */
module Int32 {
  const TWO_32: int := 0x1_0000_0000
  const TWO_31: int := 0x8000_0000

  function Pow2(n: nat): (p: nat)
    ensures 0 < p
  {
    if n == 0 then 1 else 2 * Pow2(n - 1)
  }

  function ToUint32(x: int): nat {
    x % TWO_32
  }

  function ToInt32(x: int): int {
    var m := x % TWO_32;
    if m < TWO_31 then m else m - TWO_32
  }

  /** `x << n` */
  function Shl(x: int, n: nat): int {
    ToInt32(x * Pow2(n))
  }

  /** `x >>> n` */
  function UShr(x: int, n: nat): nat {
    DivLe(ToUint32(x), Pow2(n));
    ToUint32(x) / Pow2(n)
  }

  /** `x | y` */
  function Or(x: int, y: int): int {
    ToInt32(OrBits(ToUint32(x), ToUint32(y)))
  }

  /** `x & y` */
  function And(x: int, y: int): int {
    ToInt32(AndBits(ToUint32(x), ToUint32(y)))
  }

  function OrBits(x: nat, y: nat): nat
    decreases x + y
  {
    if x == 0 then y else if y == 0 then x
    else 2 * OrBits(x / 2, y / 2) + (if x % 2 == 1 || y % 2 == 1 then 1 else 0)
  }

  function AndBits(x: nat, y: nat): nat
    decreases x + y
  {
    if x == 0 || y == 0 then 0
    else 2 * AndBits(x / 2, y / 2) + (if x % 2 == 1 && y % 2 == 1 then 1 else 0)
  }

  // ---- What the operators compute on operands whose bits do not overlap ----

  lemma {:induction false} OrBitsDisjoint(x: nat, y: nat, k: nat)
    requires y < Pow2(k)
    ensures OrBits(x * Pow2(k), y) == x * Pow2(k) + y
    decreases k
  {
    if k > 0 && x > 0 {
      var h := x * Pow2(k - 1);
      assert x * Pow2(k) == 2 * h;
      OrBitsDisjoint(x, y / 2, k - 1);
      assert (2 * h) / 2 == h && (2 * h) % 2 == 0;
      assert y == 2 * (y / 2) + y % 2;
      if y == 0 {
        assert OrBits(2 * h, 0) == 2 * h;
      } else if h > 0 {
        assert OrBits(2 * h, y) == 2 * OrBits(h, y / 2) + (if y % 2 == 1 then 1 else 0);
      }
    }
  }

  lemma {:induction false} AndBitsMask(x: nat, k: nat)
    ensures AndBits(x, Pow2(k) - 1) == x % Pow2(k)
    decreases k
  {
    if k == 0 {
    } else if x == 0 {
      DivModUnique(0, Pow2(k), 0, 0);
    } else {
      var p := Pow2(k - 1);
      AndBitsMask(x / 2, k - 1);
      HalfMod(x, p);
      AndBitsOdd(x, p - 1);
    }
  }

  lemma AndBitsOdd(x: nat, h: nat)
    ensures AndBits(x, 2 * h + 1) == 2 * AndBits(x / 2, h) + x % 2
  {
    assert (2 * h + 1) / 2 == h && (2 * h + 1) % 2 == 1;
  }

  lemma HalfMod(x: nat, p: nat)
    requires 0 < p
    ensures x % (2 * p) == 2 * ((x / 2) % p) + x % 2
  {
    var q, r := (x / 2) / p, (x / 2) % p;
    DivMod(x / 2, p);
    assert (2 * p) * q == 2 * (p * q);
    DivModUnique(x, 2 * p, q, 2 * r + x % 2);
  }

  lemma DivMod(x: int, d: int)
    requires 0 < d
    ensures x == d * (x / d) + x % d && 0 <= x % d < d
  {
  }

  lemma MulGe(d: int, q: int)
    requires 0 < d && 1 <= q
    ensures d <= d * q && q <= d * q
  {
  }

  lemma MulLe(d: int, q: int)
    requires 0 < d && q <= -1
    ensures d * q <= -d
  {
  }

  lemma DivLe(x: int, d: int)
    requires 0 <= x && 0 < d
    ensures 0 <= x / d <= x
  {
    DivMod(x, d);
    var q := x / d;
    if q >= 1 { MulGe(d, q); } else if q <= -1 { MulLe(d, q); }
  }

  lemma DivModUnique(x: int, d: int, q: int, r: int)
    requires 0 <= r < d && x == d * q + r
    ensures x / d == q && x % d == r
  {
    DivMod(x, d);
    var e := x / d - q;
    assert d * e == d * (x / d) - d * q;
    if e >= 1 { MulGe(d, e); } else if e <= -1 { MulLe(d, e); }
  }

  lemma WrapTimes32(v: int, i: nat)
    requires i < 32
    ensures (v * 32) % TWO_32 % 32 == 0
    ensures (v * 32) % TWO_32 + i == ((v % TWO_32) * 32 + i) % TWO_32
  {
    var q, r, a := v / 0x800_0000, v % 0x800_0000, v / TWO_32;
    DivModUnique(v * 32, TWO_32, q, 32 * r);
    DivModUnique(32 * r, 32, r, 0);
    DivModUnique((v % TWO_32) * 32 + i, TWO_32, q - 32 * a, 32 * r + i);
  }

  lemma Unwrapped(x: nat)
    requires x < TWO_32
    ensures ToUint32(x) == x && ToUint32(ToInt32(x)) == x
    ensures x < TWO_31 ==> ToInt32(x) == x
  {
  }

  /** `(v << 5) | i` appends five bits to the accumulator, modulo 2^32. */
  lemma ShiftIn(v: int, i: nat)
    requires i < 32
    ensures ToUint32(Or(Shl(v, 5), i)) == (ToUint32(v) * 32 + i) % TWO_32
  {
    hide OrBits;
    var s := (v * 32) % TWO_32;
    assert Pow2(5) == 32;
    WrapTimes32(v, i);
    Unwrapped(s);
    Unwrapped(i);
    Unwrapped(s + i);
    assert s == s / 32 * 32;
    OrBitsDisjoint(s / 32, i, 5);
  }

  /** `(v >>> k) & 255` */
  lemma LowByte(v: int, k: nat)
    ensures And(UShr(v, k), 255) == UShr(v, k) % 256
  {
    hide AndBits;
    var u := UShr(v, k);
    DivLe(ToUint32(v), Pow2(k));
    assert Pow2(4) == 16 && Pow2(8) == 256;
    AndBitsMask(u, 8);
    Unwrapped(u);
    Unwrapped(255);
    Unwrapped(u % 256);
  }

  lemma Pow2Values()
    ensures Pow2(4) == 16 && Pow2(5) == 32 && Pow2(7) == 128 && Pow2(8) == 256
    ensures Pow2(16) == 0x1_0000 && Pow2(24) == 0x100_0000 && Pow2(32) == TWO_32
  {
    assert Pow2(4) == 16;
    assert Pow2(8) == 256;
    assert Pow2(12) == 4096;
    assert Pow2(16) == 0x1_0000;
    assert Pow2(20) == 0x10_0000;
    assert Pow2(24) == 0x100_0000;
    assert Pow2(28) == 0x1000_0000;
  }
}
