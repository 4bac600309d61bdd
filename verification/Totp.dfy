/**
 The demo client's TOTP generator (docs/demo/script.js:224-247) against sections 5.1 to 5.3 of
 RFC 4226 and section 4.2 of RFC 6238. HMAC-SHA-1 is a parameter: the 20-byte digest.
 */
module Totp {
  import opened Int32
  import opened Positional

  const STEP_MILLISECONDS: nat := 30000
  const MODULUS: nat := 1000000

  /** `DataView.setUint32(offset, x)`: four bytes, big endian, of x modulo 2^32. */
  method SetUint32(buffer: array<int>, offset: nat, x: nat)
    requires offset + 4 <= buffer.Length
    modifies buffer
    ensures buffer[..] == old(buffer[..offset]) + DigitsOf(256, x % 0x1_0000_0000, 4) + old(buffer[offset + 4..])
  {
    var u := ToUint32(x);
    ghost var before := buffer[..];
    FourDigits(u);
    buffer[offset] := u / 0x100_0000;
    buffer[offset + 1] := u / 0x1_0000 % 256;
    buffer[offset + 2] := u / 0x100 % 256;
    buffer[offset + 3] := u % 256;
    assert buffer[..] == before[..offset] + DigitsOf(256, u, 4) + before[offset + 4..];
  }

  lemma FourDigits(u: nat)
    requires u < TWO_32
    ensures DigitsOf(256, u, 4) == [u / 0x100_0000, u / 0x1_0000 % 256, u / 0x100 % 256, u % 256]
  {
    assert DigitsOf(256, u / 0x100_0000, 1) == [u / 0x100_0000] by {
      assert DigitsOf(256, u / 0x100_0000 / 256, 0) == [];
    }
    assert u / 0x1_0000 / 256 == u / 0x100_0000 && u / 0x100 / 256 == u / 0x1_0000;
    assert DigitsOf(256, u / 0x1_0000, 2) == [u / 0x100_0000, u / 0x1_0000 % 256];
    assert DigitsOf(256, u / 0x100, 3) == [u / 0x100_0000, u / 0x1_0000 % 256, u / 0x100 % 256];
  }

  /** The message the key is applied to: an eight-byte buffer with the time step in its low half. */
  method CounterBlock(nowMilliseconds: nat) returns (counter: array<int>)
    ensures fresh(counter)
    ensures counter[..] == CounterBytes(nowMilliseconds / 30_000)
  {
    var timeStep := nowMilliseconds / STEP_MILLISECONDS;
    counter := new int[8](_ => 0);
    SetUint32(counter, 4, timeStep);
  }

  function CounterBytes(timeStep: nat): (bs: seq<int>)
    ensures |bs| == 8 && InRange(bs, 256)
  {
    [0, 0, 0, 0] + DigitsOf(256, timeStep % TWO_32, 4)
  }

  /**
   Section 5.1 of RFC 4226 wants the counter as eight big-endian bytes. The block is that exactly
   for time steps below 2^32; a later step is written modulo 2^32.
   */
  lemma CounterBytesCorrect(timeStep: nat)
    requires timeStep < Power(256, 8)
    ensures CounterBytes(timeStep) == DigitsOf(256, timeStep, 8) <==> timeStep < 0x1_0000_0000
  {
    hide DigitsOf;
    CounterBytesValue(timeStep);
    DigitsOfValue(256, timeStep, 8);
    if timeStep < TWO_32 {
      ValueInjective(256, CounterBytes(timeStep), DigitsOf(256, timeStep, 8));
    }
  }

  lemma CounterBytesValue(timeStep: nat)
    ensures Value(256, CounterBytes(timeStep)) == timeStep % TWO_32
  {
    hide DigitsOf;
    hide Value;
    assert Power(256, 2) == 0x1_0000 && Power(256, 4) == TWO_32;
    DigitsOfValue(256, timeStep % TWO_32, 4);
    LeadingZeros(DigitsOf(256, timeStep % TWO_32, 4));
  }

  lemma LeadingZeros(ds: seq<int>)
    requires |ds| == 4
    ensures Value(256, [0, 0, 0, 0] + ds) == Value(256, ds)
  {
    ValueFour(ds);
    var z := [0, 0, 0, 0] + ds;
    assert z[..5][..4] == [0, 0, 0, 0] && Value(256, [0, 0, 0, 0]) == 0 by { ValueFour([0, 0, 0, 0]); }
    assert z[..8] == z && z[..8][..7] == z[..7] && z[..7][..6] == z[..6] && z[..6][..5] == z[..5];
    assert Value(256, z[..5]) == ds[0];
    assert Value(256, z[..6]) == 256 * ds[0] + ds[1];
    assert Value(256, z[..7]) == 256 * Value(256, z[..6]) + ds[2];
  }

  lemma ValueFour(ds: seq<int>)
    requires |ds| == 4
    ensures Value(256, ds) == 0x100_0000 * ds[0] + 0x1_0000 * ds[1] + 0x100 * ds[2] + ds[3]
  {
    assert ds[..3][..2] == ds[..2] && ds[..2][..1] == ds[..1] && ds[..1][..0] == [];
    assert Value(256, ds[..1]) == ds[0];
    assert Value(256, ds[..2]) == 256 * ds[0] + ds[1];
    assert Value(256, ds[..3]) == 256 * Value(256, ds[..2]) + ds[2];
  }

  // ---- Dynamic truncation, section 5.3 of RFC 4226 ----

  predicate IsDigest(signature: seq<int>) {
    |signature| == 20 && InRange(signature, 256)
  }

  function Offset(signature: seq<int>): (o: int)
    requires IsDigest(signature)
    ensures 0 <= o <= 15 && o == signature[19] % 16
  {
    Mask15(signature[19]);
    And(signature[|signature| - 1], 15)
  }

  function Binary(signature: seq<int>): int
    requires IsDigest(signature)
  {
    var offset := Offset(signature);
    Or(Or(Or(
      Shl(And(signature[offset], 127), 24),
      Shl(And(signature[offset + 1], 255), 16)),
      Shl(And(signature[offset + 2], 255), 8)),
      And(signature[offset + 3], 255))
  }

  lemma MaskBits(x: int, k: nat, m: nat)
    requires 0 <= x < 256 && m == Pow2(k) && m <= 256
    ensures And(x, m - 1) == x % m && 0 <= x % m < m
  {
    hide AndBits;
    AndBitsMask(x, k);
    DivMod(x, m);
    Unwrapped(x);
    Unwrapped(m - 1);
    Unwrapped(x % m);
  }

  lemma Mask15(x: int)
    requires 0 <= x < 256
    ensures And(x, 15) == x % 16
  {
    assert Pow2(4) == 16;
    MaskBits(x, 4, 16);
  }

  lemma Mask127(x: int)
    requires 0 <= x < 256
    ensures And(x, 127) == x % 128
  {
    assert Pow2(4) == 16 && Pow2(7) == 128;
    MaskBits(x, 7, 128);
  }

  lemma Mask255(x: int)
    requires 0 <= x < 256
    ensures And(x, 255) == x
  {
    assert Pow2(4) == 16 && Pow2(8) == 256;
    MaskBits(x, 8, 256);
  }

  /** Or-ing in a lower, non-overlapping field adds it; nothing reaches the sign bit. */
  lemma OrField(high: nat, low: nat, k: nat, field: nat)
    requires low < Pow2(k) && field == high * Pow2(k) && field + low < TWO_31
    ensures Or(field, low) == field + low
  {
    OrBitsDisjoint(high, low, k);
    OrWithoutCarry(field, low);
  }

  lemma OrWithoutCarry(x: nat, y: nat)
    requires OrBits(x, y) == x + y < TWO_31
    ensures Or(x, y) == x + y
  {
    hide OrBits;
    Unwrapped(x);
    Unwrapped(y);
    Unwrapped(x + y);
  }


  lemma ShlSmall(x: nat, k: nat)
    requires x * Pow2(k) < TWO_31
    ensures Shl(x, k) == x * Pow2(k)
  {
  }

  /** The 31-bit big-endian number at the offset, computed without overflowing into the sign. */
  lemma BinaryCorrect(signature: seq<int>)
    requires IsDigest(signature)
    ensures var o := Offset(signature);
            Binary(signature) == Value(256, signature[o..o + 4]) % 0x8000_0000
    ensures 0 <= Binary(signature) < 0x8000_0000
  {
    hide Or;
    hide Shl;
    hide Value;
    var o := Offset(signature);
    var p := signature[o..o + 4];
    var a, b, c, d := p[0] % 128, p[1], p[2], p[3];
    Mask127(p[0]);
    Mask255(p[1]);
    Mask255(p[2]);
    Mask255(p[3]);
    assert Binary(signature) == Or(Or(Or(Shl(a, 24), Shl(b, 16)), Shl(c, 8)), d);
    Fields(a, b, c, d);
    ValueFour(p);
    SignBitDropped(p[0], 0x1_0000 * b + 0x100 * c + d);
  }

  lemma SignBitDropped(x: nat, rest: nat)
    requires x < 256 && rest < 0x100_0000
    ensures (0x100_0000 * x + rest) % TWO_31 == 0x100_0000 * (x % 128) + rest
  {
  }

  lemma Fields(a: nat, b: nat, c: nat, d: nat)
    requires a < 128 && b < 256 && c < 256 && d < 256
    ensures Or(Or(Or(Shl(a, 24), Shl(b, 16)), Shl(c, 8)), d) == 0x100_0000 * a + 0x1_0000 * b + 0x100 * c + d
  {
    hide Or;
    hide Shl;
    Pow2Values();
    ShlSmall(a, 24);
    ShlSmall(b, 16);
    ShlSmall(c, 8);
    OrField(a, 0x1_0000 * b, 24, 0x100_0000 * a);
    OrField(0x100 * a + b, 0x100 * c, 16, 0x100_0000 * a + 0x1_0000 * b);
    OrField(0x1_0000 * a + 0x100 * b + c, d, 8, 0x100_0000 * a + 0x1_0000 * b + 0x100 * c);
  }

  // ---- Six decimal digits ----

  /** `String(n)` */
  function Decimal(n: nat): (s: string)
    ensures s != []
  {
    if n < 10 then [DigitChar(n)] else Decimal(n / 10) + [DigitChar(n % 10)]
  }

  function DigitChar(d: nat): char
    requires d < 10
  {
    ('0' as int + d) as char
  }

  /** `padStart(width, "0")` */
  function PadStart(s: string, width: nat): string {
    if |s| >= width then s else seq(width - |s|, _ => '0') + s
  }

  predicate IsNumeric(s: string) {
    forall i | 0 <= i < |s| :: '0' <= s[i] <= '9'
  }

  function Parse(s: string): int {
    if s == [] then 0 else 10 * Parse(s[..|s| - 1]) + (s[|s| - 1] as int - '0' as int)
  }

  function Code(signature: seq<int>): string
    requires IsDigest(signature)
    requires 0 <= Binary(signature)
  {
    PadStart(Decimal(Binary(signature) % MODULUS), 6)
  }

  lemma {:induction false} DecimalCorrect(n: nat, width: nat)
    requires 0 < width && n < Power(10, width)
    ensures |Decimal(n)| <= width && IsNumeric(Decimal(n)) && Parse(Decimal(n)) == n
    decreases n
  {
    if n < 10 {
      assert Decimal(n)[..0] == [];
    } else {
      assert Power(10, 1) == 10;
      DecimalCorrect(n / 10, width - 1);
      var s := Decimal(n);
      assert s[..|s| - 1] == Decimal(n / 10);
    }
  }

  lemma {:induction false} ZerosParse(k: nat, s: string)
    requires IsNumeric(s)
    ensures IsNumeric(seq(k, _ => '0') + s) && Parse(seq(k, _ => '0') + s) == Parse(s)
    decreases |s| + k
  {
    var z := seq(k, _ => '0');
    if s != [] {
      var n := |s| - 1;
      ZerosParse(k, s[..n]);
      assert (z + s)[..|z + s| - 1] == z + s[..n];
    } else if k > 0 {
      ZerosParse(k - 1, s);
      assert (z + s)[..k - 1] == seq(k - 1, _ => '0') + s;
    }
  }

  /** The generated code is six digits and spells the truncated digest modulo 10^6. */
  lemma CodeCorrect(signature: seq<int>)
    requires IsDigest(signature)
    ensures 0 <= Binary(signature)
    ensures |Code(signature)| == 6 && IsNumeric(Code(signature))
    ensures var o := signature[19] % 16;
            Parse(Code(signature)) == Value(256, signature[o..o + 4]) % 0x8000_0000 % 1_000_000
  {
    BinaryCorrect(signature);
    var n := Binary(signature) % MODULUS;
    assert Power(10, 6) == MODULUS by { assert Power(10, 3) == 1000; }
    DecimalCorrect(n, 6);
    ZerosParse(6 - |Decimal(n)|, Decimal(n));
    assert |Decimal(n)| == 6 ==> Code(signature) == Decimal(n);
  }
}
