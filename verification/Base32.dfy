/**
 The demo client's base32 decoder (docs/demo/script.js:199-222) and the encoding of
 section 6 of RFC 4648 that it inverts.
 */
module Base32 {
  import opened Prelude
  import opened Int32
  import opened Positional
  import opened Base32Text

  /**
   What it means for `bytes` to be the decoding of `s`: the five-bit digits of `s`, read as one
   number, are the bytes read as one number followed by fewer than eight left-over bits.
   */
  ghost predicate IsDecoding(s: string, bytes: seq<int>)
    requires Decodable(s)
  {
    && InRange(bytes, 256)
    && |bytes| == 5 * |s| / 8
    && var unit := Pow2(5 * |s| % 8);
       0 <= Value(32, Digits(s)) - Value(256, bytes) * unit < unit
  }

  // ---- The decoding loop ----

  /** Thirty-two bits of accumulator are enough: the emitted byte only depends on the low twelve. */
  lemma TruncationHarmless(acc: nat, k: nat)
    requires k <= 4
    ensures (acc % TWO_32) / Pow2(k) % 256 == acc / Pow2(k) % 256
  {
    assert Pow2(0) == 1 && Pow2(1) == 2 && Pow2(2) == 4;
    assert Pow2(3) == 8 && Pow2(4) == 16;
    DropTop(acc, Pow2(k), if k == 0 then 0x100_0000 else if k == 1 then 0x80_0000 else
                          if k == 2 then 0x40_0000 else if k == 3 then 0x20_0000 else 0x10_0000);
  }

  lemma DropTop(acc: nat, p: nat, c: nat)
    requires 0 < p && p * (256 * c) == TWO_32
    ensures (acc % TWO_32) / p % 256 == acc / p % 256
  {
    var q, m := acc / TWO_32, acc % TWO_32;
    DivMod(m, p);
    Reassociate(p, c, q, m / p);
    DivModUnique(acc, p, 256 * (c * q) + m / p, m % p);
    PlusMultiple(m / p, c * q);
  }

  lemma Reassociate(p: nat, c: nat, q: nat, d: int)
    ensures p * (256 * (c * q) + d) == (p * (256 * c)) * q + p * d
  {
    assert p * (256 * (c * q)) == p * (256 * c * q) == (p * (256 * c)) * q;
    assert p * (256 * (c * q) + d) == p * (256 * (c * q)) + p * d;
  }

  lemma PlusMultiple(x: int, k: int)
    ensures (256 * k + x) % 256 == x % 256
  {
  }

  lemma Pow2Up(k: nat)
    ensures Pow2(k + 3) == 8 * Pow2(k) && Pow2(k + 5) == 32 * Pow2(k)
  {
    assert Pow2(k + 1) == 2 * Pow2(k) && Pow2(k + 2) == 4 * Pow2(k);
    assert Pow2(k + 4) == 16 * Pow2(k);
  }

  /** With at least eight bits pending, the top eight are the next byte. */
  lemma EmitByte(q: int, v: int, idx: nat, k: nat)
    requires 0 <= v - q * Pow2(k + 3) < Pow2(k + 3) && idx < 32
    ensures var v' := 32 * v + idx;
            0 <= v' - (256 * q + v' / Pow2(k) % 256) * Pow2(k) < Pow2(k)
  {
    Pow2Up(k);
    var p := Pow2(k);
    var t := 32 * (v - q * (8 * p)) + idx;
    assert 32 * (q * (8 * p)) == p * (256 * q);
    TopByte(p, q, t);
    assert 32 * v + idx == p * (256 * q) + t;
  }

  lemma TopByte(p: nat, q: int, t: nat)
    requires 0 < p && t < 256 * p
    ensures var v := p * (256 * q) + t; 0 <= v - (256 * q + v / p % 256) * p < p
  {
    DivMod(t, p);
    DivLe(t, p);
    var b := t / p;
    if b >= 256 {
      MulMono(p, 256, b);
      assert false;
    }
    var m := 256 * q + b;
    assert p * (256 * q) + p * b == p * m;
    DivModUnique(p * (256 * q) + t, p, m, t % p);
    assert m % 256 == b;
    assert m * p == p * m;
  }

  lemma MulMono(p: nat, a: int, b: int)
    requires a <= b
    ensures p * a <= p * b
  {
    assert p * b == p * a + p * (b - a);
  }

  lemma SkipByte(q: int, v: int, idx: nat, bits: nat)
    requires 0 <= v - q * Pow2(bits) < Pow2(bits) && idx < 32
    ensures 0 <= 32 * v + idx - q * Pow2(bits + 5) < Pow2(bits + 5)
  {
    Pow2Up(bits);
    assert 32 * (q * Pow2(bits)) == q * (32 * Pow2(bits));
  }

  lemma BitCount(n: nat)
    ensures 5 * n % 8 < 3 ==> 5 * (n + 1) % 8 == 5 * n % 8 + 5 && 5 * (n + 1) / 8 == 5 * n / 8
    ensures 5 * n % 8 >= 3 ==> 5 * (n + 1) % 8 == 5 * n % 8 - 3 && 5 * (n + 1) / 8 == 5 * n / 8 + 1
  {
  }

  lemma ModStep(v: int, idx: int)
    ensures ((v % TWO_32) * 32 + idx) % TWO_32 == (v * 32 + idx) % TWO_32
  {
  }

  lemma DigitsStep(s: string, c: char)
    requires Decodable(s) && 0 <= Code(c)
    ensures Decodable(s + [c])
    ensures Value(32, Digits(s + [c])) == 32 * Value(32, Digits(s)) + Code(c)
  {
    assert (s + [c])[..|s|] == s;
    assert Digits(s + [c])[..|s|] == Digits(s);
  }

  /** The state of the loop after the characters `s`. */
  ghost predicate Progress(s: string, bytes: seq<int>, bits: nat, value: int) {
    && Decodable(s)
    && bits == 5 * |s| % 8
    && IsDecoding(s, bytes)
    && ToUint32(value) == Value(32, Digits(s)) % TWO_32
  }

  lemma Accumulate(s: string, c: char, value: int)
    requires Decodable(s) && 0 <= Code(c)
    requires ToUint32(value) == Value(32, Digits(s)) % TWO_32
    ensures Decodable(s + [c])
    ensures ToUint32(Or(Shl(value, 5), Code(c))) == Value(32, Digits(s + [c])) % TWO_32
  {
    DigitsStep(s, c);
    ShiftIn(value, Code(c));
    ModStep(Value(32, Digits(s)), Code(c));
  }

  lemma PushNoByte(s: string, c: char, bytes: seq<int>, bits: nat, value: int, value': int)
    requires Progress(s, bytes, bits, value) && 0 <= Code(c) && bits < 3
    requires value' == Or(Shl(value, 5), Code(c))
    ensures Progress(s + [c], bytes, bits + 5, value')
  {
    Accumulate(s, c, value);
    DigitsStep(s, c);
    BitCount(|s|);
    SkipByte(Value(256, bytes), Value(32, Digits(s)), Code(c), bits);
  }

  lemma EmittedByte(s: string, value: int, k: nat)
    requires Decodable(s) && k <= 4 && ToUint32(value) == Value(32, Digits(s)) % TWO_32
    ensures And(UShr(value, k), 255) == Value(32, Digits(s)) / Pow2(k) % 256
  {
    LowByte(value, k);
    ValueNonnegative(32, Digits(s));
    TruncationHarmless(Value(32, Digits(s)), k);
  }

  lemma PushByte(s: string, c: char, bytes: seq<int>, bits: nat, value: int, value': int)
    requires Progress(s, bytes, bits, value) && 0 <= Code(c) && bits >= 3
    requires value' == Or(Shl(value, 5), Code(c))
    ensures Progress(s + [c], bytes + [And(UShr(value', bits - 3), 255)], bits - 3, value')
  {
    hide Or;
    hide Shl;
    hide And;
    hide UShr;
    hide Code;
    var k := bits - 3;
    var b := And(UShr(value', k), 255);
    Accumulate(s, c, value);
    DigitsStep(s, c);
    BitCount(|s|);
    EmittedByte(s + [c], value', k);
    EmitByte(Value(256, bytes), Value(32, Digits(s)), Code(c), k);
    assert (bytes + [b])[..|bytes|] == bytes;
    assert Value(256, bytes + [b]) == 256 * Value(256, bytes) + b;
  }

  lemma ProgressStart(s: string)
    requires s == []
    ensures Progress(s, [], 0, 0)
  {
    assert Digits(s) == [];
  }

  method DecodeBase32(secret: string) returns (r: Option<seq<int>>)
    ensures r.Some? <==> exists core :: Spelled(secret, core)
    ensures forall core | Spelled(secret, core) :: r.Some? && Decodable(core) && IsDecoding(core, r.value)
    ensures forall bytes | InRange(bytes, 256) && IsEncoding(bytes, secret) :: r == Some(bytes)
  {
    hide *;
    r := DecodeCleaned(Cleaned(secret));
    forall bytes | InRange(bytes, 256) && IsEncoding(bytes, secret) ensures r == Some(bytes) {
      EncodingSpelled(bytes, secret);
      SpelledCleaned(secret, Encode(bytes));
      DecodeInvertsEncode(bytes, secret, r.value);
    }
    SpelledIff(secret);
    forall core | Spelled(secret, core) ensures core == Cleaned(secret) {
      SpelledCleaned(secret, core);
    }
  }

  method DecodeCleaned(cleaned: string) returns (r: Option<seq<int>>)
    ensures r.Some? <==> Decodable(cleaned)
    ensures r.Some? ==> IsDecoding(cleaned, r.value)
  {
    hide Or;
    hide Shl;
    hide And;
    hide UShr;
    hide IsDecoding;
    hide IndexOf;
    var bytes: seq<int> := [];
    var bits, value := 0, 0;
    ProgressStart(cleaned[..0]);
    for i := 0 to |cleaned|
      invariant Progress(cleaned[..i], bytes, bits, value)
    {
      var index := IndexOf(ALPHABET, cleaned[i]);
      CodeIsIndexOf(cleaned[i]);
      if index == -1 {
        return None;
      }
      ghost var s, before := cleaned[..i], value;
      value := Or(Shl(value, 5), index);
      assert cleaned[..i + 1] == s + [cleaned[i]];
      bits := bits + 5;
      if bits >= 8 {
        PushByte(s, cleaned[i], bytes, bits - 5, before, value);
        bytes := bytes + [And(UShr(value, bits - 8), 255)];
        bits := bits - 8;
      } else {
        PushNoByte(s, cleaned[i], bytes, bits - 5, before, value);
      }
    }
    assert cleaned[..|cleaned|] == cleaned;
    r := Some(bytes);
  }

  // ---- Section 6 of RFC 4648: the reference encoding, on bit strings ----

  /** The `k` low bits of `n`, most significant first. */
  function Bits(n: int, k: nat): (bs: seq<int>)
    ensures |bs| == k && InRange(bs, 2)
    decreases k
  {
    if k == 0 then [] else Bits(n / 2, k - 1) + [n % 2]
  }

  function BitString(bytes: seq<int>): (bs: seq<int>)
    ensures |bs| == 8 * |bytes| && InRange(bs, 2)
  {
    if bytes == [] then [] else BitString(bytes[..|bytes| - 1]) + Bits(bytes[|bytes| - 1], 8)
  }

  function Zeros(k: nat): (bs: seq<int>)
    ensures |bs| == k && InRange(bs, 2)
  {
    seq(k, _ => 0)
  }

  /** A bit string cut into five-bit groups, each read as a number. */
  function Groups(bs: seq<int>): (ds: seq<int>)
    requires |bs| % 5 == 0 && InRange(bs, 2)
    ensures |ds| == |bs| / 5 && InRange(ds, 32)
  {
    if bs == [] then []
    else
      var n := |bs| - 5;
      var g := 16 * bs[n] + 8 * bs[n + 1] + 4 * bs[n + 2] + 2 * bs[n + 3] + bs[n + 4];
      Groups(bs[..n]) + [g]
  }

  /** Zero bits are added on the right to fill the last group. */
  function FillBits(n: nat): (z: nat)
    ensures z < 5 && (8 * n + z) % 5 == 0
  {
    (5 - 8 * n % 5) % 5
  }

  lemma FillCount(n: nat)
    ensures var m := (8 * n + FillBits(n)) / 5; 5 * m % 8 == FillBits(n) && 5 * m / 8 == n
  {
    var z := FillBits(n);
    var m := (8 * n + z) / 5;
    assert 5 * m == 8 * n + z;
    DivModUnique(5 * m, 8, n, z);
  }

  function FilledBits(bytes: seq<int>): (bs: seq<int>)
    ensures |bs| == 8 * |bytes| + FillBits(|bytes|) && |bs| % 5 == 0 && InRange(bs, 2)
  {
    BitString(bytes) + Zeros(FillBits(|bytes|))
  }

  function EncodedDigits(bytes: seq<int>): (ds: seq<int>)
    ensures |ds| == (8 * |bytes| + FillBits(|bytes|)) / 5 && InRange(ds, 32)
  {
    Groups(FilledBits(bytes))
  }

  /** The encoding without its padding characters. */
  function Encode(bytes: seq<int>): string {
    var ds := EncodedDigits(bytes);
    seq(|ds|, i requires 0 <= i < |ds| => Letter(ds[i]))
  }

  /** `text` spells the encoding of `bytes`: in either case, with blanks anywhere, then any run of `=`. */
  ghost predicate IsEncoding(bytes: seq<int>, text: string) {
    Spelled(text, Encode(bytes))
  }

  lemma EncodeDigits(bytes: seq<int>)
    ensures Decodable(Encode(bytes))
    ensures Digits(Encode(bytes)) == EncodedDigits(bytes)
  {
    var ds := EncodedDigits(bytes);
  }

  lemma {:induction false} ValueConcat(x: seq<int>, y: seq<int>)
    ensures Value(2, x + y) == Value(2, x) * Pow2(|y|) + Value(2, y)
  {
    if y == [] {
      assert x + y == x;
    } else {
      var n := |y| - 1;
      ValueConcat(x, y[..n]);
      assert (x + y)[..|x + y| - 1] == x + y[..n];
      assert 2 * (Value(2, x) * Pow2(n)) == Value(2, x) * Pow2(|y|);
    }
  }

  lemma {:induction false} ValueZeros(k: nat)
    ensures Value(2, Zeros(k)) == 0
  {
    if k > 0 {
      ValueZeros(k - 1);
      assert Zeros(k)[..k - 1] == Zeros(k - 1);
    }
  }

  lemma {:induction false} ValueBits(n: nat, k: nat)
    requires n < Pow2(k)
    ensures Value(2, Bits(n, k)) == n
    decreases k
  {
    if k > 0 {
      ValueBits(n / 2, k - 1);
      assert Bits(n, k)[..k - 1] == Bits(n / 2, k - 1);
    }
  }

  lemma {:induction false} ValueBitString(bytes: seq<int>)
    requires InRange(bytes, 256)
    ensures Value(2, BitString(bytes)) == Value(256, bytes)
  {
    if bytes != [] {
      var n := |bytes| - 1;
      ValueBitString(bytes[..n]);
      assert Pow2(8) == 256 by { Pow2Values(); }
      ValueBits(bytes[n], 8);
      ValueConcat(BitString(bytes[..n]), Bits(bytes[n], 8));
      assert Value(2, BitString(bytes)) == Value(2, BitString(bytes[..n])) * 256 + bytes[n];
    }
  }

  lemma ValuePrefix(bs: seq<int>, n: nat)
    requires n < |bs|
    ensures Value(2, bs[..n + 1]) == 2 * Value(2, bs[..n]) + bs[n]
  {
    assert bs[..n + 1][..n] == bs[..n];
  }

  lemma ValueFive(bs: seq<int>, n: nat)
    requires n + 5 == |bs|
    ensures Value(2, bs) == 32 * Value(2, bs[..n])
                            + 16 * bs[n] + 8 * bs[n + 1] + 4 * bs[n + 2] + 2 * bs[n + 3] + bs[n + 4]
  {
    ValuePrefix(bs, n);
    ValuePrefix(bs, n + 1);
    ValuePrefix(bs, n + 2);
    ValuePrefix(bs, n + 3);
    ValuePrefix(bs, n + 4);
    assert bs[..n + 5] == bs;
  }

  lemma {:induction false} ValueGroups(bs: seq<int>)
    requires |bs| % 5 == 0 && InRange(bs, 2)
    ensures Value(32, Groups(bs)) == Value(2, bs)
  {
    if bs != [] {
      var n := |bs| - 5;
      ValueGroups(bs[..n]);
      ValueFive(bs, n);
      var g := Groups(bs);
      assert g[..|g| - 1] == Groups(bs[..n]);
    }
  }

  lemma DecodingBounds(s: string, bytes: seq<int>, z: nat)
    requires Decodable(s) && IsDecoding(s, bytes) && 5 * |s| % 8 == z
    ensures 0 <= Value(32, Digits(s)) - Value(256, bytes) * Pow2(z) < Pow2(z)
  {
  }

  lemma SameQuotient(v: int, p: nat, x: int, y: int)
    requires 0 <= v - x * p < p && v == y * p
    ensures x == y
  {
    assert p * x == x * p && p * y == y * p;
    DivModUnique(v, p, x, v - x * p);
    DivModUnique(v, p, y, 0);
  }

  lemma EncodedValue(bytes: seq<int>)
    requires InRange(bytes, 256)
    ensures Value(32, EncodedDigits(bytes)) == Value(256, bytes) * Pow2(FillBits(|bytes|))
  {
    var z := FillBits(|bytes|);
    ValueGroups(FilledBits(bytes));
    ValueConcat(BitString(bytes), Zeros(z));
    ValueZeros(z);
    ValueBitString(bytes);
  }

  lemma EncodeLength(bytes: seq<int>)
    ensures |Encode(bytes)| == (8 * |bytes| + FillBits(|bytes|)) / 5
  {
    hide FillBits;
  }

  /** The encoding has the length and the number that decoding reads back. */
  lemma EncodedShape(bytes: seq<int>)
    requires InRange(bytes, 256)
    ensures var s, z := Encode(bytes), FillBits(|bytes|);
            && Decodable(s) && 5 * |s| % 8 == z && 5 * |s| / 8 == |bytes|
            && Value(32, Digits(s)) == Value(256, bytes) * Pow2(z)
  {
    hide *;
    EncodeDigits(bytes);
    EncodeLength(bytes);
    EncodedValue(bytes);
    FillCount(|bytes|);
  }

  /** Two byte strings of one length whose numbers agree with that of `s` are equal. */
  lemma DecodingIsUnique(s: string, out: seq<int>, bytes: seq<int>, z: nat)
    requires Decodable(s) && IsDecoding(s, out) && InRange(bytes, 256)
    requires 5 * |s| % 8 == z && 5 * |s| / 8 == |bytes|
    requires Value(32, Digits(s)) == Value(256, bytes) * Pow2(z)
    ensures out == bytes
  {
    DecodingBounds(s, out, z);
    assert InRange(out, 256) && |out| == |bytes|;
    hide *;
    SameQuotient(Value(32, Digits(s)), Pow2(z), Value(256, out), Value(256, bytes));
    ValueInjective(256, out, bytes);
  }

  lemma EncodingSpelled(bytes: seq<int>, text: string)
    requires IsEncoding(bytes, text)
    ensures Spelled(text, Encode(bytes))
  {
  }

  /** Any decoding of any RFC 4648 encoding of `bytes` is `bytes`. */
  lemma DecodeInvertsEncode(bytes: seq<int>, text: string, out: seq<int>)
    requires InRange(bytes, 256) && IsEncoding(bytes, text)
    requires Decodable(Cleaned(text)) ==> IsDecoding(Cleaned(text), out)
    ensures Decodable(Cleaned(text)) && out == bytes
  {
    hide *;
    EncodingSpelled(bytes, text);
    SpelledCleaned(text, Encode(bytes));
    EncodedShape(bytes);
    DecodingIsUnique(Encode(bytes), out, bytes, FillBits(|bytes|));
  }
}
