/**
 The texts that the demo client's base32 decoder takes (docs/demo/script.js:199-209): cleaning, upper case and
 the alphabet of section 6 of RFC 4648.
 */
module Base32Text {
  const ALPHABET: string := "ABCDEFGHIJKLMNOPQRSTUVWXYZ234567"

  /** The characters that `\s` matches. */
  predicate IsSpace(c: char) {
    var n := c as int;
    || c == ' ' || 9 <= n <= 13 || n == 0xA0 || n == 0x1680 || 0x2000 <= n <= 0x200A
    || n in {0x2028, 0x2029, 0x202F, 0x205F, 0x3000, 0xFEFF}
  }

  /**
   The upper case of a character, where it is made of letters of the alphabet: of the ASCII letters, the dotless i,
   the long s, the sharp s and seven ligatures. Every other character stands for itself; neither it nor its
   upper case can be decoded.
   */
  function UpperOf(c: char): (r: string)
    ensures r != []
  {
    if 'a' <= c <= 'z' then [(c as int - 32) as char]
    else
      match c as int
      case 0xDF => "SS"
      case 0x131 => "I"
      case 0x17F => "S"
      case 0xFB00 => "FF"
      case 0xFB01 => "FI"
      case 0xFB02 => "FL"
      case 0xFB03 => "FFI"
      case 0xFB04 => "FFL"
      case 0xFB05 => "ST"
      case 0xFB06 => "ST"
      case _ => [c]
  }

  /** `toUpperCase()` */
  function Upper(s: string): string {
    if s == [] then [] else Upper(s[..|s| - 1]) + UpperOf(s[|s| - 1])
  }

  /** `replace(/=+$/, "")` */
  function StripPadding(s: string): string {
    if s != [] && s[|s| - 1] == '=' then StripPadding(s[..|s| - 1]) else s
  }

  /** `replace(/\s+/g, "")` */
  function RemoveSpaces(s: string): string {
    if s == [] then []
    else RemoveSpaces(s[..|s| - 1]) + (if IsSpace(s[|s| - 1]) then [] else [s[|s| - 1]])
  }

  function Cleaned(s: string): string {
    Upper(RemoveSpaces(StripPadding(s)))
  }

  /** `indexOf`: the first position of `c`, or -1. */
  function IndexOf(s: string, c: char): (i: int)
    ensures -1 <= i < |s|
    ensures i >= 0 ==> s[i] == c
    ensures i < 0 <==> c !in s
  {
    if s == [] then -1
    else if s[0] == c then 0
    else var i := IndexOf(s[1..], c); if i < 0 then -1 else i + 1
  }

  /** The digit of an alphabet letter, -1 for any other character. */
  function Code(c: char): (d: int)
    ensures -1 <= d < 32
  {
    if 'A' <= c <= 'Z' then c as int - 65
    else if '2' <= c <= '7' then c as int - 24
    else -1
  }

  function Letter(d: int): (c: char)
    requires 0 <= d < 32
    ensures Code(c) == d
  {
    if d < 26 then (d + 65) as char else (d + 24) as char
  }

  lemma AlphabetLetters(i: nat)
    requires i < 32
    ensures ALPHABET[i] == Letter(i)
  {
  }

  lemma CodeIsIndexOf(c: char)
    ensures IndexOf(ALPHABET, c) == Code(c)
  {
    var i := IndexOf(ALPHABET, c);
    if i >= 0 {
      AlphabetLetters(i);
    } else if Code(c) >= 0 {
      AlphabetLetters(Code(c));
    }
  }

  predicate Decodable(s: string) {
    forall i | 0 <= i < |s| :: 0 <= Code(s[i])
  }

  function Digits(s: string): (ds: seq<int>)
    requires Decodable(s)
    ensures |ds| == |s| && forall i | 0 <= i < |s| :: ds[i] == Code(s[i])
  {
    seq(|s|, i requires 0 <= i < |s| => Code(s[i]))
  }

  // ---- The same, said of the text as typed ----

  /** White space, character by character. */
  ghost const BLANKS: set<char> := {
    ' ', '\t', '\n', '\r', '\U{0B}', '\U{0C}', '\U{A0}', '\U{1680}', '\U{2000}', '\U{2001}', '\U{2002}', '\U{2003}',
    '\U{2004}', '\U{2005}', '\U{2006}', '\U{2007}', '\U{2008}', '\U{2009}', '\U{200A}', '\U{2028}', '\U{2029}',
    '\U{202F}', '\U{205F}', '\U{3000}', '\U{FEFF}'
  }

  lemma BlankIff(c: char)
    ensures IsSpace(c) <==> c in BLANKS
  {
  }

  function Capital(i: nat): char
    requires i < 32
  {
    "ABCDEFGHIJKLMNOPQRSTUVWXYZ234567"[i]
  }

  function Small(i: nat): char
    requires i < 32
  {
    "abcdefghijklmnopqrstuvwxyz234567"[i]
  }

  /** One typed character and the letters of the alphabet that it stands for. */
  ghost predicate Spells(c: char, letters: string) {
    || (exists i: nat | i < 32 :: letters == [Capital(i)] && (c == Capital(i) || c == Small(i)))
    || (c == '\U{131}' && letters == "I") || (c == '\U{17F}' && letters == "S") || (c == '\U{DF}' && letters == "SS")
    || (c == '\U{FB00}' && letters == "FF") || (c == '\U{FB01}' && letters == "FI")
    || (c == '\U{FB02}' && letters == "FL") || (c == '\U{FB03}' && letters == "FFI")
    || (c == '\U{FB04}' && letters == "FFL") || (c == '\U{FB05}' && letters == "ST")
    || (c == '\U{FB06}' && letters == "ST")
  }

  /** The text spells `core`, with blanks anywhere. */
  ghost predicate Spread(text: string, core: string) {
    if text == [] then core == []
    else
      || (text[0] in BLANKS && Spread(text[1..], core))
      || exists n | 0 < n <= |core| :: Spells(text[0], core[..n]) && Spread(text[1..], core[n..])
  }

  /** The text spells `core` and ends in any run of `=`. */
  ghost predicate Spelled(text: string, core: string) {
    exists n | 0 <= n <= |text| :: Spread(text[..n], core) && forall i | n <= i < |text| :: text[i] == '='
  }

  lemma {:induction false} UpperCons(c: char, s: string)
    ensures Upper([c] + s) == UpperOf(c) + Upper(s)
  {
    hide UpperOf;
    var t := [c] + s;
    if s == [] {
      assert t[..0] == [];
    } else {
      assert t[..|t| - 1] == [c] + s[..|s| - 1];
      UpperCons(c, s[..|s| - 1]);
    }
  }

  lemma {:induction false} SpacesCons(c: char, s: string)
    ensures RemoveSpaces([c] + s) == (if IsSpace(c) then [] else [c]) + RemoveSpaces(s)
  {
    hide IsSpace;
    var t := [c] + s;
    if s == [] {
      assert t[..0] == [];
    } else {
      assert t[..|t| - 1] == [c] + s[..|s| - 1];
      SpacesCons(c, s[..|s| - 1]);
    }
  }

  lemma CapitalCode(i: nat)
    requires i < 32
    ensures Capital(i) as int == if i < 26 then 65 + i else 24 + i
  {
  }

  lemma SmallCode(i: nat)
    requires i < 32
    ensures Small(i) as int == if i < 26 then 97 + i else 24 + i
  {
  }

  lemma LetterAt(i: nat)
    requires i < 32
    ensures UpperOf(Small(i)) == [Capital(i)] && UpperOf(Capital(i)) == [Capital(i)] && Code(Capital(i)) == i
    ensures !IsSpace(Capital(i)) && !IsSpace(Small(i)) && Capital(i) != '=' && Small(i) != '='
  {
    hide Capital;
    hide Small;
    CapitalCode(i);
    SmallCode(i);
  }

  lemma OneLetter(c: char)
    requires |UpperOf(c)| == 1 && Code(UpperOf(c)[0]) >= 0 && !(c as int in {0x131, 0x17F})
    ensures exists i: nat | i < 32 :: UpperOf(c) == [Capital(i)] && (c == Capital(i) || c == Small(i))
  {
    hide Capital;
    hide Small;
    var d := Code(UpperOf(c)[0]);
    CapitalCode(d);
    SmallCode(d);
    assert UpperOf(c) == [Capital(d)];
    assert c == Capital(d) || c == Small(d);
  }

  lemma SpelledLetters(c: char, letters: string)
    requires Spells(c, letters)
    ensures letters == UpperOf(c) && Decodable(letters) && !IsSpace(c) && c != '='
  {
    hide Capital;
    hide Small;
    if i: nat :| i < 32 && letters == [Capital(i)] && (c == Capital(i) || c == Small(i)) {
      LetterAt(i);
    }
  }

  /** Spelling is upper-casing, of characters that are no blanks and no padding. */
  lemma SpellsIff(c: char, letters: string)
    ensures Spells(c, letters) <==> letters == UpperOf(c) && Decodable(letters)
    ensures Spells(c, letters) ==> !IsSpace(c) && c != '='
  {
    hide Capital;
    hide Small;
    hide Code;
    if Spells(c, letters) {
      SpelledLetters(c, letters);
    }
    if letters == UpperOf(c) && Decodable(letters) && |letters| == 1 && !(c as int in {0x131, 0x17F}) {
      assert 0 <= Code(letters[0]);
      OneLetter(c);
    }
  }

  lemma DecodableParts(x: string, y: string)
    ensures Decodable(x + y) <==> Decodable(x) && Decodable(y)
  {
    assert forall i | 0 <= i < |x| :: (x + y)[i] == x[i];
    assert forall i | 0 <= i < |y| :: (x + y)[|x| + i] == y[i];
  }

  /** A text without padding spells what upper-casing makes of it without its blanks, if that can be decoded. */
  lemma {:induction false} SpreadIff(text: string, core: string)
    ensures Spread(text, core) <==> core == Upper(RemoveSpaces(text)) && Decodable(core) && '=' !in text
    decreases |text|, 1
  {
    hide IsSpace;
    hide UpperOf;
    hide Spells;
    if text != [] {
      var c, rest := text[0], text[1..];
      assert text == [c] + rest;
      BlankIff(c);
      SpacesCons(c, rest);
      if IsSpace(c) {
        BlankSpellsNothing(c);
        SpreadIff(rest, core);
        assert RemoveSpaces(text) == RemoveSpaces(rest);
      } else {
        UpperCons(c, RemoveSpaces(rest));
        SpreadStep(c, rest, core);
      }
    }
  }

  lemma BlankSpellsNothing(c: char)
    requires IsSpace(c)
    ensures c != '=' && forall letters :: !Spells(c, letters)
  {
    forall letters ensures !Spells(c, letters) {
      SpellsIff(c, letters);
    }
  }

  lemma {:induction false} SpreadStep(c: char, rest: string, core: string)
    requires !IsSpace(c) && RemoveSpaces([c] + rest) == [c] + RemoveSpaces(rest)
    requires Upper([c] + RemoveSpaces(rest)) == UpperOf(c) + Upper(RemoveSpaces(rest))
    ensures Spread([c] + rest, core)
            <==> core == Upper(RemoveSpaces([c] + rest)) && Decodable(core) && '=' !in [c] + rest
    decreases |rest| + 1, 0
  {
    hide IsSpace;
    hide UpperOf;
    hide Spells;
    var up, tail := UpperOf(c), Upper(RemoveSpaces(rest));
    var text := [c] + rest;
    BlankIff(c);
    assert text[1..] == rest;
    if Spread(text, core) {
      var n :| 0 < n <= |core| && Spells(c, core[..n]) && Spread(rest, core[n..]);
      SpellsIff(c, core[..n]);
      SpreadIff(rest, core[n..]);
      assert core == core[..n] + core[n..];
      DecodableParts(core[..n], core[n..]);
    }
    if core == up + tail && Decodable(core) && '=' !in text {
      assert core[..|up|] == up && core[|up|..] == tail;
      DecodableParts(up, tail);
      SpellsIff(c, up);
      SpreadIff(rest, tail);
      assert forall x | x in rest :: x in text;
    }
  }

  lemma {:induction false} StripPaddingSplit(text: string, n: nat)
    requires n <= |text| && forall i | n <= i < |text| :: text[i] == '='
    requires n == 0 || text[n - 1] != '='
    ensures StripPadding(text) == text[..n]
    decreases |text|
  {
    if n == |text| {
      assert text[..n] == text;
    } else {
      var t := text[..|text| - 1];
      StripPaddingSplit(t, n);
      assert t[..n] == text[..n];
    }
  }

  lemma {:induction false} StripPaddingForm(text: string)
    ensures var body := StripPadding(text);
            && |body| <= |text| && body == text[..|body|] && (body == [] || body[|body| - 1] != '=')
            && forall i | |body| <= i < |text| :: text[i] == '='
  {
    if text != [] && text[|text| - 1] == '=' {
      StripPaddingForm(text[..|text| - 1]);
    } else {
      assert text == text[..|text|];
    }
  }

  /** What a text spells is what cleaning leaves of it. */
  lemma SpelledCleaned(text: string, core: string)
    requires Spelled(text, core)
    ensures core == Cleaned(text) && Decodable(core)
  {
    hide Spread;
    var n :| 0 <= n <= |text| && Spread(text[..n], core) && forall i | n <= i < |text| :: text[i] == '=';
    SpreadIff(text[..n], core);
    assert n == 0 || text[n - 1] == text[..n][n - 1];
    StripPaddingSplit(text, n);
  }

  /** A text spells something exactly when cleaning leaves letters of the alphabet only. */
  lemma SpelledIff(text: string)
    ensures (exists core :: Spelled(text, core)) <==> Decodable(Cleaned(text))
  {
    hide Spread;
    if core :| Spelled(text, core) {
      SpelledCleaned(text, core);
    }
    if Decodable(Cleaned(text)) {
      var body := StripPadding(text);
      StripPaddingForm(text);
      PaddingStays(body);
      SpreadIff(body, Cleaned(text));
      assert Spelled(text, Cleaned(text));
    }
  }

  /** A `=` that cleaning does not strip stays, and cannot be decoded. */
  lemma {:induction false} PaddingStays(s: string)
    ensures Decodable(Upper(RemoveSpaces(s))) ==> '=' !in s
  {
    hide IsSpace;
    if s != [] {
      var c, rest := s[0], s[1..];
      assert s == [c] + rest;
      SpacesCons(c, rest);
      PaddingStays(rest);
      if !IsSpace(c) {
        UpperCons(c, RemoveSpaces(rest));
        DecodableParts(UpperOf(c), Upper(RemoveSpaces(rest)));
        assert c == '=' ==> UpperOf(c)[0] == '=';
      } else {
        BlankSpellsNothing(c);
        assert [] + RemoveSpaces(rest) == RemoveSpaces(rest);
      }
    }
  }
}
