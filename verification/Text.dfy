/** The Python string operations the services rely on, on ASCII letters. */
module Text {
  function LowerChar(c: char): char {
    if 'A' <= c <= 'Z' then (c as int + 32) as char else c
  }

  /** `s.lower()` */
  function Lower(s: string): (r: string)
    ensures |r| == |s| && forall i | 0 <= i < |s| :: r[i] == LowerChar(s[i])
  {
    seq(|s|, i requires 0 <= i < |s| => LowerChar(s[i]))
  }

  lemma LowerIdempotent(s: string)
    ensures Lower(Lower(s)) == Lower(s)
  {
  }

  /** Lower-casing takes each capital to its small letter and leaves every other character alone. */
  lemma LowerLetters(c: char)
    ensures Lower("ABCDEFGHIJKLM") == "abcdefghijklm" && Lower("NOPQRSTUVWXYZ") == "nopqrstuvwxyz"
    ensures !('A' <= c <= 'Z') ==> Lower([c]) == [c]
  {
  }

  lemma LowerConcat(x: string, y: string)
    ensures Lower(x + y) == Lower(x) + Lower(y)
  {
  }

  predicate OccursAt(pat: string, s: string, i: int) {
    0 <= i <= |s| - |pat| && s[i..i + |pat|] == pat
  }

  /** `pat in s` */
  predicate Occurs(pat: string, s: string) {
    exists i | 0 <= i <= |s| :: OccursAt(pat, s, i)
  }

  /** A text contains another when it is that text with something before and after. */
  lemma OccursIff(pat: string, s: string)
    ensures Occurs(pat, s) <==> exists a, b :: s == a + pat + b
  {
    if Occurs(pat, s) {
      var i :| 0 <= i <= |s| && OccursAt(pat, s, i);
      assert s == s[..i] + pat + s[i + |pat|..];
    }
    if a, b :| s == a + pat + b {
      assert (a + pat + b)[|a|..|a| + |pat|] == pat;
      assert OccursAt(pat, s, |a|);
    }
  }

  /** `s.replace(pat, sub)`: every occurrence, scanning from the left without overlap. */
  function Replace(s: string, pat: string, sub: string): string
    requires pat != []
  {
    if |s| < |pat| then s
    else if s[..|pat|] == pat then sub + Replace(s[|pat|..], pat, sub)
    else [s[0]] + Replace(s[1..], pat, sub)
  }

  /** The number of occurrences that `Replace` replaces. */
  function CountOf(s: string, pat: string): nat
    requires pat != []
  {
    if |s| < |pat| then 0
    else if s[..|pat|] == pat then 1 + CountOf(s[|pat|..], pat)
    else CountOf(s[1..], pat)
  }

  lemma {:induction false} ReplaceLength(s: string, pat: string, sub: string)
    requires pat != []
    ensures |Replace(s, pat, sub)| == |s| + CountOf(s, pat) * (|sub| - |pat|)
    decreases |s|
  {
    if |s| < |pat| {
    } else if s[..|pat|] == pat {
      ReplaceLength(s[|pat|..], pat, sub);
      OneMore(CountOf(s[|pat|..], pat), |sub| - |pat|);
    } else {
      ReplaceLength(s[1..], pat, sub);
    }
  }

  lemma OneMore(n: int, d: int)
    ensures (1 + n) * d == n * d + d
  {
  }

  lemma {:induction false} CountZero(s: string, pat: string)
    requires pat != []
    ensures CountOf(s, pat) == 0 <==> !Occurs(pat, s)
    decreases |s|
  {
    if |s| < |pat| {
    } else if s[..|pat|] == pat {
      assert OccursAt(pat, s, 0);
    } else {
      CountZero(s[1..], pat);
      OccursTail(s, pat);
    }
  }

  lemma OccursTail(s: string, pat: string)
    requires pat != [] && |s| >= |pat| && s[..|pat|] != pat
    ensures Occurs(pat, s) <==> Occurs(pat, s[1..])
  {
    if Occurs(pat, s) {
      var i :| 0 <= i <= |s| && OccursAt(pat, s, i);
      assert s[1..][i - 1..i - 1 + |pat|] == s[i..i + |pat|];
      assert OccursAt(pat, s[1..], i - 1);
    }
    if Occurs(pat, s[1..]) {
      var i :| 0 <= i <= |s[1..]| && OccursAt(pat, s[1..], i);
      assert s[1..][i..i + |pat|] == s[i + 1..i + 1 + |pat|];
      assert OccursAt(pat, s, i + 1);
    }
  }

  lemma {:induction false} ReplaceNothing(s: string, pat: string, sub: string)
    requires pat != [] && CountOf(s, pat) == 0
    ensures Replace(s, pat, sub) == s
    decreases |s|
  {
    if |s| >= |pat| {
      ReplaceNothing(s[1..], pat, sub);
    }
  }

  /** A replacement that changes the length leaves `s` alone exactly when there is nothing to replace. */
  lemma ReplaceIdentityIff(s: string, pat: string, sub: string)
    requires pat != [] && |sub| != |pat|
    ensures Replace(s, pat, sub) == s <==> !Occurs(pat, s)
  {
    CountZero(s, pat);
    ReplaceLength(s, pat, sub);
    var n, d := CountOf(s, pat), |sub| - |pat|;
    if n == 0 {
      ReplaceNothing(s, pat, sub);
    } else {
      NonzeroProduct(n, d);
    }
  }

  lemma NonzeroProduct(n: int, d: int)
    requires n != 0 && d != 0
    ensures n * d != 0
  {
  }

  /** Text that cannot begin an occurrence is copied. */
  lemma {:induction false} ReplaceSkips(pre: string, s: string, pat: string, sub: string)
    requires pat != [] && pat[0] !in pre
    ensures Replace(pre + s, pat, sub) == pre + Replace(s, pat, sub)
  {
    if pre == [] {
      assert pre + s == s;
    } else if |pre + s| >= |pat| {
      var t := pre + s;
      assert t[1..] == pre[1..] + s;
      assert t[..|pat|][0] == pre[0];
      ReplaceSkips(pre[1..], s, pat, sub);
      assert pre == [pre[0]] + pre[1..];
      assert Replace(t, pat, sub) == [pre[0]] + (pre[1..] + Replace(s, pat, sub));
    }
  }

  lemma ReplaceHit(s: string, pat: string, sub: string)
    requires pat != []
    ensures Replace(pat + s, pat, sub) == sub + Replace(s, pat, sub)
  {
    assert (pat + s)[..|pat|] == pat && (pat + s)[|pat|..] == s;
  }
}
