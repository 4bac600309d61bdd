/**
 The Redis key names of the brute-force service (app/services/bruteforce_service.py:17-54). A
 counter key and a lock key differ in one word, and the lock key that a failure sets is derived
 from the counter key by replacing that word everywhere in the key.
 */
module LockoutKeys {
  import opened Prelude
  import opened Text

  const NAMESPACE: string := "authcore:login:"
  const FAILED: string := "failed"
  const LOCKOUT: string := "lockout"

  datatype Scope = Account | Address

  function Tag(scope: Scope): string {
    match scope
    case Account => ":account:"
    case Address => ":ip:"
  }

  function KeyName(word: string, scope: Scope, subject: string): string {
    NAMESPACE + (word + (Tag(scope) + subject))
  }

  function CounterKey(scope: Scope, subject: string): string {
    KeyName(FAILED, scope, subject)
  }

  function LockKey(scope: Scope, subject: string): string {
    KeyName(LOCKOUT, scope, subject)
  }

  /** `counter_key.replace("failed", "lockout")` */
  function DerivedLockKey(counterKey: string): string {
    Replace(counterKey, FAILED, LOCKOUT)
  }

  /** `if ip_address:` - a missing and an empty address are both skipped. */
  predicate HasAddress(ip: Option<string>) {
    ip.Some? && ip.value != ""
  }

  function CounterKeys(email: string, ip: Option<string>): seq<string> {
    [CounterKey(Account, Lower(email))] + (if HasAddress(ip) then [CounterKey(Address, ip.value)] else [])
  }

  function LockKeys(email: string, ip: Option<string>): seq<string> {
    [LockKey(Account, Lower(email))] + (if HasAddress(ip) then [LockKey(Address, ip.value)] else [])
  }

  /** The word in the key's own name and every "failed" in the subject are replaced. */
  lemma DerivedKeyForm(scope: Scope, subject: string)
    ensures DerivedLockKey(CounterKey(scope, subject)) == LockKey(scope, Replace(subject, FAILED, LOCKOUT))
  {
    var tail := Tag(scope) + subject;
    assert FAILED[0] !in NAMESPACE && FAILED[0] !in Tag(scope);
    ReplaceSkips(NAMESPACE, FAILED + tail, FAILED, LOCKOUT);
    ReplaceHit(tail, FAILED, LOCKOUT);
    ReplaceSkips(Tag(scope), subject, FAILED, LOCKOUT);
  }

  lemma KeyNamesInjective(w1: string, s1: Scope, x1: string, w2: string, s2: Scope, x2: string)
    requires w1 in {FAILED, LOCKOUT} && w2 in {FAILED, LOCKOUT}
    ensures KeyName(w1, s1, x1) == KeyName(w2, s2, x2) <==> w1 == w2 && s1 == s2 && x1 == x2
  {
    if KeyName(w1, s1, x1) == KeyName(w2, s2, x2) {
      Cancel(NAMESPACE, w1 + (Tag(s1) + x1), w2 + (Tag(s2) + x2));
      assert w1[0] == (w1 + (Tag(s1) + x1))[0] == (w2 + (Tag(s2) + x2))[0] == w2[0];
      assert w1 == w2;
      Cancel(w1, Tag(s1) + x1, Tag(s2) + x2);
      assert Tag(s1)[1] == (Tag(s1) + x1)[1] == (Tag(s2) + x2)[1] == Tag(s2)[1];
      assert s1 == s2;
      Cancel(Tag(s1), x1, x2);
    }
  }

  lemma Cancel(p: string, x: string, y: string)
    requires p + x == p + y
    ensures x == y
  {
    assert x == (p + x)[|p|..] && y == (p + y)[|p|..];
  }

  /** A failure sets the lock that the check reads exactly when the subject contains no "failed". */
  lemma DerivedKeyIsLockKeyIff(scope: Scope, subject: string)
    ensures DerivedLockKey(CounterKey(scope, subject)) == LockKey(scope, subject)
            <==> !Occurs(FAILED, subject)
  {
    DerivedKeyForm(scope, subject);
    KeyNamesInjective(LOCKOUT, scope, Replace(subject, FAILED, LOCKOUT), LOCKOUT, scope, subject);
    ReplaceIdentityIff(subject, FAILED, LOCKOUT);
  }

  /** What `Replace` puts out starts with `c` only by copying it, unless it is the `l` of "lockout". */
  lemma FirstCopied(t: string)
    ensures var r := Replace(t, FAILED, LOCKOUT);
            r != [] && (r[0] != 'l' || (|r| > 1 && r[1] != 'o')) ==>
              t != [] && r == [t[0]] + Replace(t[1..], FAILED, LOCKOUT)
  {
    var r := Replace(t, FAILED, LOCKOUT);
    if |t| >= |FAILED| && t[..|FAILED|] == FAILED {
      assert r == LOCKOUT + Replace(t[|FAILED|..], FAILED, LOCKOUT);
      assert r[0] == 'l' && r[1] == 'o';
    } else if r != [] && |t| < |FAILED| {
      assert t == [t[0]] + t[1..];
    }
  }

  /** "failed" does not begin inside "lockout". */
  lemma AfterHit(rest: string, i: int)
    requires OccursAt(FAILED, LOCKOUT + rest, i)
    ensures OccursAt(FAILED, rest, i - |LOCKOUT|)
  {
    var r := LOCKOUT + rest;
    assert r[i] == r[i..i + |FAILED|][0] == 'f';
    assert r[i..i + |FAILED|] == rest[i - |LOCKOUT|..i - |LOCKOUT| + |FAILED|];
  }

  lemma InTail(c: char, rest: string, i: int)
    requires i != 0 && OccursAt(FAILED, [c] + rest, i)
    ensures OccursAt(FAILED, rest, i - 1)
  {
    assert ([c] + rest)[i..i + |FAILED|] == rest[i - 1..i - 1 + |FAILED|];
  }

  /** No replacement result contains "failed", so no failure ever sets such a subject's lock. */
  lemma {:induction false} ReplacedNeverContains(s: string, i: int)
    ensures !OccursAt(FAILED, Replace(s, FAILED, LOCKOUT), i)
    decreases |s|
  {
    hide OccursAt;
    if |s| < |FAILED| {
      TooShort(s, i);
    } else if s[..|FAILED|] == FAILED {
      if OccursAt(FAILED, Replace(s, FAILED, LOCKOUT), i) {
        AfterHit(Replace(s[|FAILED|..], FAILED, LOCKOUT), i);
        ReplacedNeverContains(s[|FAILED|..], i - |LOCKOUT|);
      }
    } else if i == 0 {
      NotAtStart(s);
    } else if OccursAt(FAILED, Replace(s, FAILED, LOCKOUT), i) {
      InTail(s[0], Replace(s[1..], FAILED, LOCKOUT), i);
      ReplacedNeverContains(s[1..], i - 1);
    }
  }

  lemma TooShort(s: string, i: int)
    requires |s| < |FAILED|
    ensures !OccursAt(FAILED, s, i)
  {
  }

  lemma NotAtStart(s: string)
    requires |s| >= |FAILED| && s[..|FAILED|] != FAILED
    ensures !OccursAt(FAILED, Replace(s, FAILED, LOCKOUT), 0)
  {
    hide Replace;
    if OccursAt(FAILED, Replace(s, FAILED, LOCKOUT), 0) {
      CopiedWord(s, FAILED);
    }
  }

  lemma {:induction false} CopiedWord(t: string, w: string)
    requires var r := Replace(t, FAILED, LOCKOUT); |w| <= |r| && r[..|w|] == w
    requires forall j | 0 <= j < |w| :: w[j] == 'l' ==> j + 1 < |w| && w[j + 1] != 'o'
    ensures |w| <= |t| && t[..|w|] == w
    decreases |w|
  {
    if w != [] {
      var r := Replace(t, FAILED, LOCKOUT);
      assert r[0] == w[0] && (|w| > 1 ==> r[1] == w[1]);
      FirstCopied(t);
      var rest := Replace(t[1..], FAILED, LOCKOUT);
      assert rest[..|w| - 1] == r[..|w|][1..] == w[1..];
      CopiedWord(t[1..], w[1..]);
      assert w == [w[0]] + w[1..] && t == [t[0]] + t[1..];
    }
  }
}
