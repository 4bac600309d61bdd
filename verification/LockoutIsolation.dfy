/**
 Whose failures lock whom (app/services/bruteforce_service.py:17-29 and 41-54). The key that a failure sets is
 the counter key with every "failed" replaced, so an account whose address contains "failed" sets the lock of
 the account with "lockout" in its place, and never its own.
 */
module LockoutIsolation {
  import opened Prelude
  import opened Text
  import opened LockoutKeys
  import opened Lockout
  import opened LockoutRate

  // ---- What the replacement can give ----

  /** Where "failed" was, "lockout" is. */
  lemma {:induction false} ReplacementShows(s: string)
    requires Occurs(FAILED, s)
    ensures Occurs(LOCKOUT, Replace(s, FAILED, LOCKOUT))
    decreases |s|
  {
    hide Occurs;
    if |s| < |FAILED| {
      CountZero(s, FAILED);
    } else if s[..|FAILED|] == FAILED {
      ReplaceHit(s[|FAILED|..], FAILED, LOCKOUT);
      assert s == FAILED + s[|FAILED|..];
      StartsWith(LOCKOUT, Replace(s[|FAILED|..], FAILED, LOCKOUT));
    } else {
      OccursTail(s, FAILED);
      ReplacementShows(s[1..]);
      OccursLater([s[0]], LOCKOUT, Replace(s[1..], FAILED, LOCKOUT));
    }
  }

  lemma StartsWith(pat: string, s: string)
    ensures Occurs(pat, pat + s)
  {
    assert OccursAt(pat, pat + s, 0);
  }

  lemma OccursLater(pre: string, pat: string, s: string)
    requires Occurs(pat, s)
    ensures Occurs(pat, pre + s)
  {
    var i :| 0 <= i <= |s| && OccursAt(pat, s, i);
    assert (pre + s)[|pre| + i..|pre| + i + |pat|] == s[i..i + |pat|];
    assert OccursAt(pat, pre + s, |pre| + i);
  }

  /** "failed" does not overlap itself, so putting it anywhere makes one occurrence there. */
  lemma NoOverlap(p: string, t: string)
    requires p != [] && !Occurs(FAILED, p + (LOCKOUT + t))
    ensures (p + (FAILED + t))[..|FAILED|] != FAILED
  {
    var s, y := p + (FAILED + t), p + (LOCKOUT + t);
    if |p| >= |FAILED| {
      assert s[..|FAILED|] == p[..|FAILED|] == y[..|FAILED|];
      assert OccursAt(FAILED, y, 0) <==> y[..|FAILED|] == FAILED;
    } else {
      assert s[..|FAILED|][|p|] == FAILED[0];
    }
  }

  /** Putting "failed" for one "lockout" of a text without "failed" is undone by the replacement. */
  lemma {:induction false} ReplacementUndone(p: string, t: string)
    requires !Occurs(FAILED, p + (LOCKOUT + t))
    ensures Replace(p + (FAILED + t), FAILED, LOCKOUT) == p + (LOCKOUT + t)
  {
    hide Occurs;
    if p == [] {
      ReplaceHit(t, FAILED, LOCKOUT);
      if Occurs(FAILED, t) {
        OccursLater(LOCKOUT, FAILED, t);
      }
      assert [] + (LOCKOUT + t) == LOCKOUT + t && [] + (FAILED + t) == FAILED + t;
      ReplaceIdentityIff(t, FAILED, LOCKOUT);
    } else {
      var s := p + (FAILED + t);
      NoOverlap(p, t);
      assert s[1..] == p[1..] + (FAILED + t);
      assert p + (LOCKOUT + t) == [p[0]] + (p[1..] + (LOCKOUT + t));
      if Occurs(FAILED, p[1..] + (LOCKOUT + t)) {
        OccursLater([p[0]], FAILED, p[1..] + (LOCKOUT + t));
      }
      ReplacementUndone(p[1..], t);
    }
  }

  /** Some other subject whose derived key is the lock of `y`, in lower case if `y` is. */
  lemma Impostor(y: string) returns (x: string)
    requires Occurs(LOCKOUT, y) && !Occurs(FAILED, y)
    ensures Replace(x, FAILED, LOCKOUT) == y && Occurs(FAILED, x) && (Lower(y) == y ==> Lower(x) == x)
  {
    var i :| 0 <= i <= |y| && OccursAt(LOCKOUT, y, i);
    var p, t := y[..i], y[i + |LOCKOUT|..];
    assert y == p + (LOCKOUT + t);
    x := p + (FAILED + t);
    ReplacementUndone(p, t);
    StartsWith(FAILED, t);
    OccursLater(p, FAILED, FAILED + t);
    if Lower(y) == y {
      LowerPieces(y, i);
    }
  }

  lemma LowerPieces(y: string, i: nat)
    requires Lower(y) == y && i + |LOCKOUT| <= |y|
    ensures var x := y[..i] + (FAILED + y[i + |LOCKOUT|..]); Lower(x) == x
  {
    var t := y[i + |LOCKOUT|..];
    var x := y[..i] + (FAILED + t);
    forall j | 0 <= j < |x| ensures LowerChar(x[j]) == x[j] {
      if j < i {
        assert x[j] == y[j] && LowerChar(y[j]) == Lower(y)[j];
      } else if j < i + |FAILED| {
        assert x[j] == FAILED[j - i];
      } else {
        var k := j - |FAILED| + |LOCKOUT|;
        assert x[j] == t[j - i - |FAILED|] == y[k] && LowerChar(y[k]) == Lower(y)[k];
      }
    }
  }

  /** The lock of `y` is derived from another subject's counter exactly when `y` contains "lockout" and no "failed". */
  lemma {:induction false} DerivedFromOthersIff(scope: Scope, y: string)
    ensures (exists x | x != y :: DerivedLockKey(CounterKey(scope, x)) == LockKey(scope, y))
            <==> Occurs(LOCKOUT, y) && !Occurs(FAILED, y)
  {
    hide Occurs;
    hide DerivedLockKey;
    hide CounterKey;
    hide LockKey;
    if x :| x != y && DerivedLockKey(CounterKey(scope, x)) == LockKey(scope, y) {
      DerivedIsReplaced(scope, x, y);
      ReplaceIdentityIff(x, FAILED, LOCKOUT);
      ReplacementShows(x);
      NotInReplaced(x);
    }
    if Occurs(LOCKOUT, y) && !Occurs(FAILED, y) {
      var x := Impostor(y);
      DerivedIsReplaced(scope, x, y);
    }
  }

  lemma DerivedIsReplaced(scope: Scope, x: string, y: string)
    ensures DerivedLockKey(CounterKey(scope, x)) == LockKey(scope, y) <==> Replace(x, FAILED, LOCKOUT) == y
  {
    DerivedKeyForm(scope, x);
    KeyNamesInjective(LOCKOUT, scope, Replace(x, FAILED, LOCKOUT), LOCKOUT, scope, y);
  }

  lemma NotInReplaced(x: string)
    ensures !Occurs(FAILED, Replace(x, FAILED, LOCKOUT))
  {
    forall i ensures !OccursAt(FAILED, Replace(x, FAILED, LOCKOUT), i) {
      ReplacedNeverContains(x, i);
    }
  }

  // ---- A subject without "lockout" is locked by its own failures only ----

  ghost predicate OwnFailures(lim: Limits, store: Store, count: nat, subject: string) {
    && (CounterKey(Account, subject) in store ==> store[CounterKey(Account, subject)].value <= count)
    && (LockKey(Account, subject) in store ==> lim.maxAttempts <= count)
  }

  lemma OwnRecordKey(lim: Limits, store: Store, now: Time, s2: Scope, x2: string, count: nat, subject: string)
    requires OwnFailures(lim, store, count, subject) && !Occurs(LOCKOUT, subject) && !Occurs(FAILED, subject)
    ensures var own := s2 == Account && x2 == subject;
            OwnFailures(lim, RecordKey(lim, store, now, CounterKey(s2, x2)), if own then count + 1 else count, subject)
  {
    hide CounterKey;
    hide LockKey;
    hide DerivedLockKey;
    hide Occurs;
    KeysApart(Account, subject, s2, x2);
    KeysApart(Account, subject, s2, Replace(x2, FAILED, LOCKOUT));
    KeysApart(s2, x2, Account, subject);
    DerivedFromOthersIff(Account, subject);
    assert s2 == Account && x2 != subject ==> DerivedLockKey(CounterKey(s2, x2)) != LockKey(Account, subject);
  }

  lemma OwnRecord(lim: Limits, store: Store, a: Attempt, count: nat, subject: string)
    requires OwnFailures(lim, store, count, subject) && !Occurs(LOCKOUT, subject) && !Occurs(FAILED, subject)
    ensures OwnFailures(lim, Record(lim, store, a.at, a.email, a.ip),
                        if Lower(a.email) == subject then count + 1 else count, subject)
  {
    hide CounterKey;
    hide LockKey;
    hide RecordKey;
    hide Occurs;
    hide OwnFailures;
    var one := RecordKey(lim, store, a.at, CounterKey(Account, Lower(a.email)));
    RecordUnfolds(lim, store, a.at, a.email, a.ip);
    OwnRecordKey(lim, store, a.at, Account, Lower(a.email), count, subject);
    if HasAddress(a.ip) {
      var count' := if Lower(a.email) == subject then count + 1 else count;
      OwnRecordKey(lim, one, a.at, Address, a.ip.value, count', subject);
    }
  }

  /** Over every schedule, such a subject's lock has taken the maximum of its own failures. */
  lemma {:induction false} LockTakesOwnFailures(lim: Limits, attempts: seq<Attempt>, subject: string)
    requires !Occurs(LOCKOUT, subject) && !Occurs(FAILED, subject)
    ensures OwnFailures(lim, Run(lim, map[], attempts), |Failures(lim, map[], attempts, subject)|, subject)
  {
    hide Record;
    hide Occurs;
    hide Locked;
    hide CounterKey;
    hide LockKey;
    if attempts != [] {
      var before, a := attempts[..|attempts| - 1], attempts[|attempts| - 1];
      LockTakesOwnFailures(lim, before, subject);
      if Gate(Run(lim, map[], before), a) == Rejected {
        OwnRecord(lim, Run(lim, map[], before), a, |Failures(lim, map[], before, subject)|, subject);
      }
    }
  }

  // ---- A subject with "failed" is never stopped ----

  /** Any number of wrong passwords for such an address are all checked, and lock the derived account. */
  lemma {:induction false} BurstUnstopped(lim: Limits, email: string, at: Time, n: nat)
    requires Occurs(FAILED, Lower(email))
    ensures var store := Run(lim, map[], Burst(email, at, n));
            && Attempts(store, at, CounterKey(Account, Lower(email))) == n
            && !Locked(store, at, email, None)
            && Failures(lim, map[], Burst(email, at, n), Lower(email)) == seq(n, _ => at)
            && (n >= lim.maxAttempts ==> Live(store, at, LockKey(Account, Replace(Lower(email), FAILED, LOCKOUT))))
    decreases n
  {
    hide LockKey;
    hide CounterKey;
    hide DerivedLockKey;
    hide Occurs;
    hide Replace;
    hide Locked;
    var x, b := Lower(email), Burst(email, at, n);
    ContainingFailedNeverLocks(lim, b, Account, x);
    LockedMeans(Run(lim, map[], b), at, email, None);
    if n > 0 {
      assert b[..n - 1] == Burst(email, at, n - 1);
      BurstUnstopped(lim, email, at, n - 1);
      var mid := Run(lim, map[], b[..n - 1]);
      assert After(lim, mid, b[n - 1]) == Record(lim, mid, at, email, None);
      RecordUnfolds(lim, mid, at, email, None);
      BurstStep(lim, mid, at, x, n);
      assert seq(n, _ => at) == seq(n - 1, _ => at) + [at];
    }
  }

  lemma BurstStep(lim: Limits, store: Store, at: Time, x: string, n: nat)
    requires n > 0 && Attempts(store, at, CounterKey(Account, x)) == n - 1
    ensures var after := RecordKey(lim, store, at, CounterKey(Account, x));
            && Attempts(after, at, CounterKey(Account, x)) == n
            && (n >= lim.maxAttempts ==> Live(after, at, LockKey(Account, Replace(x, FAILED, LOCKOUT))))
  {
    hide LockKey;
    hide CounterKey;
    hide DerivedLockKey;
    DerivedKeyForm(Account, x);
    KeysApart(Account, x, Account, x);
  }

  // ---- Main results ----

  lemma {:induction false} NoneOfItsOwn(lim: Limits, attempts: seq<Attempt>, subject: string)
    requires forall a | a in attempts :: Lower(a.email) != subject
    ensures Failures(lim, map[], attempts, subject) == []
  {
    if attempts != [] {
      var n := |attempts| - 1;
      assert attempts[n] in attempts && forall a | a in attempts[..n] :: a in attempts;
      NoneOfItsOwn(lim, attempts[..n], subject);
    }
  }

  lemma LockedInStore(store: Store, at: Time, email: string)
    ensures Locked(store, at, email, None) ==> LockKey(Account, Lower(email)) in store
  {
    LockedMeans(store, at, email, None);
  }

  /** The failures of another account alone, as many as the maximum, lock this one. */
  lemma LockedByImpostor(lim: Limits, email: string, at: Time) returns (attempts: seq<Attempt>)
    requires Occurs(LOCKOUT, Lower(email)) && !Occurs(FAILED, Lower(email))
    ensures Until(at, attempts, at) && forall a | a in attempts :: Lower(a.email) != Lower(email)
    ensures Locked(Run(lim, map[], attempts), at, email, None)
  {
    hide Occurs;
    hide Run;
    LowerIdempotent(email);
    var x := Impostor(Lower(email));
    attempts := Burst(x, at, lim.maxAttempts);
    BurstUnstopped(lim, x, at, lim.maxAttempts);
    BurstUntil(x, at, lim.maxAttempts);
    LockedMeans(Run(lim, map[], attempts), at, email, None);
  }

  /** A lock without enough failures of the account's own: its address contains "lockout" and no "failed". */
  lemma UnearnedLock(lim: Limits, attempts: seq<Attempt>, email: string)
    requires |Failures(lim, map[], attempts, Lower(email))| < lim.maxAttempts
    requires LockKey(Account, Lower(email)) in Run(lim, map[], attempts)
    ensures Occurs(LOCKOUT, Lower(email)) && !Occurs(FAILED, Lower(email))
  {
    hide Run;
    hide Occurs;
    hide Failures;
    if Occurs(FAILED, Lower(email)) {
      ContainingFailedNeverLocks(lim, attempts, Account, Lower(email));
    } else if !Occurs(LOCKOUT, Lower(email)) {
      LockTakesOwnFailures(lim, attempts, Lower(email));
    }
  }

  /**
   Isolation. Fewer failures of an account than the maximum can leave it locked exactly when its address contains
   "lockout" and no "failed"; and then failures of another account alone can.
   */
  lemma {:induction false} LockedByOthersIff(lim: Limits, email: string, at: Time)
    ensures (exists start, attempts ::
               Until(start, attempts, at)
               && |Failures(lim, map[], attempts, Lower(email))| < lim.maxAttempts
               && Locked(Run(lim, map[], attempts), at, email, None))
            <==> Occurs(LOCKOUT, Lower(email)) && !Occurs(FAILED, Lower(email))
    ensures (exists start, attempts: seq<Attempt> ::
               Until(start, attempts, at)
               && (forall a | a in attempts :: Lower(a.email) != Lower(email))
               && Locked(Run(lim, map[], attempts), at, email, None))
            <==> Occurs(LOCKOUT, Lower(email)) && !Occurs(FAILED, Lower(email))
  {
    hide Run;
    hide Occurs;
    hide Failures;
    hide Locked;
    hide Until;
    var y := Lower(email);
    forall attempts | |Failures(lim, map[], attempts, y)| < lim.maxAttempts
                      && Locked(Run(lim, map[], attempts), at, email, None)
      ensures Occurs(LOCKOUT, y) && !Occurs(FAILED, y)
    {
      LockedInStore(Run(lim, map[], attempts), at, email);
      UnearnedLock(lim, attempts, email);
    }
    forall attempts: seq<Attempt> | forall a | a in attempts :: Lower(a.email) != y
      ensures |Failures(lim, map[], attempts, y)| < lim.maxAttempts
    {
      NoneOfItsOwn(lim, attempts, y);
    }
    if Occurs(LOCKOUT, y) && !Occurs(FAILED, y) {
      var attempts := LockedByImpostor(lim, email, at);
    }
  }

  const IMPOSTOR: string := "failed@example.org"
  const VICTIM: string := "lockout@example.org"

  lemma ImpostorText()
    ensures Lower(IMPOSTOR) == IMPOSTOR && Lower(VICTIM) == VICTIM
    ensures Occurs(FAILED, IMPOSTOR) && Replace(IMPOSTOR, FAILED, LOCKOUT) == VICTIM
  {
    hide Replace;
    hide Occurs;
    var rest := "@example.org";
    assert IMPOSTOR == FAILED + rest && VICTIM == LOCKOUT + rest;
    StartsWith(FAILED, rest);
    ReplaceHit(rest, FAILED, LOCKOUT);
    ReplaceSkips(rest, [], FAILED, LOCKOUT);
    ReplaceNothing([], FAILED, LOCKOUT);
    assert rest + [] == rest;
  }

  /** The maximum of wrong passwords for "failed@example.org" locks "lockout@example.org" and not itself. */
  lemma FailedLocksLockout(lim: Limits, at: Time)
    ensures var store := Run(lim, map[], Burst(IMPOSTOR, at, lim.maxAttempts));
            Locked(store, at, VICTIM, None) && !Locked(store, at, IMPOSTOR, None)
  {
    hide Run;
    hide Occurs;
    hide Replace;
    hide Lower;
    hide LockKey;
    hide Locked;
    hide Live;
    ImpostorText();
    BurstUnstopped(lim, IMPOSTOR, at, lim.maxAttempts);
    LockedMeans(Run(lim, map[], Burst(IMPOSTOR, at, lim.maxAttempts)), at, VICTIM, None);
  }

  // ---- Where the rate bound ends ----

  lemma {:induction false} AllInSpan(at: Time, n: nat, from: Time, until: Time)
    requires from <= at < until
    ensures CountIn(seq(n, _ => at), from, until) == n
  {
    if n > 0 {
      assert seq(n, _ => at)[..n - 1] == seq(n - 1, _ => at);
      AllInSpan(at, n - 1, from, until);
    }
  }

  /** The rate bound for one account over one schedule and one span. */
  ghost predicate Bounded(lim: Limits, attempts: seq<Attempt>, subject: string, from: Time, n: nat) {
    CountIn(Failures(lim, map[], attempts, subject), from, from + n * (lim.ttlSeconds * 1_000_000))
    <= lim.maxAttempts * (n + 1)
  }

  lemma BurstUncleared(lim: Limits, email: string, at: Time, n: nat)
    ensures InOrder(at, Burst(email, at, n)) && !Cleared(lim, map[], Burst(email, at, n), Lower(email))
  {
  }

  /**
   The rate bound over spans of any positive length holds, for every schedule in which no login of the account
   gets through, exactly when its address contains no "failed".
   */
  lemma {:induction false} RateBoundIff(lim: Limits, email: string, n: nat)
    requires n > 0
    ensures !Occurs(FAILED, Lower(email)) <==>
              forall attempts, start, from: Time | InOrder(start, attempts)
                && !Cleared(lim, map[], attempts, Lower(email)) ::
                Bounded(lim, attempts, Lower(email), from, n)
  {
    hide Occurs;
    hide Failures;
    hide Cleared;
    hide Burst;
    var x := Lower(email);
    if !Occurs(FAILED, x) {
      forall attempts, start, from: Time | InOrder(start, attempts) && !Cleared(lim, map[], attempts, x)
        ensures Bounded(lim, attempts, x, from, n)
      {
        RateBound(lim, map[], start, attempts, x, from, n);
      }
    } else {
      var many := lim.maxAttempts * (n + 1) + 1;
      BurstUnstopped(lim, email, 0, many);
      BurstUncleared(lim, email, 0, many);
      PositiveProduct(n, lim.Ttl());
      AllInSpan(0, many, 0, n * lim.Ttl());
      assert !Bounded(lim, Burst(email, 0, many), x, 0, n);
    }
  }

  lemma PositiveProduct(n: nat, d: int)
    requires 0 < n && 0 < d
    ensures 0 < n * d
  {
  }
}
