/**
 The lockout as a function of the times at which passwords were wrong (app/services/bruteforce_service.py:7-38):
 what the counter and the lock of an account or of an address hold after every schedule.
 */
module LockoutExact {
  import opened Prelude
  import opened Text
  import opened LockoutKeys
  import opened Lockout
  import LockoutIsolation
  import LockoutRate

  /** The wrong passwords under a subject since its last success. */
  function Own(lim: Limits, attempts: seq<Attempt>, scope: Scope, subject: string): seq<Time> {
    if attempts == [] then []
    else
      var before, a := attempts[..|attempts| - 1], attempts[|attempts| - 1];
      var fails := Own(lim, before, scope, subject);
      if !LockoutRate.Mentions(a.email, a.ip, scope, subject) then fails
      else
        match Gate(Run(lim, map[], before), a)
        case Rejected => fails + [a.at]
        case Admitted => []
        case _ => fails
  }

  /**
   When the window of the last of these failures opened, and how many fell into it: a failure past the span opens
   a new one.
   */
  function Window(span: int, fails: seq<Time>): (w: (Time, nat))
    ensures fails != [] ==> w.1 > 0
  {
    if fails == [] then (0, 0)
    else
      var (open, count) := Window(span, fails[..|fails| - 1]);
      var at := fails[|fails| - 1];
      if count > 0 && at < open + span then (open, count + 1) else (at, 1)
  }

  /** Until when the failures lock: a span after the last one that filled its window. */
  function LockedUntil(span: int, max: int, fails: seq<Time>): Option<Time> {
    if fails == [] then None
    else if Window(span, fails).1 >= max then Some(fails[|fails| - 1] + span)
    else LockedUntil(span, max, fails[..|fails| - 1])
  }

  predicate LocksAt(span: int, max: int, fails: seq<Time>, now: Time) {
    var until := LockedUntil(span, max, fails); until.Some? && now < until.value
  }

  // ---- The key space holds exactly that ----

  ghost predicate CounterExact(store: Store, c: string, span: int, fails: seq<Time>) {
    if fails == [] then c !in store
    else c in store && store[c] == Entry(Window(span, fails).1, Some(Window(span, fails).0 + span))
  }

  /** The lock lasts at least that long, and exactly that long if no other subject sets it. */
  ghost predicate LockExact(store: Store, l: string, span: int, max: int, fails: seq<Time>, alone: bool) {
    match LockedUntil(span, max, fails)
    case Some(until) =>
      l in store && store[l].expires.Some? && until <= store[l].expires.value
      && (alone ==> store[l].expires.value == until)
    case None => alone ==> l !in store
  }

  ghost predicate Exact(lim: Limits, store: Store, scope: Scope, subject: string, fails: seq<Time>) {
    && CounterExact(store, CounterKey(scope, subject), lim.ttlSeconds * 1_000_000, fails)
    && LockExact(store, LockKey(scope, subject), lim.ttlSeconds * 1_000_000, lim.maxAttempts, fails,
                 !Occurs(LOCKOUT, subject))
  }

  lemma {:induction false} UntilBound(span: int, max: int, fails: seq<Time>, now: Time)
    requires forall i | 0 <= i < |fails| :: fails[i] <= now
    ensures LockedUntil(span, max, fails).Some? ==> LockedUntil(span, max, fails).value <= now + span
  {
    if fails != [] {
      UntilBound(span, max, fails[..|fails| - 1], now);
    }
  }

  /** A failure under the subject itself. */
  lemma OwnFailure(lim: Limits, store: Store, now: Time, scope: Scope, subject: string, fails: seq<Time>)
    requires Exact(lim, store, scope, subject, fails) && !Occurs(FAILED, subject)
    ensures Exact(lim, RecordKey(lim, store, now, CounterKey(scope, subject)), scope, subject, fails + [now])
  {
    hide CounterKey;
    hide LockKey;
    hide DerivedLockKey;
    hide Occurs;
    KeysApartHere(scope, subject, scope, subject);
    DerivedKeyIsLockKeyIff(scope, subject);
    assert (fails + [now])[..|fails|] == fails;
    var c, span := CounterKey(scope, subject), lim.ttlSeconds * 1_000_000;
    var (open, count) := Window(span, fails);
    assert Attempts(store, now, c) == if fails != [] && now < open + span then count else 0;
    var (open', count') := Window(span, fails + [now]);
    assert Bumped(lim, store, now, c)[c] == Entry(count', Some(open' + span));
  }

  lemma KeysApartHere(scope: Scope, subject: string, s2: Scope, x2: string)
    ensures CounterKey(scope, subject) != LockKey(s2, x2) && CounterKey(s2, x2) != LockKey(scope, subject)
    ensures CounterKey(scope, subject) == CounterKey(s2, x2) <==> scope == s2 && subject == x2
    ensures CounterKey(scope, subject) != DerivedLockKey(CounterKey(s2, x2))
    ensures s2 != scope ==> DerivedLockKey(CounterKey(s2, x2)) != LockKey(scope, subject)
  {
    LockoutRate.KeysApart(scope, subject, s2, x2);
    LockoutRate.KeysApart(s2, x2, scope, subject);
    LockoutRate.KeysApart(scope, subject, s2, Replace(x2, FAILED, LOCKOUT));
  }

  /** A failure under another subject: it may only prolong a lock, and only of a subject with "lockout". */
  lemma OtherFailure(lim: Limits, store: Store, now: Time, s2: Scope, x2: string, scope: Scope, subject: string,
          fails: seq<Time>)
    requires Exact(lim, store, scope, subject, fails) && !Occurs(FAILED, subject)
    requires !(s2 == scope && x2 == subject) && forall i | 0 <= i < |fails| :: fails[i] <= now
    ensures Exact(lim, RecordKey(lim, store, now, CounterKey(s2, x2)), scope, subject, fails)
  {
    hide CounterKey;
    hide LockKey;
    hide DerivedLockKey;
    hide Occurs;
    hide Window;
    hide LockedUntil;
    KeysApartHere(scope, subject, s2, x2);
    UntilBound(lim.ttlSeconds * 1_000_000, lim.maxAttempts, fails, now);
    LockoutIsolation.DerivedFromOthersIff(scope, subject);
    if s2 == scope && !Occurs(LOCKOUT, subject) {
      assert DerivedLockKey(CounterKey(scope, x2)) != LockKey(scope, subject);
    }
  }

  /** One failed login, under its account and its address. */
  lemma FailureExact(lim: Limits, store: Store, a: Attempt, scope: Scope, subject: string, fails: seq<Time>)
    requires Exact(lim, store, scope, subject, fails) && !Occurs(FAILED, subject)
    requires forall i | 0 <= i < |fails| :: fails[i] <= a.at
    ensures Exact(lim, Record(lim, store, a.at, a.email, a.ip), scope, subject,
                  if LockoutRate.Mentions(a.email, a.ip, scope, subject) then fails + [a.at] else fails)
  {
    hide Exact;
    hide RecordKey;
    hide CounterKey;
    hide Occurs;
    LockoutRate.RecordUnfolds(lim, store, a.at, a.email, a.ip);
    var one := RecordKey(lim, store, a.at, CounterKey(Account, Lower(a.email)));
    var fails1 := fails;
    if scope == Account && subject == Lower(a.email) {
      OwnFailure(lim, store, a.at, scope, subject, fails);
      fails1 := fails + [a.at];
    } else {
      OtherFailure(lim, store, a.at, Account, Lower(a.email), scope, subject, fails);
    }
    if HasAddress(a.ip) {
      if scope == Address && subject == a.ip.value {
        OwnFailure(lim, one, a.at, scope, subject, fails1);
      } else {
        OtherFailure(lim, one, a.at, Address, a.ip.value, scope, subject, fails1);
      }
    }
  }

  /** A login that gets through. */
  lemma SuccessExact(lim: Limits, store: Store, email: string, ip: Option<string>, scope: Scope, subject: string,
          fails: seq<Time>)
    requires Exact(lim, store, scope, subject, fails)
    ensures Exact(lim, Clear(store, email, ip), scope, subject,
                  if LockoutRate.Mentions(email, ip, scope, subject) then [] else fails)
  {
    hide CounterKey;
    hide LockKey;
    hide Occurs;
    hide Window;
    LockoutRate.ClearedKeys(email, ip, scope, subject);
  }

  lemma {:induction false} OwnTimes(lim: Limits, attempts: seq<Attempt>, scope: Scope, subject: string, i: nat)
    requires i < |Own(lim, attempts, scope, subject)|
    ensures exists k :: 0 <= k < |attempts| && Own(lim, attempts, scope, subject)[i] == attempts[k].at
  {
    hide Gate;
    if attempts != [] {
      var before := attempts[..|attempts| - 1];
      var fails := Own(lim, before, scope, subject);
      if i < |fails| && Own(lim, attempts, scope, subject)[i] == fails[i] {
        OwnTimes(lim, before, scope, subject, i);
        var k :| 0 <= k < |before| && fails[i] == before[k].at;
        assert before[k] == attempts[k];
      }
    }
  }

  /** After every schedule the counter and the lock of a subject without "failed" are what its own failures say. */
  lemma {:induction false} RunExact(lim: Limits, start: Time, attempts: seq<Attempt>, scope: Scope, subject: string)
    requires InOrder(start, attempts) && !Occurs(FAILED, subject)
    ensures Exact(lim, Run(lim, map[], attempts), scope, subject, Own(lim, attempts, scope, subject))
  {
    hide Record;
    hide Clear;
    hide Locked;
    hide Occurs;
    hide Exact;
    hide LockoutRate.Mentions;
    if attempts == [] {
      EmptyExact(lim, scope, subject);
    } else {
      var before, a := attempts[..|attempts| - 1], attempts[|attempts| - 1];
      var store, fails := Run(lim, map[], before), Own(lim, before, scope, subject);
      RunExact(lim, start, before, scope, subject);
      forall i | 0 <= i < |fails| ensures fails[i] <= a.at {
        OwnTimes(lim, before, scope, subject, i);
        var k :| 0 <= k < |before| && fails[i] == before[k].at;
        assert before[k] == attempts[k];
      }
      FailureExact(lim, store, a, scope, subject, fails);
      SuccessExact(lim, store, a.email, a.ip, scope, subject, fails);
    }
  }

  lemma EmptyExact(lim: Limits, scope: Scope, subject: string)
    ensures Exact(lim, map[], scope, subject, [])
  {
  }

  // ---- When the failures lock ----

  lemma {:induction false} WindowOpens(span: int, fails: seq<Time>)
    requires fails != [] && forall i, j | 0 <= i < j < |fails| :: fails[i] <= fails[j]
    ensures Window(span, fails).1 > 0 && Window(span, fails).0 <= fails[|fails| - 1]
  {
    if |fails| > 1 {
      WindowOpens(span, fails[..|fails| - 1]);
    }
  }

  /** After a gap of a span, failures within one span fill one window. */
  lemma {:induction false} WindowFills(span: int, fails: seq<Time>, i: nat)
    requires i < |fails| && forall x, y | 0 <= x < y < |fails| :: fails[x] <= fails[y]
    requires i > 0 ==> fails[i - 1] + span <= fails[i]
    requires fails[|fails| - 1] < fails[i] + span
    ensures Window(span, fails) == (fails[i], |fails| - i)
    decreases |fails|
  {
    var n := |fails| - 1;
    if n == i {
      if i > 0 {
        WindowOpens(span, fails[..n]);
      }
    } else {
      WindowFills(span, fails[..n], i);
    }
  }

  /** As many failures as the maximum within one span, after a gap of one, lock for a span from the last. */
  lemma EnoughLock(span: int, max: int, fails: seq<Time>)
    requires 0 < max <= |fails| && forall x, y | 0 <= x < y < |fails| :: fails[x] <= fails[y]
    requires var i := |fails| - max;
             (i > 0 ==> fails[i - 1] + span <= fails[i]) && fails[|fails| - 1] < fails[i] + span
    ensures LockedUntil(span, max, fails) == Some(fails[|fails| - 1] + span)
  {
    WindowFills(span, fails, |fails| - max);
  }

  lemma {:induction false} TooFew(span: int, max: int, fails: seq<Time>)
    requires |fails| < max
    ensures LockedUntil(span, max, fails) == None && Window(span, fails).1 <= |fails|
  {
    if fails != [] {
      TooFew(span, max, fails[..|fails| - 1]);
    }
  }
}
