/**
 What the lockout guarantees over whole schedules of login attempts: the invariant that ties each
 counter to its lock, and the bound on failed password checks for an account.
 */
module LockoutRate {
  import opened Prelude
  import opened Text
  import opened LockoutKeys
  import opened Lockout

  // ---- The invariant of one counter and its lock ----

  /** What holds between the counter and the lock of a subject at every instant. */
  ghost predicate Sound(lim: Limits, store: Store, now: Time, scope: Scope, subject: string) {
    var c, l := CounterKey(scope, subject), LockKey(scope, subject);
    && (c in store ==> store[c].expires.Some? && store[c].expires.value <= now + lim.Ttl())
    && (l in store ==> store[l].expires.Some?)
    && (Live(store, now, c) ==> 1 <= store[c].value <= lim.maxAttempts)
    && (Live(store, now, c) && store[c].value == lim.maxAttempts ==> Live(store, now, l))
    && (Live(store, now, c) && Live(store, now, l) ==> store[c].expires.value <= store[l].expires.value)
  }

  lemma SoundLater(lim: Limits, store: Store, now: Time, later: Time, scope: Scope, subject: string)
    requires Sound(lim, store, now, scope, subject) && now <= later
    ensures Sound(lim, store, later, scope, subject)
  {
  }

  /** Every counter key that a failure bumps, with its derived lock key. */
  lemma KeysApart(scope: Scope, subject: string, s2: Scope, x2: string)
    ensures CounterKey(scope, subject) != LockKey(s2, x2)
    ensures CounterKey(scope, subject) == CounterKey(s2, x2) <==> scope == s2 && subject == x2
    ensures LockKey(scope, subject) == LockKey(s2, x2) <==> scope == s2 && subject == x2
    ensures CounterKey(scope, subject) != DerivedLockKey(CounterKey(s2, x2))
    ensures DerivedLockKey(CounterKey(s2, x2)) == LockKey(s2, Replace(x2, FAILED, LOCKOUT))
  {
    hide KeyName;
    hide DerivedLockKey;
    DerivedKeyForm(s2, x2);
    KeyNamesInjective(FAILED, scope, subject, LOCKOUT, s2, x2);
    KeyNamesInjective(FAILED, scope, subject, FAILED, s2, x2);
    KeyNamesInjective(LOCKOUT, scope, subject, LOCKOUT, s2, x2);
    KeyNamesInjective(FAILED, scope, subject, LOCKOUT, s2, Replace(x2, FAILED, LOCKOUT));
  }

  lemma SoundRecordKey(lim: Limits, store: Store, now: Time, scope: Scope, subject: string, s2: Scope, x2: string)
    requires Sound(lim, store, now, scope, subject) && !Occurs(FAILED, subject)
    requires scope == s2 && subject == x2 ==> !Live(store, now, LockKey(scope, subject))
    ensures Sound(lim, RecordKey(lim, store, now, CounterKey(s2, x2)), now, scope, subject)
  {
    hide CounterKey;
    hide LockKey;
    hide DerivedLockKey;
    KeysApart(scope, subject, s2, x2);
    DerivedKeyIsLockKeyIff(scope, subject);
  }

  lemma RecordUnfolds(lim: Limits, store: Store, now: Time, email: string, ip: Option<string>)
    ensures var one := RecordKey(lim, store, now, CounterKey(Account, Lower(email)));
            Record(lim, store, now, email, ip)
            == if HasAddress(ip) then RecordKey(lim, one, now, CounterKey(Address, ip.value)) else one
  {
    hide CounterKey;
    hide RecordKey;
    var first := CounterKey(Account, Lower(email));
    var keys := CounterKeys(email, ip);
    assert [first][..0] == [];
    assert RecordKeys(lim, store, now, [first]) == RecordKey(lim, store, now, first);
    if HasAddress(ip) {
      assert keys == [first, CounterKey(Address, ip.value)] && keys[..1] == [first];
    } else {
      assert keys == [first];
    }
  }

  /** Recording under one key leaves the locks of the other scope alone. */
  lemma OtherScopeUntouched(lim: Limits, store: Store, now: Time, s2: Scope, x2: string, scope: Scope, subject: string)
    requires scope != s2
    ensures var after := RecordKey(lim, store, now, CounterKey(s2, x2));
            Live(after, now, LockKey(scope, subject)) == Live(store, now, LockKey(scope, subject))
  {
    hide CounterKey;
    hide LockKey;
    hide DerivedLockKey;
    KeysApart(s2, x2, scope, subject);
    KeysApart(scope, subject, s2, x2);
    KeysApart(scope, subject, s2, Replace(x2, FAILED, LOCKOUT));
  }

  lemma LockedMeans(store: Store, now: Time, email: string, ip: Option<string>)
    ensures Locked(store, now, email, ip)
            <==> Live(store, now, LockKey(Account, Lower(email)))
                 || (HasAddress(ip) && Live(store, now, LockKey(Address, ip.value)))
  {
    hide LockKey;
    var keys := LockKeys(email, ip);
    assert LockKey(Account, Lower(email)) == keys[0];
    if HasAddress(ip) {
      assert LockKey(Address, ip.value) == keys[1];
    }
  }

  lemma SoundRecord(lim: Limits, store: Store, now: Time, email: string, ip: Option<string>, scope: Scope,
          subject: string)
    requires Sound(lim, store, now, scope, subject) && !Occurs(FAILED, subject)
    requires !Locked(store, now, email, ip)
    ensures Sound(lim, Record(lim, store, now, email, ip), now, scope, subject)
  {
    hide RecordKey;
    hide Sound;
    LockedMeans(store, now, email, ip);
    RecordUnfolds(lim, store, now, email, ip);
    SoundRecordKey(lim, store, now, scope, subject, Account, Lower(email));
    if HasAddress(ip) {
      var one := RecordKey(lim, store, now, CounterKey(Account, Lower(email)));
      OtherScopeUntouched(lim, store, now, Account, Lower(email), Address, ip.value);
      SoundRecordKey(lim, one, now, scope, subject, Address, ip.value);
    }
  }

  lemma SoundClear(lim: Limits, store: Store, now: Time, email: string, ip: Option<string>, scope: Scope,
          subject: string)
    requires Sound(lim, store, now, scope, subject)
    ensures Sound(lim, Clear(store, email, ip), now, scope, subject)
  {
    hide CounterKey;
    hide LockKey;
    ClearedKeys(email, ip, scope, subject);
  }

  /** Clearing removes a counter and its lock together, and nobody else's. */
  lemma ClearedKeys(email: string, ip: Option<string>, scope: Scope, subject: string)
    ensures var keys := CounterKeys(email, ip) + LockKeys(email, ip);
            && (CounterKey(scope, subject) in keys <==> Mentions(email, ip, scope, subject))
            && (LockKey(scope, subject) in keys <==> Mentions(email, ip, scope, subject))
  {
    hide CounterKey;
    hide LockKey;
    KeysApart(scope, subject, Account, Lower(email));
    KeysApart(Account, Lower(email), scope, subject);
    if HasAddress(ip) {
      KeysApart(scope, subject, Address, ip.value);
      KeysApart(Address, ip.value, scope, subject);
      var keys := CounterKeys(email, ip) + LockKeys(email, ip);
      assert keys == [CounterKey(Account, Lower(email)), CounterKey(Address, ip.value),
                      LockKey(Account, Lower(email)), LockKey(Address, ip.value)];
    }
  }

  predicate Mentions(email: string, ip: Option<string>, scope: Scope, subject: string) {
    match scope
    case Account => subject == Lower(email)
    case Address => HasAddress(ip) && subject == ip.value
  }

  lemma SoundStep(lim: Limits, store: Store, now: Time, a: Attempt, scope: Scope, subject: string)
    requires Sound(lim, store, now, scope, subject) && !Occurs(FAILED, subject) && now <= a.at
    ensures Sound(lim, After(lim, store, a), a.at, scope, subject)
  {
    hide Record;
    hide Clear;
    SoundLater(lim, store, now, a.at, scope, subject);
    match Gate(store, a)
    case Rejected => SoundRecord(lim, store, a.at, a.email, a.ip, scope, subject);
    case Admitted => SoundClear(lim, store, a.at, a.email, a.ip, scope, subject);
    case _ =>
  }

  /** Every schedule keeps the invariant, from any state that has it; the empty store has it. */
  lemma {:induction false} LockoutInvariant(lim: Limits, store: Store, start: Time, attempts: seq<Attempt>,
          scope: Scope, subject: string)
    requires Sound(lim, store, start, scope, subject) && !Occurs(FAILED, subject) && InOrder(start, attempts)
    ensures Sound(lim, Run(lim, store, attempts), LastTime(start, attempts), scope, subject)
  {
    hide Sound;
    if attempts != [] {
      var before, a := attempts[..|attempts| - 1], attempts[|attempts| - 1];
      LockoutInvariant(lim, store, start, before, scope, subject);
      assert LastTime(start, before) <= a.at;
      SoundStep(lim, Run(lim, store, before), LastTime(start, before), a, scope, subject);
    }
  }

  /** Once a lock has lifted its counter is gone too: the next failure counts as the first. */
  lemma LiftedLockIsFreshBudget(lim: Limits, store: Store, now: Time, later: Time, scope: Scope, subject: string)
    requires Sound(lim, store, now, scope, subject) && now <= later
    requires Live(store, now, LockKey(scope, subject)) && !Live(store, later, LockKey(scope, subject))
    ensures Attempts(store, later, CounterKey(scope, subject)) == 0
  {
  }

  // ---- Windows ----

  /**
   Each failure lies in a window that opened less than one TTL before it; windows open at least a
   TTL apart and hold at most `maxAttempts` failures each.
   */
  ghost predicate Windowed(lim: Limits, fails: seq<Time>, wins: seq<Time>) {
    && |wins| == |fails|
    && (forall i | 0 <= i < |fails| :: wins[i] <= fails[i] < wins[i] + lim.Ttl())
    && (forall i, j | 0 <= i < j < |fails| :: fails[i] <= fails[j])
    && forall i, j | 0 <= i && i + lim.maxAttempts == j < |wins| :: wins[i] + lim.Ttl() <= wins[j]
  }

  /** How the windows so far relate to the counter as stored. */
  ghost predicate Current(lim: Limits, store: Store, now: Time, subject: string, wins: seq<Time>) {
    var c := CounterKey(Account, subject);
    if Live(store, now, c) then
      && store[c].expires.Some?
      && var open := store[c].expires.value - lim.Ttl();
         && open <= now
         && forall i | 0 <= i < |wins| ::
              wins[i] + lim.Ttl() <= open || (wins[i] == open && |wins| - i <= store[c].value)
    else
      forall i | 0 <= i < |wins| :: wins[i] + lim.Ttl() <= now
  }

  lemma CurrentLater(lim: Limits, store: Store, now: Time, later: Time, subject: string, wins: seq<Time>)
    requires Current(lim, store, now, subject, wins) && now <= later
    requires Sound(lim, store, now, Account, subject)
    ensures Current(lim, store, later, subject, wins)
  {
    hide CounterKey;
    hide LockKey;
    var c := CounterKey(Account, subject);
    if Live(store, now, c) && !Live(store, later, c) {
      forall i | 0 <= i < |wins| ensures wins[i] + lim.Ttl() <= later {
      }
    }
  }

  /** A failure of another account, or under an address, leaves this account's counter alone. */
  lemma CounterUntouched(lim: Limits, store: Store, now: Time, s2: Scope, x2: string, subject: string)
    requires s2 == Address || x2 != subject
    ensures var c := CounterKey(Account, subject); var after := RecordKey(lim, store, now, CounterKey(s2, x2));
            (c in after <==> c in store) && (c in store ==> after[c] == store[c])
  {
    hide CounterKey;
    hide LockKey;
    hide DerivedLockKey;
    KeysApart(Account, subject, s2, x2);
  }

  lemma CounterAfterRecord(lim: Limits, store: Store, now: Time, email: string, ip: Option<string>, subject: string)
    ensures var c, after := CounterKey(Account, subject), Record(lim, store, now, email, ip);
            if Lower(email) == subject then c in after && after[c] == Bumped(lim, store, now, c)[c]
            else (c in after <==> c in store) && (c in store ==> after[c] == store[c])
  {
    var x := Lower(email);
    var c, one := CounterKey(Account, subject), RecordKey(lim, store, now, CounterKey(Account, x));
    RecordUnfolds(lim, store, now, email, ip);
    if x != subject {
      CounterUntouched(lim, store, now, Account, x, subject);
    } else {
      KeysApart(Account, subject, Account, subject);
    }
    if HasAddress(ip) {
      CounterUntouched(lim, one, now, Address, ip.value, subject);
    }
  }

  /** One failed check of the account opens a window or joins the open one. */
  lemma FailureStep(lim: Limits, store: Store, now: Time, a: Attempt, subject: string, fails: seq<Time>,
          wins: seq<Time>)
    returns (win: Time)
    requires Sound(lim, store, now, Account, subject) && Current(lim, store, now, subject, wins)
    requires Windowed(lim, fails, wins) && now == a.at && forall i | 0 <= i < |fails| :: fails[i] <= now
    requires Lower(a.email) == subject && Gate(store, a) == Rejected
    ensures Windowed(lim, fails + [now], wins + [win])
    ensures Current(lim, After(lim, store, a), now, subject, wins + [win])
  {
    hide CounterKey;
    hide LockKey;
    hide Record;
    var c := CounterKey(Account, subject);
    LockedMeans(store, now, a.email, a.ip);
    CounterAfterRecord(lim, store, now, a.email, a.ip, subject);
    win := if Live(store, now, c) then store[c].expires.value - lim.Ttl() else now;
    forall i | 0 <= i && i + lim.maxAttempts == |wins| ensures wins[i] + lim.Ttl() <= win {
    }
  }

  lemma OtherStep(lim: Limits, store: Store, a: Attempt, subject: string, wins: seq<Time>)
    requires Sound(lim, store, a.at, Account, subject) && Current(lim, store, a.at, subject, wins)
    requires Lower(a.email) == subject ==> Gate(store, a) != Rejected && Gate(store, a) != Admitted
    ensures Current(lim, After(lim, store, a), a.at, subject, wins)
  {
    hide CounterKey;
    hide LockKey;
    hide Record;
    var c := CounterKey(Account, subject);
    if Gate(store, a) == Rejected {
      CounterAfterRecord(lim, store, a.at, a.email, a.ip, subject);
    } else if Gate(store, a) == Admitted {
      ClearedKeys(a.email, a.ip, Account, subject);
    }
  }

  /** Assigns every failure of the schedule its window. */
  lemma {:induction false} Windows(lim: Limits, store: Store, start: Time, attempts: seq<Attempt>, subject: string)
    returns (wins: seq<Time>)
    requires Sound(lim, store, start, Account, subject) && !Occurs(FAILED, subject) && InOrder(start, attempts)
    requires !Cleared(lim, store, attempts, subject)
    ensures Windowed(lim, Failures(lim, store, attempts, subject), wins)
    ensures Current(lim, Run(lim, store, attempts), LastTime(start, attempts), subject, wins)
    ensures forall i | 0 <= i < |wins| ::
              start <= Failures(lim, store, attempts, subject)[i] <= LastTime(start, attempts)
  {
    hide Sound;
    hide Windowed;
    hide Current;
    if attempts == [] {
      wins := [];
      assert Failures(lim, store, attempts, subject) == [];
      StartWindows(lim, store, start, subject);
    } else {
      var before, a := attempts[..|attempts| - 1], attempts[|attempts| - 1];
      NotClearedBefore(lim, store, attempts, subject);
      wins := Windows(lim, store, start, before, subject);
      var mid, t := Run(lim, store, before), LastTime(start, before);
      var fails := Failures(lim, store, before, subject);
      WindowedSize(lim, fails, wins);
      LockoutInvariant(lim, store, start, before, Account, subject);
      assert t <= a.at;
      CurrentLater(lim, mid, t, a.at, subject, wins);
      SoundLater(lim, mid, t, a.at, Account, subject);
      if Lower(a.email) == subject && Gate(mid, a) == Rejected {
        var win := FailureStep(lim, mid, a.at, a, subject, fails, wins);
        wins := wins + [win];
        assert Failures(lim, store, attempts, subject) == fails + [a.at];
      } else {
        assert Failures(lim, store, attempts, subject) == fails;
        OtherStep(lim, mid, a, subject, wins);
      }
    }
  }

  lemma WindowedSize(lim: Limits, fails: seq<Time>, wins: seq<Time>)
    requires Windowed(lim, fails, wins)
    ensures |wins| == |fails|
  {
  }

  lemma StartWindows(lim: Limits, store: Store, start: Time, subject: string)
    requires Sound(lim, store, start, Account, subject)
    ensures Windowed(lim, [], []) && Current(lim, store, start, subject, [])
  {
  }

  lemma NotClearedBefore(lim: Limits, store: Store, attempts: seq<Attempt>, subject: string)
    requires attempts != [] && !Cleared(lim, store, attempts, subject)
    ensures !Cleared(lim, store, attempts[..|attempts| - 1], subject)
    ensures Lower(attempts[|attempts| - 1].email) == subject ==>
              Gate(Run(lim, store, attempts[..|attempts| - 1]), attempts[|attempts| - 1]) != Admitted
  {
    var before := attempts[..|attempts| - 1];
    forall i | 0 <= i < |before|
      ensures Lower(before[i].email) != subject || Gate(Run(lim, store, before[..i]), before[i]) != Admitted
    {
      assert before[..i] == attempts[..i];
    }
  }

  /** Windows `k * maxAttempts` failures apart open at least `k` TTLs apart. */
  lemma {:induction false} WindowsSpread(lim: Limits, fails: seq<Time>, wins: seq<Time>, i: nat, k: nat)
    requires Windowed(lim, fails, wins) && i + k * lim.maxAttempts < |wins|
    ensures wins[i] + k * lim.Ttl() <= wins[i + k * lim.maxAttempts]
    decreases k
  {
    if k > 0 {
      var j := i + (k - 1) * lim.maxAttempts;
      assert j + lim.maxAttempts == i + k * lim.maxAttempts;
      assert k * lim.Ttl() == (k - 1) * lim.Ttl() + lim.Ttl();
      WindowsSpread(lim, fails, wins, i, k - 1);
    }
  }

  function CountIn(times: seq<Time>, from: Time, until: Time): nat {
    if times == [] then 0
    else CountIn(times[..|times| - 1], from, until)
         + (if from <= times[|times| - 1] < until then 1 else 0)
  }

  /** If no `k + 1` of these sorted times fit in the span, at most `k` of them lie in it. */
  lemma {:induction false} CountBound(times: seq<Time>, from: Time, until: Time, k: nat)
    requires forall i, j | 0 <= i < j < |times| :: times[i] <= times[j]
    requires forall i, j | 0 <= i && i + k == j < |times| && from <= times[i] :: until <= times[j]
    ensures CountIn(times, from, until) <= k
    ensures |times| <= k || times[|times| - 1 - k] < from || until <= times[|times| - 1]
  {
    if times != [] {
      var n := |times| - 1;
      CountBound(times[..n], from, until, k);
      if from <= times[n] < until {
        CountTail(times, from, until, if n + 1 <= k then 0 else n + 1 - k);
      }
    }
  }

  lemma {:induction false} CountTail(times: seq<Time>, from: Time, until: Time, m: nat)
    requires m <= |times| && forall i | 0 <= i < m :: times[i] < from
    ensures CountIn(times, from, until) <= |times| - m
    decreases |times|
  {
    if |times| > m {
      CountTail(times[..|times| - 1], from, until, m);
    } else if times != [] {
      CountTail(times[..|times| - 1], from, until, m - 1);
    }
  }

  /**
   The rate bound. From any state with the invariant, and whatever addresses the attempts come from,
   a half-open span of `n` TTLs admits at most `maxAttempts * (n + 1)` failed password checks for an
   account, as long as no login of that account gets through.
   */
  lemma RateBound(lim: Limits, store: Store, start: Time, attempts: seq<Attempt>, subject: string, from: Time, n: nat)
    requires Sound(lim, store, start, Account, subject) && !Occurs(FAILED, subject) && InOrder(start, attempts)
    requires !Cleared(lim, store, attempts, subject)
    ensures CountIn(Failures(lim, store, attempts, subject), from, from + n * (lim.ttlSeconds * 1_000_000))
            <= lim.maxAttempts * (n + 1)
  {
    hide *;
    SpanOf(lim);
    var fails := Failures(lim, store, attempts, subject);
    var wins := Windows(lim, store, start, attempts, subject);
    WindowedBound(lim, fails, wins, from, n);
  }

  lemma SpanOf(lim: Limits)
    ensures lim.Ttl() == lim.ttlSeconds * 1_000_000
  {
  }

  lemma WindowedBound(lim: Limits, fails: seq<Time>, wins: seq<Time>, from: Time, n: nat)
    requires Windowed(lim, fails, wins)
    ensures CountIn(fails, from, from + n * lim.Ttl()) <= lim.maxAttempts * (n + 1)
  {
    var k := lim.maxAttempts * (n + 1);
    forall i, j | 0 <= i && i + k == j < |fails| && from <= fails[i]
      ensures from + n * lim.Ttl() <= fails[j]
    {
      FarApart(lim, fails, wins, i, n);
    }
    CountBound(fails, from, from + n * lim.Ttl(), k);
  }

  lemma FarApart(lim: Limits, fails: seq<Time>, wins: seq<Time>, i: nat, n: nat)
    requires Windowed(lim, fails, wins) && i + lim.maxAttempts * (n + 1) < |fails|
    ensures fails[i] + n * lim.Ttl() < fails[i + lim.maxAttempts * (n + 1)]
  {
    assert lim.maxAttempts * (n + 1) == (n + 1) * lim.maxAttempts;
    WindowsSpread(lim, fails, wins, i, n + 1);
    assert (n + 1) * lim.Ttl() == n * lim.Ttl() + lim.Ttl();
  }

  // ---- Where the lock engages, and where it never does ----

  /** No failure, of any account at any address, ever sets the lock of a subject containing "failed". */
  lemma {:induction false} ContainingFailedNeverLocks(lim: Limits, attempts: seq<Attempt>, scope: Scope,
          subject: string)
    requires Occurs(FAILED, subject)
    ensures LockKey(scope, subject) !in Run(lim, map[], attempts)
  {
    hide LockKey;
    hide CounterKey;
    hide Occurs;
    if attempts != [] {
      var before, a := attempts[..|attempts| - 1], attempts[|attempts| - 1];
      ContainingFailedNeverLocks(lim, before, scope, subject);
      var mid := Run(lim, map[], before);
      if Gate(mid, a) == Rejected {
        RecordUnfolds(lim, mid, a.at, a.email, a.ip);
        NotSetByFailure(lim, mid, a.at, scope, subject, Account, Lower(a.email));
        if HasAddress(a.ip) {
          var one := RecordKey(lim, mid, a.at, CounterKey(Account, Lower(a.email)));
          NotSetByFailure(lim, one, a.at, scope, subject, Address, a.ip.value);
        }
      }
    }
  }

  lemma NotSetByFailure(lim: Limits, store: Store, now: Time, scope: Scope, subject: string, s2: Scope, x2: string)
    requires Occurs(FAILED, subject) && LockKey(scope, subject) !in store
    ensures LockKey(scope, subject) !in RecordKey(lim, store, now, CounterKey(s2, x2))
  {
    hide LockKey;
    hide CounterKey;
    hide DerivedLockKey;
    KeysApart(s2, x2, scope, subject);
    KeysApart(scope, subject, s2, Replace(x2, FAILED, LOCKOUT));
    DerivedKeyForm(s2, x2);
    var i :| 0 <= i <= |subject| && OccursAt(FAILED, subject, i);
    ReplacedNeverContains(x2, i);
  }

  /** `n` wrong passwords for one account at one instant, from no known address. */
  function Burst(email: string, at: Time, n: nat): (attempts: seq<Attempt>)
    ensures |attempts| == n
  {
    seq(n, _ => Attempt(at, email, None, Wrong))
  }

  /** A fresh account gets exactly `maxAttempts` failed checks, and is then locked. */
  lemma {:induction false} BurstLocks(lim: Limits, email: string, at: Time, n: nat)
    requires !Occurs(FAILED, Lower(email)) && n <= lim.maxAttempts
    ensures var store := Run(lim, map[], Burst(email, at, n));
            Attempts(store, at, CounterKey(Account, Lower(email))) == n
            && (Locked(store, at, email, None) <==> n == lim.maxAttempts)
    decreases n
  {
    hide LockKey;
    hide CounterKey;
    hide DerivedLockKey;
    var subject := Lower(email);
    var b := Burst(email, at, n);
    if n == 0 {
      LockedMeans(map[], at, email, None);
    } else {
      assert b[..n - 1] == Burst(email, at, n - 1);
      BurstLocks(lim, email, at, n - 1);
      var mid := Run(lim, map[], b[..n - 1]);
      assert After(lim, mid, b[n - 1]) == Record(lim, mid, at, email, None);
      RecordUnfolds(lim, mid, at, email, None);
      LockedMeans(mid, at, email, None);
      LockedMeans(Run(lim, map[], b), at, email, None);
      KeysApart(Account, subject, Account, subject);
      DerivedKeyIsLockKeyIff(Account, subject);
    }
  }

  /** Attempts that are in order and over by `at`. */
  predicate Until(start: Time, attempts: seq<Attempt>, at: Time) {
    InOrder(start, attempts) && LastTime(start, attempts) <= at
  }

  /** Some schedule locks the account exactly when its name does not contain "failed". */
  lemma LockableIff(lim: Limits, email: string, at: Time)
    ensures (exists start, attempts :: Until(start, attempts, at) && Locked(Run(lim, map[], attempts), at, email, None))
            <==> !Occurs(FAILED, Lower(email))
  {
    hide Run;
    hide Occurs;
    hide Until;
    if Occurs(FAILED, Lower(email)) {
      forall attempts ensures !Locked(Run(lim, map[], attempts), at, email, None) {
        ContainingFailedNeverLocks(lim, attempts, Account, Lower(email));
        LockedMeans(Run(lim, map[], attempts), at, email, None);
      }
    } else {
      BurstLocks(lim, email, at, lim.maxAttempts);
      BurstUntil(email, at, lim.maxAttempts);
    }
  }

  lemma BurstUntil(email: string, at: Time, n: nat)
    ensures Until(at, Burst(email, at, n), at)
  {
  }
}
