/**
 Whose failures lock whom over runs of the whole service (app/services/auth_service.py:189-220,
 app/services/bruteforce_service.py:7-54), where requests are at least a microsecond apart.
 */
module LockoutRuns {
  import opened Prelude
  import opened Text
  import opened AuthState
  import opened AuthSpec
  import opened Accounts
  import opened LoginRate
  import Lockout
  import LockoutIsolation
  import LockoutKeys
  import LockoutRate

  // ---- One wrong password after the other ----

  /** `n` wrong passwords for an address, one a microsecond, from no known address. */
  function Spaced(email: string, n: nat): (attempts: seq<Lockout.Attempt>)
    ensures |attempts| == n
  {
    seq(n, i => Lockout.Attempt(1 + i, email, None, Lockout.Wrong))
  }

  /** What `n` of them leave: a counter at `n` in its first window, and locks only at the maximum. */
  ghost predicate Counted(lim: Lockout.Limits, store: Lockout.Store, x: string, n: nat) {
    var c := LockoutKeys.CounterKey(LockoutKeys.Account, x);
    && (n > 0 ==> c in store && store[c] == Lockout.Entry(n, Some(1 + lim.Ttl())))
    && (n == 0 ==> store == map[])
    && (n < lim.maxAttempts ==> store.Keys <= {c})
    && (n >= lim.maxAttempts ==>
          var l := LockoutKeys.DerivedLockKey(c);
          l in store && store[l].expires == Some(n + lim.Ttl()))
  }

  lemma CountedStep(lim: Lockout.Limits, store: Lockout.Store, email: string, n: nat)
    requires Counted(lim, store, Lower(email), n) && n < lim.maxAttempts && n < lim.Ttl()
    ensures !Lockout.Locked(store, n + 1, email, None)
    ensures Counted(lim, Lockout.Record(lim, store, n + 1, email, None), Lower(email), n + 1)
  {
    hide LockoutKeys.CounterKey;
    hide LockoutKeys.LockKey;
    hide LockoutKeys.DerivedLockKey;
    hide Lower;
    LockoutRate.LockedMeans(store, n + 1, email, None);
    LockoutRate.RecordUnfolds(lim, store, n + 1, email, None);
    LockoutRate.KeysApart(LockoutKeys.Account, Lower(email), LockoutKeys.Account, Lower(email));
  }

  lemma {:induction false} SpacedCounts(lim: Lockout.Limits, email: string, n: nat)
    requires n <= lim.maxAttempts && n <= lim.Ttl()
    ensures Counted(lim, Lockout.Run(lim, map[], Spaced(email, n)), Lower(email), n)
    decreases n
  {
    hide Counted;
    hide Lockout.Record;
    hide Lockout.Locked;
    if n == 0 {
      NothingCounted(lim, Lower(email));
    } else {
      assert Spaced(email, n)[..n - 1] == Spaced(email, n - 1);
      SpacedCounts(lim, email, n - 1);
      CountedStep(lim, Lockout.Run(lim, map[], Spaced(email, n - 1)), email, n - 1);
    }
  }

  lemma NothingCounted(lim: Lockout.Limits, x: string)
    ensures Counted(lim, map[], x, 0)
  {
  }

  // ---- As requests to a service without users ----

  function Guesses(email: string, n: nat): (events: seq<Event>)
    ensures |events| == n
  {
    seq(n, _ => Event(0, LoginUser(email, "", None)))
  }

  lemma {:induction false} GuessAttempts(cfg: Settings, email: string, n: nat)
    ensures var w := Run(cfg, BOOT, Guesses(email, n)).world; w.db.users == map[] && w.clock == n
    ensures Attempts(cfg, BOOT, Guesses(email, n)) == Spaced(email, n)
    decreases n
  {
    hide Handle;
    hide ByEmail;
    if n > 0 {
      assert Guesses(email, n)[..n - 1] == Guesses(email, n - 1);
      assert Spaced(email, n) == Spaced(email, n - 1) + [Lockout.Attempt(n, email, None, Lockout.Wrong)];
      GuessAttempts(cfg, email, n - 1);
      var w := Tick(Run(cfg, BOOT, Guesses(email, n - 1)).world, 0);
      ExchangeFrame(cfg, w, LoginUser(email, "", None));
      ClockStep(cfg, w, LoginUser(email, "", None));
      assert !ByEmail(w.db, email).OneRow?;
    }
  }

  /** As many guesses as the maximum set the derived lock, if they fit in one window. */
  lemma GuessesLock(cfg: Settings, email: string, victim: string)
    requires Replace(Lower(email), LockoutKeys.FAILED, LockoutKeys.LOCKOUT) == Lower(victim)
             || (Lower(email) == Lower(victim) && !Occurs(LockoutKeys.FAILED, Lower(email)))
    requires cfg.limits.maxAttempts <= cfg.limits.ttlSeconds * 1_000_000
    ensures var w := Run(cfg, BOOT, Guesses(email, cfg.limits.maxAttempts)).world;
            Lockout.Locked(w.redis, w.clock, victim, None)
  {
    hide Run;
    hide Lockout.Run;
    hide Occurs;
    hide Replace;
    hide LockoutKeys.LockKey;
    hide LockoutKeys.CounterKey;
    hide LockoutKeys.DerivedLockKey;
    var n := cfg.limits.maxAttempts;
    var w := Run(cfg, BOOT, Guesses(email, n)).world;
    GuessAttempts(cfg, email, n);
    FromBoot(cfg, Guesses(email, n));
    SpacedCounts(cfg.limits, email, n);
    LockoutRate.LockedMeans(w.redis, w.clock, victim, None);
    LockoutKeys.DerivedKeyForm(LockoutKeys.Account, Lower(email));
    LockoutKeys.DerivedKeyIsLockKeyIff(LockoutKeys.Account, Lower(email));
  }

  /** The counters of a run from the start are those of its attempts on an empty key space. */
  lemma FromBoot(cfg: Settings, events: seq<Event>)
    ensures Run(cfg, BOOT, events).world.redis == Lockout.Run(cfg.limits, map[], Attempts(cfg, BOOT, events))
  {
    RunProjects(cfg, [], events);
  }

  lemma WrongFromBoot(cfg: Settings, events: seq<Event>, subject: string)
    ensures WrongPasswords(Run(cfg, BOOT, events).log, subject)
            == Lockout.Failures(cfg.limits, map[], Attempts(cfg, BOOT, events), subject)
  {
    hide WrongPasswords;
    FailuresSeen(cfg, [], events, subject);
    var log := Run(cfg, BOOT, events).log;
    assert log[|BOOT.log|..] == log;
  }

  // ---- Requests a microsecond apart cannot outrun a window ----

  /** Each attempt at least a microsecond after the one before, the last by `now`. */
  ghost predicate Apart(attempts: seq<Lockout.Attempt>, now: Time) {
    && (forall i | 0 <= i < |attempts| :: attempts[i].at <= now)
    && forall i, j | 0 <= i < j < |attempts| :: attempts[i].at < attempts[j].at
  }

  lemma {:induction false} RunApart(cfg: Settings, events: seq<Event>)
    ensures Apart(Attempts(cfg, BOOT, events), Run(cfg, BOOT, events).world.clock)
  {
    hide Handle;
    if events != [] {
      var before, e := events[..|events| - 1], events[|events| - 1];
      var w := Tick(Run(cfg, BOOT, before).world, e.delay);
      RunApart(cfg, before);
      ClockStep(cfg, w, e.request);
    }
  }

  /** A live counter has grown by at most one a microsecond since its window opened, and `spare` more. */
  ghost predicate Paced(lim: Lockout.Limits, store: Lockout.Store, now: Time, key: string, spare: nat) {
    key in store ==>
      store[key].expires.Some? && store[key].value <= now - (store[key].expires.value - lim.Ttl()) + spare
  }

  /** Every counter is, and no lock has ever been set. */
  ghost predicate NeverLocked(lim: Lockout.Limits, store: Lockout.Store, now: Time) {
    && (forall scope, x :: LockoutKeys.LockKey(scope, x) !in store)
    && (forall scope, x :: Paced(lim, store, now, LockoutKeys.CounterKey(scope, x), 1))
  }

  lemma PacedLater(lim: Lockout.Limits, store: Lockout.Store, now: Time, later: Time, key: string)
    requires Paced(lim, store, now, key, 1) && now < later
    ensures Paced(lim, store, later, key, 0)
  {
  }

  /** A bump of a paced counter stays below the maximum. */
  lemma BumpPaced(lim: Lockout.Limits, store: Lockout.Store, now: Time, key: string)
    requires Paced(lim, store, now, key, 0) && lim.Ttl() < lim.maxAttempts
    ensures var after := Lockout.RecordKey(lim, store, now, key);
            && after.Keys == store.Keys + {key} && Paced(lim, after, now, key, 1)
            && forall other | other in store && other != key :: after[other] == store[other]
  {
  }

  lemma PacedOther(lim: Lockout.Limits, store: Lockout.Store, after: Lockout.Store, now: Time, other: string,
          spare: nat)
    requires Paced(lim, store, now, other, spare) && (other in after ==> other in store && after[other] == store[other])
    ensures Paced(lim, after, now, other, spare) && (spare == 0 ==> Paced(lim, after, now, other, 1))
  {
  }

  lemma BumpNeverLocks(lim: Lockout.Limits, store: Lockout.Store, now: Time, scope: LockoutKeys.Scope, x: string)
    requires NeverLocked(lim, store, now) && lim.Ttl() < lim.maxAttempts
    requires Paced(lim, store, now, LockoutKeys.CounterKey(scope, x), 0)
    ensures var key := LockoutKeys.CounterKey(scope, x);
            var after := Lockout.RecordKey(lim, store, now, key);
            && NeverLocked(lim, after, now)
            && forall other | other in after && other != key :: other in store && after[other] == store[other]
  {
    hide Lockout.RecordKey;
    hide LockoutKeys.CounterKey;
    hide LockoutKeys.LockKey;
    hide Paced;
    var key := LockoutKeys.CounterKey(scope, x);
    var after := Lockout.RecordKey(lim, store, now, key);
    BumpPaced(lim, store, now, key);
    forall s2, x2 ensures LockoutKeys.LockKey(s2, x2) !in after {
      LockoutRate.KeysApart(scope, x, s2, x2);
    }
    forall s2, x2 ensures Paced(lim, after, now, LockoutKeys.CounterKey(s2, x2), 1) {
      if LockoutKeys.CounterKey(s2, x2) != key {
        PacedOther(lim, store, after, now, LockoutKeys.CounterKey(s2, x2), 1);
      }
    }
  }

  lemma RecordNeverLocks(lim: Lockout.Limits, store: Lockout.Store, now: Time, a: Lockout.Attempt)
    requires NeverLocked(lim, store, now) && now < a.at && lim.Ttl() < lim.maxAttempts
    ensures NeverLocked(lim, Lockout.Record(lim, store, a.at, a.email, a.ip), a.at)
  {
    hide Lockout.RecordKey;
    hide LockoutKeys.CounterKey;
    hide LockoutKeys.LockKey;
    hide Paced;
    var first := LockoutKeys.CounterKey(LockoutKeys.Account, Lower(a.email));
    var one := Lockout.RecordKey(lim, store, a.at, first);
    LockoutRate.RecordUnfolds(lim, store, a.at, a.email, a.ip);
    NeverLockedLater(lim, store, now, a.at);
    PacedLater(lim, store, now, a.at, first);
    BumpNeverLocks(lim, store, a.at, LockoutKeys.Account, Lower(a.email));
    if LockoutKeys.HasAddress(a.ip) {
      var second := LockoutKeys.CounterKey(LockoutKeys.Address, a.ip.value);
      LockoutRate.KeysApart(LockoutKeys.Account, Lower(a.email), LockoutKeys.Address, a.ip.value);
      PacedLater(lim, store, now, a.at, second);
      PacedOther(lim, store, one, a.at, second, 0);
      BumpNeverLocks(lim, one, a.at, LockoutKeys.Address, a.ip.value);
    }
  }

  lemma NeverLockedLater(lim: Lockout.Limits, store: Lockout.Store, now: Time, later: Time)
    requires NeverLocked(lim, store, now) && now <= later
    ensures NeverLocked(lim, store, later)
  {
    hide LockoutKeys.CounterKey;
    hide LockoutKeys.LockKey;
    forall scope, x ensures Paced(lim, store, later, LockoutKeys.CounterKey(scope, x), 1) {
      assert Paced(lim, store, now, LockoutKeys.CounterKey(scope, x), 1);
    }
  }

  lemma ClearNeverLocks(lim: Lockout.Limits, store: Lockout.Store, now: Time, a: Lockout.Attempt)
    requires NeverLocked(lim, store, now)
    ensures NeverLocked(lim, Lockout.Clear(store, a.email, a.ip), now)
  {
    hide LockoutKeys.CounterKey;
    hide LockoutKeys.LockKey;
    var after := Lockout.Clear(store, a.email, a.ip);
    forall scope, x ensures Paced(lim, after, now, LockoutKeys.CounterKey(scope, x), 1) {
      assert Paced(lim, store, now, LockoutKeys.CounterKey(scope, x), 1);
    }
  }

  /** With a maximum above the number of microseconds in a window, nothing is ever locked. */
  lemma {:induction false} TooManyToLock(lim: Lockout.Limits, attempts: seq<Lockout.Attempt>, now: Time)
    requires Apart(attempts, now) && lim.Ttl() < lim.maxAttempts
    ensures NeverLocked(lim, Lockout.Run(lim, map[], attempts), now)
  {
    hide NeverLocked;
    hide Lockout.Record;
    hide Lockout.Clear;
    hide Lockout.Locked;
    if attempts == [] {
      EmptyNeverLocked(lim, now);
    } else {
      var before, a := attempts[..|attempts| - 1], attempts[|attempts| - 1];
      TooManyToLock(lim, before, a.at - 1);
      var mid := Lockout.Run(lim, map[], before);
      RecordNeverLocks(lim, mid, a.at - 1, a);
      NeverLockedLater(lim, mid, a.at - 1, a.at);
      ClearNeverLocks(lim, mid, a.at, a);
      NeverLockedLater(lim, Lockout.Run(lim, map[], attempts), a.at, now);
    }
  }

  lemma EmptyNeverLocked(lim: Lockout.Limits, now: Time)
    ensures NeverLocked(lim, map[], now)
  {
  }

  lemma LockFits(cfg: Settings, events: seq<Event>, email: string)
    requires var w := Run(cfg, BOOT, events).world; Lockout.Locked(w.redis, w.clock, email, None)
    ensures cfg.limits.maxAttempts <= cfg.limits.ttlSeconds * 1_000_000
    ensures LockoutKeys.LockKey(LockoutKeys.Account, Lower(email))
            in Lockout.Run(cfg.limits, map[], Attempts(cfg, BOOT, events))
  {
    hide Run;
    hide Lockout.Run;
    hide Lockout.Locked;
    hide LockoutKeys.LockKey;
    hide LockoutKeys.CounterKey;
    var w := Run(cfg, BOOT, events).world;
    FromBoot(cfg, events);
    RunApart(cfg, events);
    LockoutIsolation.LockedInStore(w.redis, w.clock, email);
    if cfg.limits.Ttl() < cfg.limits.maxAttempts {
      TooManyToLock(cfg.limits, Attempts(cfg, BOOT, events), w.clock);
    }
  }

  // ---- Main results ----

  /** After this run the account is locked. */
  ghost predicate EndsLocked(cfg: Settings, events: seq<Event>, email: string) {
    var w := Run(cfg, BOOT, events).world;
    Lockout.Locked(w.redis, w.clock, email, None)
  }

  /**
   Some run of the service ends with the account locked exactly when its address contains no "failed" and the
   maximum of failures fits in one window.
   */
  lemma {:induction false} LockableInRunsIff(cfg: Settings, email: string)
    ensures (exists events :: EndsLocked(cfg, events, email))
            <==> && !Occurs(LockoutKeys.FAILED, Lower(email))
                 && cfg.limits.maxAttempts <= cfg.limits.ttlSeconds * 1_000_000
  {
    hide Run;
    hide Lockout.Run;
    hide Lockout.Locked;
    hide Occurs;
    hide Guesses;
    hide LockoutKeys.LockKey;
    forall events | EndsLocked(cfg, events, email)
      ensures !Occurs(LockoutKeys.FAILED, Lower(email)) && cfg.limits.maxAttempts <= cfg.limits.Ttl()
    {
      LockFits(cfg, events, email);
      if Occurs(LockoutKeys.FAILED, Lower(email)) {
        var attempts := Attempts(cfg, BOOT, events);
        LockoutRate.ContainingFailedNeverLocks(cfg.limits, attempts, LockoutKeys.Account, Lower(email));
      }
    }
    if !Occurs(LockoutKeys.FAILED, Lower(email)) && cfg.limits.maxAttempts <= cfg.limits.Ttl() {
      GuessesLock(cfg, email, email);
      assert EndsLocked(cfg, Guesses(email, cfg.limits.maxAttempts), email);
    }
  }

  /**
   Isolation in runs. Some run ends with the account locked although fewer wrong passwords for it than the maximum
   were answered - indeed none - exactly when its address contains "lockout" and no "failed", and the maximum fits
   in one window.
   */
  lemma {:induction false} LockedByOthersInRunsIff(cfg: Settings, email: string)
    ensures (exists events ::
               && EndsLocked(cfg, events, email)
               && |WrongPasswords(Run(cfg, BOOT, events).log, Lower(email))| < cfg.limits.maxAttempts)
            <==> CanBeLockedByOthers(cfg, email)
    ensures (exists events ::
               && EndsLocked(cfg, events, email) && WrongPasswords(Run(cfg, BOOT, events).log, Lower(email)) == [])
            <==> CanBeLockedByOthers(cfg, email)
  {
    hide Run;
    hide Lockout.Run;
    hide Lockout.Locked;
    hide Lockout.Failures;
    hide WrongPasswords;
    hide Occurs;
    hide Guesses;
    hide LockoutKeys.LockKey;
    forall events | EndsLocked(cfg, events, email)
                    && |WrongPasswords(Run(cfg, BOOT, events).log, Lower(email))| < cfg.limits.maxAttempts
      ensures CanBeLockedByOthers(cfg, email)
    {
      LockFits(cfg, events, email);
      WrongFromBoot(cfg, events, Lower(email));
      LockoutIsolation.UnearnedLock(cfg.limits, Attempts(cfg, BOOT, events), email);
    }
    if CanBeLockedByOthers(cfg, email) {
      var events := LockingGuesses(cfg, email);
    }
  }

  predicate CanBeLockedByOthers(cfg: Settings, email: string) {
    && Occurs(LockoutKeys.LOCKOUT, Lower(email)) && !Occurs(LockoutKeys.FAILED, Lower(email))
    && cfg.limits.maxAttempts <= cfg.limits.ttlSeconds * 1_000_000
  }

  lemma LockingGuesses(cfg: Settings, email: string) returns (events: seq<Event>)
    requires CanBeLockedByOthers(cfg, email)
    ensures EndsLocked(cfg, events, email) && WrongPasswords(Run(cfg, BOOT, events).log, Lower(email)) == []
  {
    hide Run;
    hide Lockout.Run;
    hide Lockout.Locked;
    hide Lockout.Failures;
    hide WrongPasswords;
    hide Occurs;
    hide Replace;
    LowerIdempotent(email);
    var x := LockoutIsolation.Impostor(Lower(email));
    events := Guesses(x, cfg.limits.maxAttempts);
    GuessesLock(cfg, x, email);
    GuessAttempts(cfg, x, cfg.limits.maxAttempts);
    LockoutIsolation.NoneOfItsOwn(cfg.limits, Spaced(x, cfg.limits.maxAttempts), Lower(email));
    WrongFromBoot(cfg, events, Lower(email));
  }
}
