/**
 When a login is answered 423, from the answers alone (app/services/auth_service.py:189-238,
 app/services/bruteforce_service.py:7-54): the wrong passwords of the account and of the address since their last
 success decide it.
 */
module LoginLock {
  import opened Prelude
  import opened Text
  import opened AuthState
  import opened AuthSpec
  import opened Accounts
  import opened LockoutExact
  import opened LoginRate
  import Lockout
  import LockoutKeys
  import LockoutRate

  /** A login of this account, or from this address. */
  predicate Concerns(x: Exchange, scope: LockoutKeys.Scope, subject: string) {
    x.request.LoginUser?
    && match scope
       case Account => Lower(x.request.email) == subject
       case Address => x.request.ip == Some(subject) && subject != ""
  }

  /** The times of the wrong passwords since the last success, as clients were told. */
  function WrongSinceSuccess(log: seq<Exchange>, scope: LockoutKeys.Scope, subject: string): seq<Time> {
    if log == [] then []
    else
      var x := log[|log| - 1];
      var wrong := WrongSinceSuccess(log[..|log| - 1], scope, subject);
      if !Concerns(x, scope, subject) then wrong
      else if x.reply == Raised(401) then wrong + [x.at]
      else if x.reply.Returned? then []
      else wrong
  }

  /** These wrong passwords lock at this instant, with the configured maximum and span. */
  predicate Locks(cfg: Settings, wrong: seq<Time>, now: Time) {
    LocksAt(cfg.limits.ttlSeconds * 1_000_000, cfg.limits.maxAttempts, wrong, now)
  }

  lemma WrongAppend(log: seq<Exchange>, x: Exchange, scope: LockoutKeys.Scope, subject: string)
    ensures WrongSinceSuccess(log + [x], scope, subject)
            == var wrong := WrongSinceSuccess(log, scope, subject);
               if !Concerns(x, scope, subject) then wrong
               else if x.reply == Raised(401) then wrong + [x.at]
               else if x.reply.Returned? then []
               else wrong
  {
    assert (log + [x])[..|log|] == log;
  }

  lemma OwnAppend(lim: Lockout.Limits, attempts: seq<Lockout.Attempt>, a: Lockout.Attempt,
          scope: LockoutKeys.Scope, subject: string)
    ensures Own(lim, attempts + [a], scope, subject)
            == var fails := Own(lim, attempts, scope, subject);
               if !LockoutRate.Mentions(a.email, a.ip, scope, subject) then fails
               else match Lockout.Gate(Lockout.Run(lim, map[], attempts), a)
                    case Rejected => fails + [a.at]
                    case Admitted => []
                    case _ => fails
  {
    assert (attempts + [a])[..|attempts|] == attempts;
  }

  /** What clients were told is what the counters saw. */
  lemma {:induction false} WrongSeen(cfg: Settings, events: seq<Event>, scope: LockoutKeys.Scope, subject: string)
    ensures WrongSinceSuccess(Run(cfg, BOOT, events).log, scope, subject)
            == Own(cfg.limits, Attempts(cfg, BOOT, events), scope, subject)
  {
    hide Handle;
    hide Lockout.Run;
    hide Lockout.Gate;
    hide Own;
    hide WrongSinceSuccess;
    hide CredentialOf;
    hide Attempts;
    if events == [] {
      NothingWrong(cfg, scope, subject);
    } else {
      var before, e := events[..|events| - 1], events[|events| - 1];
      var t := Run(cfg, BOOT, before);
      var w := Tick(t.world, e.delay);
      WrongSeen(cfg, before, scope, subject);
      NoServerError(cfg, before);
      assert before + [e] == events;
      AttemptsAppend(cfg, BOOT, before, e);
      WrongAppend(t.log, Exchange(w.clock, e.request, Handle(cfg, w, e.request).reply), scope, subject);
      if e.request.LoginUser? {
        var email, ip := e.request.email, e.request.ip;
        FromStart(cfg, before);
        LoginHandled(cfg, t.world, e, email, e.request.password, ip);
        OwnAppend(cfg.limits, Attempts(cfg, BOOT, before),
          Lockout.Attempt(w.clock, email, ip, CredentialOf(w, email, e.request.password)), scope, subject);
      }
    }
  }

  lemma NothingWrong(cfg: Settings, scope: LockoutKeys.Scope, subject: string)
    ensures WrongSinceSuccess([], scope, subject) == []
    ensures Attempts(cfg, BOOT, []) == [] && Own(cfg.limits, [], scope, subject) == []
  {
  }

  lemma FromStart(cfg: Settings, events: seq<Event>)
    ensures Run(cfg, BOOT, events).world.redis == Lockout.Run(cfg.limits, map[], Attempts(cfg, BOOT, events))
    ensures Lockout.InOrder(0, Attempts(cfg, BOOT, events))
  {
    RunProjects(cfg, [], events);
  }

  /** The lock of a subject without "failed": at least what its own failures say, exactly that without "lockout". */
  lemma LiveLock(cfg: Settings, events: seq<Event>, scope: LockoutKeys.Scope, subject: string, now: Time)
    requires !Occurs("failed", subject)
    ensures var t := Run(cfg, BOOT, events);
            var live := Lockout.Live(t.world.redis, now, LockoutKeys.LockKey(scope, subject));
            var locks := Locks(cfg, WrongSinceSuccess(t.log, scope, subject), now);
            && (locks ==> live)
            && (!Occurs("lockout", subject) && live ==> locks)
  {
    hide Run;
    hide Lockout.Run;
    hide Own;
    hide Occurs;
    hide LockedUntil;
    hide LockoutKeys.LockKey;
    hide CounterExact;
    var t := Run(cfg, BOOT, events);
    FromStart(cfg, events);
    WrongSeen(cfg, events, scope, subject);
    RunExact(cfg.limits, 0, Attempts(cfg, BOOT, events), scope, subject);
  }

  /** Where the gate of a login is closed. */
  lemma Answered423(cfg: Settings, w: World, email: string, password: string, ip: Option<string>)
    requires AccountsSound(w)
    ensures Login(cfg, w, email, password, ip).reply == Raised(423) <==> Lockout.Locked(w.redis, w.clock, email, ip)
  {
    hide Lockout.Locked;
    UnfoldSound(w);
    LoginIsAttempt(cfg, w, email, password, ip);
  }

  // ---- Main results ----

  /**
   In every run a login is answered 423 exactly while the wrong passwords of its account, or of its address, since
   their last success lock - if neither contains "failed" or "lockout".
   */
  lemma {:induction false} LockedExactly(cfg: Settings, events: seq<Event>, delay: nat, email: string, password: string,
          ip: Option<string>)
    requires !Occurs("failed", Lower(email)) && !Occurs("lockout", Lower(email))
    requires ip.Some? ==> !Occurs("failed", ip.value) && !Occurs("lockout", ip.value)
    ensures var t := Run(cfg, BOOT, events);
            var now := t.world.clock + 1 + delay;
            Step(cfg, t.world, Event(delay, LoginUser(email, password, ip))).reply == Raised(423)
            <==> || Locks(cfg, WrongSinceSuccess(t.log, LockoutKeys.Account, Lower(email)), now)
                 || (ip.Some? && ip.value != ""
                     && Locks(cfg, WrongSinceSuccess(t.log, LockoutKeys.Address, ip.value), now))
  {
    hide Run;
    hide Login;
    hide Occurs;
    hide Locks;
    hide WrongSinceSuccess;
    hide Lockout.Live;
    hide AccountsSound;
    var t := Run(cfg, BOOT, events);
    var w := Tick(t.world, delay);
    NoServerError(cfg, events);
    TickSound(t.world, delay);
    Answered423(cfg, w, email, password, ip);
    LockoutRate.LockedMeans(w.redis, w.clock, email, ip);
    LiveLock(cfg, events, LockoutKeys.Account, Lower(email), w.clock);
    if ip.Some? {
      LiveLock(cfg, events, LockoutKeys.Address, ip.value, w.clock);
    }
  }

  /** For an account that contains "lockout" its own wrong passwords lock for at least as long. */
  lemma {:induction false} LockedAtLeast(cfg: Settings, events: seq<Event>, delay: nat, email: string, password: string,
          ip: Option<string>)
    requires !Occurs("failed", Lower(email))
    requires var t := Run(cfg, BOOT, events);
             Locks(cfg, WrongSinceSuccess(t.log, LockoutKeys.Account, Lower(email)), t.world.clock + 1 + delay)
    ensures Step(cfg, Run(cfg, BOOT, events).world, Event(delay, LoginUser(email, password, ip))).reply == Raised(423)
  {
    hide Run;
    hide Login;
    hide Occurs;
    hide Locks;
    hide WrongSinceSuccess;
    hide Lockout.Live;
    hide AccountsSound;
    var t := Run(cfg, BOOT, events);
    var w := Tick(t.world, delay);
    NoServerError(cfg, events);
    TickSound(t.world, delay);
    Answered423(cfg, w, email, password, ip);
    LockoutRate.LockedMeans(w.redis, w.clock, email, ip);
    LiveLock(cfg, events, LockoutKeys.Account, Lower(email), w.clock);
  }

  ghost predicate Rising(wrong: seq<Time>, last: Time) {
    && (forall i | 0 <= i < |wrong| :: wrong[i] <= last)
    && forall i, j | 0 <= i < j < |wrong| :: wrong[i] < wrong[j]
  }

  /** One more failure, later than all the others, if it counts. */
  lemma RisingAppend(wrong: seq<Time>, last: Time, at: Time)
    requires Rising(wrong, last) && last < at
    ensures Rising(wrong, at) && Rising(wrong + [at], at) && Rising([], at)
  {
  }

  lemma {:induction false} WrongInOrder(cfg: Settings, events: seq<Event>, scope: LockoutKeys.Scope, subject: string)
    ensures var t := Run(cfg, BOOT, events);
            Rising(WrongSinceSuccess(t.log, scope, subject), t.world.clock)
  {
    hide Handle;
    hide WrongSinceSuccess;
    hide Concerns;
    hide Rising;
    if events == [] {
      NothingWrong(cfg, scope, subject);
      RisingAppend([], -1, 0);
    } else {
      var before, e := events[..|events| - 1], events[|events| - 1];
      var t := Run(cfg, BOOT, before);
      var w := Tick(t.world, e.delay);
      WrongInOrder(cfg, before, scope, subject);
      ClockStep(cfg, w, e.request);
      var wrong := WrongSinceSuccess(t.log, scope, subject);
      WrongAppend(t.log, Exchange(w.clock, e.request, Handle(cfg, w, e.request).reply), scope, subject);
      RisingAppend(wrong, t.world.clock, w.clock);
    }
  }

  /**
   As many wrong passwords as the maximum within the span, none in the span before them, lock the account: every
   login of it is answered 423 until the span has passed since the last of them, and not later on its account.
   */
  lemma {:induction false} EnoughWrongPasswordsLock(cfg: Settings, events: seq<Event>, delay: nat, email: string,
          password: string, ip: Option<string>)
    requires !Occurs("failed", Lower(email))
    requires var wrong := WrongSinceSuccess(Run(cfg, BOOT, events).log, LockoutKeys.Account, Lower(email));
             var span, i := cfg.limits.ttlSeconds * 1_000_000, |wrong| - cfg.limits.maxAttempts;
             && i >= 0 && (i > 0 ==> wrong[i - 1] + span <= wrong[i]) && wrong[|wrong| - 1] < wrong[i] + span
    ensures var t := Run(cfg, BOOT, events);
            var now := t.world.clock + 1 + delay;
            var wrong := WrongSinceSuccess(t.log, LockoutKeys.Account, Lower(email));
            var until := wrong[|wrong| - 1] + cfg.limits.ttlSeconds * 1_000_000;
            && (now < until ==> Step(cfg, t.world, Event(delay, LoginUser(email, password, ip))).reply == Raised(423))
            && (!Occurs("lockout", Lower(email)) && until <= now ==>
                  Step(cfg, t.world, Event(delay, LoginUser(email, password, None))).reply != Raised(423))
  {
    hide Run;
    hide Step;
    hide Occurs;
    hide WrongSinceSuccess;
    var t := Run(cfg, BOOT, events);
    var now := t.world.clock + 1 + delay;
    var wrong := WrongSinceSuccess(t.log, LockoutKeys.Account, Lower(email));
    WrongInOrder(cfg, events, LockoutKeys.Account, Lower(email));
    EnoughLock(cfg.limits.ttlSeconds * 1_000_000, cfg.limits.maxAttempts, wrong);
    if Locks(cfg, wrong, now) {
      LockedAtLeast(cfg, events, delay, email, password, ip);
    }
    if !Occurs("lockout", Lower(email)) {
      LockedExactly(cfg, events, delay, email, password, None);
    }
  }

  /** With fewer wrong passwords than the maximum since the last success, no login without an address is refused. */
  lemma {:induction false} TooFewDoNotLock(cfg: Settings, events: seq<Event>, delay: nat, email: string,
          password: string)
    requires !Occurs("failed", Lower(email)) && !Occurs("lockout", Lower(email))
    requires |WrongSinceSuccess(Run(cfg, BOOT, events).log, LockoutKeys.Account, Lower(email))| < cfg.limits.maxAttempts
    ensures Step(cfg, Run(cfg, BOOT, events).world, Event(delay, LoginUser(email, password, None))).reply != Raised(423)
  {
    hide Run;
    hide Step;
    hide Occurs;
    hide WrongSinceSuccess;
    var wrong := WrongSinceSuccess(Run(cfg, BOOT, events).log, LockoutKeys.Account, Lower(email));
    TooFew(cfg.limits.ttlSeconds * 1_000_000, cfg.limits.maxAttempts, wrong);
    LockedExactly(cfg, events, delay, email, password, None);
  }

  /** A login that gets through leaves its account and its address without attempts and without locks. */
  lemma {:induction false} SuccessClears(cfg: Settings, events: seq<Event>, delay: nat, email: string, password: string,
          ip: Option<string>)
    requires Step(cfg, Run(cfg, BOOT, events).world, Event(delay, LoginUser(email, password, ip))).reply.Returned?
    ensures var w := Step(cfg, Run(cfg, BOOT, events).world, Event(delay, LoginUser(email, password, ip))).world;
            && LockoutKeys.CounterKey(LockoutKeys.Account, Lower(email)) !in w.redis
            && LockoutKeys.LockKey(LockoutKeys.Account, Lower(email)) !in w.redis
            && (ip.Some? && ip.value != "" ==>
                  && LockoutKeys.CounterKey(LockoutKeys.Address, ip.value) !in w.redis
                  && LockoutKeys.LockKey(LockoutKeys.Address, ip.value) !in w.redis)
  {
    hide Run;
    hide Login;
    hide CredentialOf;
    hide AccountsSound;
    hide Lockout.Gate;
    hide LockoutKeys.CounterKey;
    hide LockoutKeys.LockKey;
    var w := Run(cfg, BOOT, events).world;
    NoServerError(cfg, events);
    LoginHandled(cfg, w, Event(delay, LoginUser(email, password, ip)), email, password, ip);
    LockoutRate.ClearedKeys(email, ip, LockoutKeys.Account, Lower(email));
    if ip.Some? {
      LockoutRate.ClearedKeys(email, ip, LockoutKeys.Address, ip.value);
    }
  }
}
