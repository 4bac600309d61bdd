/**
 The brute-force guarantees on runs of the whole service: the logins of a run, with what the stored
 passwords made of them, are a schedule of attempts against the lockout gate.
 */
module LoginRate {
  import opened Prelude
  import opened Text
  import opened PasswordPolicy
  import opened AuthState
  import opened AuthSpec
  import opened Accounts
  import LockoutKeys
  import Lockout
  import LockoutRate

  function CredentialOf(w: World, email: string, password: string): Lockout.Credential {
    match ByEmail(w.db, email)
    case OneRow(u) =>
      if !VerifyPassword(password, w.db.users[u].password) then Lockout.Wrong
      else if w.db.users[u].active then Lockout.Correct else Lockout.CorrectInactive
    case _ => Lockout.Wrong
  }

  /** The login attempts of the run that `events` makes from `t`, in order. */
  function Attempts(cfg: Settings, t: Trace, events: seq<Event>): seq<Lockout.Attempt> {
    if events == [] then []
    else
      var before, e := events[..|events| - 1], events[|events| - 1];
      var w := Tick(Run(cfg, t, before).world, e.delay);
      Attempts(cfg, t, before)
      + (match e.request
         case LoginUser(email, password, ip) =>
           [Lockout.Attempt(w.clock, email, ip, CredentialOf(w, email, password))]
         case _ => [])
  }

  predicate IsLoginOf(x: Exchange, subject: string) {
    x.request.LoginUser? && Lower(x.request.email) == subject
  }

  /** When a password of the account was checked and found wrong, as the replies tell. */
  function WrongPasswords(log: seq<Exchange>, subject: string): seq<Time> {
    if log == [] then []
    else WrongPasswords(log[..|log| - 1], subject)
         + (if IsLoginOf(log[|log| - 1], subject) && log[|log| - 1].reply == Raised(401) then [log[|log| - 1].at]
           else [])
  }

  /** What a login does to the counters, and the answer that shows the verdict. */
  lemma LoginIsAttempt(cfg: Settings, w: World, email: string, password: string, ip: Option<string>)
    requires UsersSound(w.db.users, w.nextId) && ReferencesSound(w)
    ensures var r := Login(cfg, w, email, password, ip);
            var a := Lockout.Attempt(w.clock, email, ip, CredentialOf(w, email, password));
            && r.world.redis == Lockout.After(cfg.limits, w.redis, a)
            && (r.reply == Raised(401) <==> Lockout.Gate(w.redis, a) == Lockout.Rejected)
            && (r.reply.Returned? <==> Lockout.Gate(w.redis, a) == Lockout.Admitted)
            && (r.reply == Raised(423) <==> Lockout.Gate(w.redis, a) == Lockout.Refused)
  {
    hide SignIn;
    hide ByEmail;
    hide VerifyPassword;
    hide UsersSound;
    hide ReferencesSound;
    hide Lockout.Locked;
    hide Lockout.Record;
    hide Lockout.Clear;
    EmailUnique(w, email);
    if ByEmail(w.db, email).OneRow? {
      SignInFrame(cfg, w.(redis := Lockout.Clear(w.redis, email, ip)), ByEmail(w.db, email).id, LoginSuccess);
    }
  }

  lemma OthersLeaveRedis(cfg: Settings, w: World, req: Request)
    requires !req.LoginUser?
    ensures Handle(cfg, w, req).world.redis == w.redis
  {
    hide ByEmail;
    hide ByVerification;
    hide ByReset;
    hide Acceptable;
    hide CurrentActiveUser;
  }

  lemma ClockStep(cfg: Settings, w: World, req: Request)
    ensures Handle(cfg, w, req).world.clock == w.clock
  {
    hide ByEmail;
    hide ByVerification;
    hide ByReset;
    hide Acceptable;
    hide CurrentActiveUser;
    hide VerifyPassword;
  }

  lemma AttemptsAppend(cfg: Settings, t: Trace, before: seq<Event>, e: Event)
    ensures var w := Tick(Run(cfg, t, before).world, e.delay);
            Attempts(cfg, t, before + [e])
            == if e.request.LoginUser?
               then Attempts(cfg, t, before)
                    + [Lockout.Attempt(w.clock, e.request.email, e.request.ip,
                                       CredentialOf(w, e.request.email, e.request.password))]
               else Attempts(cfg, t, before)
  {
    hide Run;
    hide CredentialOf;
    assert (before + [e])[..|before|] == before;
  }

  ghost predicate Projects(cfg: Settings, t: Trace, events: seq<Event>) {
    var attempts, t' := Attempts(cfg, t, events), Run(cfg, t, events);
    && t'.world.redis == Lockout.Run(cfg.limits, t.world.redis, attempts)
    && Lockout.InOrder(t.world.clock, attempts)
    && Lockout.LastTime(t.world.clock, attempts) <= t'.world.clock
  }

  lemma ProjectStep(cfg: Settings, t: Trace, before: seq<Event>, e: Event)
    requires Projects(cfg, t, before) && AccountsSound(Run(cfg, t, before).world)
    ensures Projects(cfg, t, before + [e])
  {
    hide Handle;
    hide Run;
    hide Attempts;
    hide CredentialOf;
    hide AccountsSound;
    hide Lockout.After;
    hide Lockout.InOrder;
    var mid := Run(cfg, t, before);
    var w := Tick(mid.world, e.delay);
    var attempts := Attempts(cfg, t, before);
    ClockStep(cfg, w, e.request);
    RunAppend(cfg, t, before, e);
    AttemptsAppend(cfg, t, before, e);
    if e.request.LoginUser? {
      var a := Lockout.Attempt(w.clock, e.request.email, e.request.ip,
        CredentialOf(w, e.request.email, e.request.password));
      assert (attempts + [a])[..|attempts|] == attempts;
      LoginHandled(cfg, mid.world, e, e.request.email, e.request.password, e.request.ip);
      LaterInOrder(t.world.clock, attempts, a);
    } else {
      OthersLeaveRedis(cfg, w, e.request);
    }
  }

  lemma LaterInOrder(start: Time, attempts: seq<Lockout.Attempt>, a: Lockout.Attempt)
    requires Lockout.InOrder(start, attempts) && Lockout.LastTime(start, attempts) <= a.at
    ensures Lockout.InOrder(start, attempts + [a])
  {
  }

  lemma LoginHandled(cfg: Settings, w0: World, e: Event, email: string, password: string, ip: Option<string>)
    requires AccountsSound(w0) && e.request == LoginUser(email, password, ip)
    ensures var w := Tick(w0, e.delay); var r := Handle(cfg, w, e.request);
            var a := Lockout.Attempt(w.clock, email, ip, CredentialOf(w, email, password));
            && r.world.redis == Lockout.After(cfg.limits, w.redis, a)
            && (r.reply == Raised(401) <==> Lockout.Gate(w.redis, a) == Lockout.Rejected)
            && (r.reply.Returned? <==> Lockout.Gate(w.redis, a) == Lockout.Admitted)
  {
    hide Lockout.After;
    hide Lockout.Gate;
    hide AccountsSound;
    TickSound(w0, e.delay);
    UnfoldSound(Tick(w0, e.delay));
    LoginIsAttempt(cfg, Tick(w0, e.delay), email, password, ip);
  }

  lemma UnfoldSound(w: World)
    requires AccountsSound(w)
    ensures UsersSound(w.db.users, w.nextId) && ReferencesSound(w)
  {
  }

  /** The counters of a run are those of its login attempts. */
  lemma {:induction false} RunProjects(cfg: Settings, first: seq<Event>, events: seq<Event>)
    ensures Projects(cfg, Run(cfg, BOOT, first), events)
  {
    hide Projects;
    hide Run;
    hide AccountsSound;
    var t := Run(cfg, BOOT, first);
    if events == [] {
      EmptyProjects(cfg, t, events);
    } else {
      var before, e := events[..|events| - 1], events[|events| - 1];
      RunProjects(cfg, first, before);
      NoServerError(cfg, first + before);
      RunConcat(cfg, BOOT, first, before);
      ProjectStep(cfg, t, before, e);
      assert before + [e] == events;
    }
  }

  lemma EmptyProjects(cfg: Settings, t: Trace, events: seq<Event>)
    requires events == []
    ensures Projects(cfg, t, events)
  {
  }

  /** The failures that the lockout counts are those that clients were told about. */
  lemma {:induction false} FailuresSeen(cfg: Settings, first: seq<Event>, events: seq<Event>, subject: string)
    ensures var t := Run(cfg, BOOT, first);
            && |t.log| <= |Run(cfg, t, events).log|
            && WrongPasswords(Run(cfg, t, events).log[|t.log|..], subject)
               == Lockout.Failures(cfg.limits, t.world.redis, Attempts(cfg, t, events), subject)
  {
    hide Run;
    hide Projects;
    hide AccountsSound;
    hide Lockout.Failures;
    var t := Run(cfg, BOOT, first);
    LogGrows(cfg, t, events);
    if events == [] {
      NothingSeen(cfg, t, events, subject);
    } else {
      var before, e := events[..|events| - 1], events[|events| - 1];
      assert before + [e] == events;
      LogGrows(cfg, t, before);
      FailuresSeen(cfg, first, before, subject);
      RunProjects(cfg, first, before);
      NoServerError(cfg, first + before);
      RunConcat(cfg, BOOT, first, before);
      FailureSeen(cfg, t, before, e, subject);
    }
  }

  lemma NothingSeen(cfg: Settings, t: Trace, events: seq<Event>, subject: string)
    requires events == []
    ensures |t.log| <= |Run(cfg, t, events).log|
    ensures WrongPasswords(Run(cfg, t, events).log[|t.log|..], subject)
            == Lockout.Failures(cfg.limits, t.world.redis, Attempts(cfg, t, events), subject)
  {
    assert t.log[|t.log|..] == [];
  }

  lemma FailuresAppend(lim: Lockout.Limits, store: Lockout.Store, attempts: seq<Lockout.Attempt>, a: Lockout.Attempt,
          subject: string)
    ensures Lockout.Failures(lim, store, attempts + [a], subject)
            == Lockout.Failures(lim, store, attempts, subject)
               + (if Lower(a.email) == subject && Lockout.Gate(Lockout.Run(lim, store, attempts), a) == Lockout.Rejected
                  then [a.at] else [])
  {
    hide Lockout.Gate;
    hide Lockout.Run;
    assert (attempts + [a])[..|attempts|] == attempts;
  }

  lemma WrongAppend(log: seq<Exchange>, x: Exchange, subject: string)
    ensures WrongPasswords(log + [x], subject)
            == WrongPasswords(log, subject) + (if IsLoginOf(x, subject) && x.reply == Raised(401) then [x.at] else [])
  {
    assert (log + [x])[..|log|] == log;
  }

  lemma FailureSeen(cfg: Settings, t: Trace, before: seq<Event>, e: Event, subject: string)
    requires Projects(cfg, t, before) && AccountsSound(Run(cfg, t, before).world)
    requires |t.log| <= |Run(cfg, t, before).log|
    requires WrongPasswords(Run(cfg, t, before).log[|t.log|..], subject)
             == Lockout.Failures(cfg.limits, t.world.redis, Attempts(cfg, t, before), subject)
    ensures |t.log| <= |Run(cfg, t, before + [e]).log|
    ensures WrongPasswords(Run(cfg, t, before + [e]).log[|t.log|..], subject)
            == Lockout.Failures(cfg.limits, t.world.redis, Attempts(cfg, t, before + [e]), subject)
  {
    hide Handle;
    hide Run;
    hide Attempts;
    hide CredentialOf;
    hide WrongPasswords;
    hide AccountsSound;
    hide Lockout.Gate;
    hide Lockout.Run;
    hide Lockout.Failures;
    hide Lockout.InOrder;
    hide Lockout.LastTime;
    var mid := Run(cfg, t, before);
    var w := Tick(mid.world, e.delay);
    var x := Exchange(w.clock, e.request, Handle(cfg, w, e.request).reply);
    var seen := mid.log[|t.log|..];
    RunAppend(cfg, t, before, e);
    AttemptsAppend(cfg, t, before, e);
    assert (mid.log + [x])[|t.log|..] == seen + [x];
    WrongAppend(seen, x, subject);
    if e.request.LoginUser? {
      var a := Lockout.Attempt(w.clock, e.request.email, e.request.ip,
        CredentialOf(w, e.request.email, e.request.password));
      FailuresAppend(cfg.limits, t.world.redis, Attempts(cfg, t, before), a, subject);
      LoginHandled(cfg, mid.world, e, e.request.email, e.request.password, e.request.ip);
    }
  }

  /** If no login of the account was answered with success, none cleared its counters. */
  lemma {:induction false} NotClearedIfNoneReturned(cfg: Settings, first: seq<Event>, events: seq<Event>,
          subject: string)
    requires var t := Run(cfg, BOOT, first); var log := Run(cfg, t, events).log;
             forall i | |t.log| <= i < |log| :: IsLoginOf(log[i], subject) ==> log[i].reply.Raised?
    ensures var t := Run(cfg, BOOT, first);
            !Lockout.Cleared(cfg.limits, t.world.redis, Attempts(cfg, t, events), subject)
  {
    hide Run;
    hide Projects;
    hide AccountsSound;
    hide Lockout.Cleared;
    var t := Run(cfg, BOOT, first);
    if events == [] {
      NothingCleared(cfg.limits, t.world.redis, Attempts(cfg, t, events), subject);
    } else {
      var before, e := events[..|events| - 1], events[|events| - 1];
      assert before + [e] == events;
      RunProjects(cfg, first, before);
      NoServerError(cfg, first + before);
      RunConcat(cfg, BOOT, first, before);
      RunAppend(cfg, t, before, e);
      LogGrows(cfg, t, before);
      hide Step;
      var log, mid := Run(cfg, t, events).log, Run(cfg, t, before);
      assert forall i | 0 <= i < |mid.log| :: log[i] == mid.log[i];
      NotClearedIfNoneReturned(cfg, first, before, subject);
      NotClearedStep(cfg, t, before, e, subject);
    }
  }

  lemma NothingCleared(lim: Lockout.Limits, store: Lockout.Store, attempts: seq<Lockout.Attempt>, subject: string)
    requires attempts == []
    ensures !Lockout.Cleared(lim, store, attempts, subject)
  {
  }

  lemma NotClearedStep(cfg: Settings, t: Trace, before: seq<Event>, e: Event, subject: string)
    requires Projects(cfg, t, before) && AccountsSound(Run(cfg, t, before).world)
    requires !Lockout.Cleared(cfg.limits, t.world.redis, Attempts(cfg, t, before), subject)
    requires var log := Run(cfg, t, before + [e]).log;
             log != [] && (IsLoginOf(log[|log| - 1], subject) ==> log[|log| - 1].reply.Raised?)
    ensures !Lockout.Cleared(cfg.limits, t.world.redis, Attempts(cfg, t, before + [e]), subject)
  {
    hide Handle;
    hide Run;
    hide Attempts;
    hide CredentialOf;
    hide AccountsSound;
    hide Lockout.Gate;
    hide Lockout.Run;
    hide Lockout.Cleared;
    hide Lockout.InOrder;
    hide Lockout.LastTime;
    RunAppend(cfg, t, before, e);
    AttemptsAppend(cfg, t, before, e);
    if e.request.LoginUser? {
      var w := Tick(Run(cfg, t, before).world, e.delay);
      var a := Lockout.Attempt(w.clock, e.request.email, e.request.ip,
        CredentialOf(w, e.request.email, e.request.password));
      LoginHandled(cfg, Run(cfg, t, before).world, e, e.request.email, e.request.password, e.request.ip);
      NotClearedByLast(cfg.limits, t.world.redis, Attempts(cfg, t, before), a, subject);
    }
  }

  lemma NotClearedByLast(lim: Lockout.Limits, store: Lockout.Store, attempts: seq<Lockout.Attempt>, a: Lockout.Attempt,
          subject: string)
    requires !Lockout.Cleared(lim, store, attempts, subject)
    requires Lower(a.email) == subject ==> Lockout.Gate(Lockout.Run(lim, store, attempts), a) != Lockout.Admitted
    ensures !Lockout.Cleared(lim, store, attempts + [a], subject)
  {
    hide Lockout.Gate;
    hide Lockout.Run;
    var all := attempts + [a];
    forall i | 0 <= i < |all|
      ensures Lower(all[i].email) != subject
              || Lockout.Gate(Lockout.Run(lim, store, all[..i]), all[i]) != Lockout.Admitted
    {
      if i < |attempts| {
        assert all[..i] == attempts[..i];
      } else {
        assert all[..i] == attempts;
      }
    }
  }

  /**
   The rate bound on runs. After any run, while no login of an account succeeds, a half-open span of `n`
   lock TTLs sees at most `max_failed_attempts * (n + 1)` wrong passwords for it, whatever the mix of
   addresses, if its normalised email does not contain "failed".
   */
  lemma {:induction false} WrongPasswordRate(cfg: Settings, first: seq<Event>, events: seq<Event>, subject: string,
          from: Time, n: nat)
    requires !Occurs(LockoutKeys.FAILED, subject)
    requires var t := Run(cfg, BOOT, first); var log := Run(cfg, t, events).log;
             forall i | |t.log| <= i < |log| :: IsLoginOf(log[i], subject) ==> log[i].reply.Raised?
    ensures var t := Run(cfg, BOOT, first);
            && |t.log| <= |Run(cfg, t, events).log|
            && LockoutRate.CountIn(WrongPasswords(Run(cfg, t, events).log[|t.log|..], subject), from,
                 from + n * (cfg.limits.ttlSeconds * 1_000_000))
               <= cfg.limits.maxAttempts * (n + 1)
  {
    hide Run;
    hide LockoutRate.Sound;
    hide LockoutRate.CountIn;
    hide Lockout.Cleared;
    var t := Run(cfg, BOOT, first);
    FailuresSeen(cfg, first, events, subject);
    NotClearedIfNoneReturned(cfg, first, events, subject);
    ReachableSound(cfg, first, LockoutKeys.Account, subject);
    RunProjects(cfg, first, events);
    LockoutRate.RateBound(cfg.limits, t.world.redis, t.world.clock, Attempts(cfg, t, events), subject, from, n);
  }

  /** The counter and the lock of a name without "failed" agree in every reachable state. */
  lemma ReachableSound(cfg: Settings, events: seq<Event>, scope: LockoutKeys.Scope, subject: string)
    requires !Occurs(LockoutKeys.FAILED, subject)
    ensures var w := Run(cfg, BOOT, events).world; LockoutRate.Sound(cfg.limits, w.redis, w.clock, scope, subject)
  {
    hide Occurs;
    var attempts := Attempts(cfg, BOOT, events);
    RunProjects(cfg, [], events);
    assert Run(cfg, BOOT, []) == BOOT;
    EmptySound(cfg.limits, scope, subject);
    LockoutRate.LockoutInvariant(cfg.limits, map[], 0, attempts, scope, subject);
    hide Run;
    LockoutRate.SoundLater(cfg.limits, Lockout.Run(cfg.limits, map[], attempts), Lockout.LastTime(0, attempts),
                           Run(cfg, BOOT, events).world.clock, scope, subject);
  }

  lemma EmptySound(lim: Lockout.Limits, scope: LockoutKeys.Scope, subject: string)
    ensures LockoutRate.Sound(lim, map[], 0, scope, subject)
  {
  }
}
