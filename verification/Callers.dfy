/**
 Who is let in as a signed-in user (app/core/dependencies.py:21-71, app/core/security.py:32-49 and 95-105):
 over every run, exactly the bearers of access tokens that were handed out and have not expired.
 */
module Callers {
  import opened Prelude
  import opened Text
  import opened PasswordPolicy
  import opened AuthState
  import opened AuthSpec
  import Lockout
  import Sessions

  /** The access token that a reply hands out. */
  function AccessOf(reply: Reply): Option<Claims> {
    match reply
    case Returned(SignedIn(_, access, _)) => Some(access)
    case Returned(Rotated(access, _)) => Some(access)
    case _ => None
  }

  /** The user that an exchange signed in, or the subject of the refresh token that it rotated. */
  function Recipient(req: Request, reply: Reply): Option<Uuid> {
    match reply
    case Returned(SignedIn(user, _, _)) => Some(user)
    case _ => if req.RefreshTokens? then req.token.sub else None
  }

  /** This token was handed out to its subject, and when. */
  predicate HandedOut(log: seq<Exchange>, token: Claims, at: Time) {
    exists x | x in log :: AccessOf(x.reply) == Some(token) && x.at == at && Recipient(x.request, x.reply) == token.sub
  }

  /** The access tokens that verify are those handed out, each good for the access lifetime. */
  ghost predicate AccessSound(cfg: Settings, t: Trace) {
    && (forall c | c in t.world.minted && c.kind == AccessToken ::
          exists x | x in t.log :: AccessOf(x.reply) == Some(c))
    && (forall x | x in t.log && AccessOf(x.reply).Some? ::
          var c := AccessOf(x.reply).value;
          && c in t.world.minted && c.kind == AccessToken && c.exp == Expiry(x.at, cfg.Lifetime(AccessToken))
          && c.sub == Recipient(x.request, x.reply))
  }

  ghost predicate AccessStep(cfg: Settings, w: World, req: Request, r: Result) {
    && w.minted <= r.world.minted
    && (forall c | c in r.world.minted && c !in w.minted && c.kind == AccessToken :: AccessOf(r.reply) == Some(c))
    && (AccessOf(r.reply).Some? ==>
          var c := AccessOf(r.reply).value;
          && c in r.world.minted && c.kind == AccessToken && c.exp == Expiry(w.clock, cfg.Lifetime(AccessToken))
          && c.sub == Recipient(req, r.reply))
  }

  lemma SignInAccess(cfg: Settings, w: World, req: Request, u: Uuid, event: EventType)
    ensures AccessStep(cfg, w, req, SignIn(cfg, w, u, event))
  {
    hide Sessions.Create;
  }

  lemma RefuseAccess(cfg: Settings, w: World, req: Request, status: nat, event: EventType, user: Option<Uuid>,
          family: Option<Uuid>)
    ensures AccessStep(cfg, w, req, Refuse(w, status, event, user, family))
  {
  }

  lemma LoginAccess(cfg: Settings, w: World, email: string, password: string, ip: Option<string>)
    ensures AccessStep(cfg, w, LoginUser(email, password, ip), Login(cfg, w, email, password, ip))
  {
    hide SignIn;
    hide Refuse;
    hide ByEmail;
    hide VerifyPassword;
    hide Lockout.Locked;
    hide Lockout.Record;
    hide Lockout.Clear;
    var req := LoginUser(email, password, ip);
    RefuseAccess(cfg, w, req, 423, LoginLocked, None, None);
    RefuseAccess(cfg, Failed(cfg, w, email, ip), req, 401, LoginFailure, None, None);
    if ByEmail(w.db, email).OneRow? {
      var u := ByEmail(w.db, email).id;
      RefuseAccess(cfg, Failed(cfg, w, email, ip), req, 401, LoginFailure, Some(u), None);
      RefuseAccess(cfg, w, req, 403, LoginInactive, Some(u), None);
      SignInAccess(cfg, w.(redis := Lockout.Clear(w.redis, email, ip)), req, u, LoginSuccess);
    }
  }

  lemma RegisterAccess(cfg: Settings, w: World, email: string, password: string, breached: bool)
    ensures AccessStep(cfg, w, RegisterUser(email, password, breached), Register(cfg, w, email, password, breached))
  {
    hide SignIn;
    hide ByEmail;
    hide Acceptable;
    SignInAccess(cfg, WithNewUser(w, Lower(email), password), RegisterUser(email, password, breached), w.nextId,
      Registered);
  }

  lemma ChallengeAccess(cfg: Settings, w: World, token: Claims, code: string)
    ensures AccessStep(cfg, w, VerifyMfaChallenge(token, code), Challenge(cfg, w, token, code))
  {
    hide SignIn;
    hide Refuse;
    var req := VerifyMfaChallenge(token, code);
    RefuseAccess(cfg, w, req, 401, ChallengeFailure, None, None);
    RefuseAccess(cfg, w, req, 401, ChallengeFailure, token.sub, None);
    RefuseAccess(cfg, w, req, 400, ChallengeFailure, token.sub, None);
    if token.sub.Some? {
      SignInAccess(cfg, w, req, token.sub.value, ChallengeSuccess);
    }
  }

  lemma RefreshAccess(cfg: Settings, w: World, token: Claims)
    ensures AccessStep(cfg, w, RefreshTokens(token), Refresh(cfg, w, token))
  {
    hide Refuse;
    var req := RefreshTokens(token);
    RefuseAccess(cfg, w, req, 401, RefreshFailure, None, None);
    RefuseAccess(cfg, w, req, 401, RefreshFailure, token.sub, None);
    RefuseAccess(cfg, w, req, 401, RefreshFailure, token.sub, token.family);
  }

  lemma QuietAccess(cfg: Settings, w: World, req: Request)
    requires !req.RegisterUser? && !req.LoginUser? && !req.VerifyMfaChallenge? && !req.RefreshTokens?
    ensures AccessStep(cfg, w, req, Handle(cfg, w, req))
  {
    hide ByEmail;
    hide ByVerification;
    hide ByReset;
    hide Acceptable;
    hide CurrentActiveUser;
    hide RevokeFamiliesOf;
  }

  lemma StepAccess(cfg: Settings, w: World, req: Request)
    ensures AccessStep(cfg, w, req, Handle(cfg, w, req))
  {
    hide AccessStep;
    match req
    case RegisterUser(email, password, breached) => RegisterAccess(cfg, w, email, password, breached);
    case LoginUser(email, password, ip) => LoginAccess(cfg, w, email, password, ip);
    case VerifyMfaChallenge(token, code) => ChallengeAccess(cfg, w, token, code);
    case RefreshTokens(token) => RefreshAccess(cfg, w, token);
    case _ => QuietAccess(cfg, w, req); hide Handle;
  }

  lemma SoundStep(cfg: Settings, t: Trace, w: World, r: Result, x: Exchange)
    requires AccessSound(cfg, t) && w.minted == t.world.minted && AccessStep(cfg, w, x.request, r)
    requires x.reply == r.reply && x.at == w.clock
    ensures AccessSound(cfg, Trace(r.world, t.log + [x]))
  {
    hide AccessOf;
    hide Recipient;
    var log := t.log + [x];
    forall c | c in r.world.minted && c.kind == AccessToken
      ensures exists y | y in log :: AccessOf(y.reply) == Some(c)
    {
      if c in t.world.minted {
        var y :| y in t.log && AccessOf(y.reply) == Some(c);
        assert y in log;
      } else {
        assert x in log;
      }
    }
  }

  lemma {:induction false} RunAccess(cfg: Settings, events: seq<Event>)
    ensures AccessSound(cfg, Run(cfg, BOOT, events))
  {
    hide Handle;
    hide AccessSound;
    if events == [] {
      BootAccess(cfg);
    } else {
      var before, e := events[..|events| - 1], events[|events| - 1];
      var t := Run(cfg, BOOT, before);
      var w := Tick(t.world, e.delay);
      RunAccess(cfg, before);
      StepAccess(cfg, w, e.request);
      SoundStep(cfg, t, w, Handle(cfg, w, e.request), Exchange(w.clock, e.request, Handle(cfg, w, e.request).reply));
    }
  }

  lemma BootAccess(cfg: Settings)
    ensures AccessSound(cfg, BOOT)
  {
  }

  /** The token was handed out, and the access lifetime, rounded down to a second, has not passed since. */
  ghost predicate Bears(cfg: Settings, log: seq<Exchange>, token: Claims, now: Time) {
    exists at :: HandedOut(log, token, at) && now < (at + cfg.accessMinutes * 60 * 1_000_000) / 1_000_000 * 1_000_000
  }

  /**
   In every run a token lets its bearer in as its subject exactly when a sign-in or a rotation handed it to
   that user as an access token, the access lifetime, rounded down to a second, has not passed since, and the user
   is active. An inactive user is turned away with 400, every other bearer with 401.
   */
  lemma {:induction false} LetInIff(cfg: Settings, events: seq<Event>, delay: nat, token: Claims)
    ensures var t := Run(cfg, BOOT, events);
            var w := Tick(t.world, delay);
            CurrentActiveUser(w, token)
            == if Bears(cfg, t.log, token, w.clock) && token.sub.Some? && token.sub.value in w.db.users
               then if w.db.users[token.sub.value].active then Active(token.sub.value) else Rejected(400)
               else Rejected(401)
  {
    hide Run;
    hide AccessOf;
    hide Recipient;
    var t := Run(cfg, BOOT, events);
    var w := Tick(t.world, delay);
    RunAccess(cfg, events);
    if token in t.world.minted && token.kind == AccessToken {
      var x :| x in t.log && AccessOf(x.reply) == Some(token);
      assert HandedOut(t.log, token, x.at);
    }
    forall at | HandedOut(t.log, token, at)
      ensures token in t.world.minted && token.kind == AccessToken
      ensures Unexpired(token, w.clock)
              <==> w.clock < (at + cfg.accessMinutes * 60 * 1_000_000) / 1_000_000 * 1_000_000
    {
      hide Unexpired;
      var x :| x in t.log && AccessOf(x.reply) == Some(token) && x.at == at;
      UnexpiredIff(at, cfg.Lifetime(AccessToken), token, w.clock);
    }
  }

  /** The bearer of this token is let in as the user. */
  predicate CallsAs(cfg: Settings, events: seq<Event>, delay: nat, token: Claims, u: Uuid) {
    CurrentActiveUser(Tick(Run(cfg, BOOT, events).world, delay), token) == Active(u)
  }

  /** A bearer who is not let in is turned away from all four calls with that status, and nothing changes. */
  lemma TurnedAway(cfg: Settings, w: World, req: Request)
    requires req.SetupMfa? || req.VerifyMfaSetup? || req.DisableMfa? || req.DeleteSession?
    requires CurrentActiveUser(w, req.token).Rejected?
    ensures Handle(cfg, w, req) == Result(w, Raised(CurrentActiveUser(w, req.token).status))
  {
    hide CurrentActiveUser;
  }
}
