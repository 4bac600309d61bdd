/**
 The MFA gate (app/services/auth_service.py:238-252 and 362-456, app/services/mfa_service.py): where a
 token family of a user with MFA comes from, over every run.
 */
module MfaGate {
  import opened Prelude
  import opened PasswordPolicy
  import opened AuthState
  import opened AuthSpec
  import opened FamilyMoves
  import opened Accounts
  import Lockout

  // ---- Challenges come from correct passwords ----

  /** The login that this request is got the password right and was answered with this challenge. */
  ghost predicate Challenges(cfg: Settings, w: World, req: Request, reply: Reply, c: Claims) {
    && req.LoginUser? && reply == Returned(MfaRequired(c))
    && c.kind == ChallengeToken && c.sub.Some?
    && ByEmail(w.db, req.email) == OneRow(c.sub.value) && c.sub.value in w.db.users
    && VerifyPassword(req.password, w.db.users[c.sub.value].password)
    && c.exp == Expiry(w.clock, cfg.Lifetime(ChallengeToken))
  }

  /** The world in which the j-th event of a run is handled. */
  function WorldAt(cfg: Settings, events: seq<Event>, j: nat): World
    requires j < |events|
  {
    Tick(Run(cfg, BOOT, events[..j]).world, events[j].delay)
  }

  ghost predicate ChallengedAt(cfg: Settings, events: seq<Event>, j: nat, c: Claims) {
    j < |events|
    && var w := WorldAt(cfg, events, j);
       Challenges(cfg, w, events[j].request, Handle(cfg, w, events[j].request).reply, c)
  }

  ghost predicate NewChallenges(cfg: Settings, w: World, req: Request, r: Result) {
    forall c | c in r.world.minted && c !in w.minted && c.kind == ChallengeToken ::
      Challenges(cfg, w, req, r.reply, c)
  }

  lemma LoginChallenges(cfg: Settings, w: World, email: string, password: string, ip: Option<string>)
    ensures NewChallenges(cfg, w, LoginUser(email, password, ip), Login(cfg, w, email, password, ip))
  {
    hide Refuse;
    hide ByEmail;
    hide VerifyPassword;
    hide Lockout.Locked;
    hide Lockout.Record;
    hide Lockout.Clear;
    RefuseFrame(w, 423, LoginLocked, None, None);
    RefuseFrame(Failed(cfg, w, email, ip), 401, LoginFailure, None, None);
    if ByEmail(w.db, email).OneRow? {
      var u := ByEmail(w.db, email).id;
      RefuseFrame(Failed(cfg, w, email, ip), 401, LoginFailure, Some(u), None);
      RefuseFrame(w, 403, LoginInactive, Some(u), None);
    }
  }

  lemma OtherChallenges(cfg: Settings, w: World, req: Request)
    requires !req.LoginUser?
    ensures NewChallenges(cfg, w, req, Handle(cfg, w, req))
  {
    hide ByEmail;
    hide ByVerification;
    hide ByReset;
    hide Acceptable;
    hide CurrentActiveUser;
    hide VerifyPassword;
  }

  lemma {:induction false} EveryChallengeEarned(cfg: Settings, events: seq<Event>, c: Claims)
    requires c in Run(cfg, BOOT, events).world.minted && c.kind == ChallengeToken
    ensures exists j: nat :: ChallengedAt(cfg, events, j, c)
  {
    hide Handle;
    hide Challenges;
    var n := |events| - 1;
    var t := Run(cfg, BOOT, events[..n]);
    var w := Tick(t.world, events[n].delay);
    if c in t.world.minted {
      EveryChallengeEarned(cfg, events[..n], c);
      var j: nat :| ChallengedAt(cfg, events[..n], j, c);
      assert events[..n][..j] == events[..j];
      assert ChallengedAt(cfg, events, j, c);
    } else {
      if events[n].request.LoginUser? {
        LoginEarns(cfg, w, events[n].request);
      } else {
        OtherChallenges(cfg, w, events[n].request);
      }
      assert ChallengedAt(cfg, events, n, c);
    }
  }

  lemma LoginEarns(cfg: Settings, w: World, req: Request)
    requires req.LoginUser?
    ensures NewChallenges(cfg, w, req, Handle(cfg, w, req))
  {
    LoginChallenges(cfg, w, req.email, req.password, req.ip);
  }

  // ---- The gate ----

  /** A family that a step opens for a user with MFA enabled was opened by a challenge with a valid code. */
  lemma OpeningPassedGate(cfg: Settings, w: World, req: Request, f: Uuid)
    requires AccountsSound(w)
    requires var families := Handle(cfg, w, req).world.db.families;
             f !in w.db.families && f in families && MfaIsEnabled(w.db, families[f].owner)
    ensures var u := Handle(cfg, w, req).world.db.families[f].owner;
            && req.VerifyMfaChallenge? && Decodes(w, req.token) && req.token.kind == ChallengeToken
            && req.token.sub == Some(u) && cfg.totp(w.db.mfa[u].secret, req.code, w.clock)
  {
    hide SignIn;
    hide Refuse;
    hide ByEmail;
    hide ByReset;
    hide UsersSound;
    match req
    case RegisterUser(email, password, breached) => var m := RegisterMoves(cfg, w, email, password, breached);
      NewUserHasNoMfa(w);
    case LoginUser(email, password, ip) => var m := LoginMoves(cfg, w, email, password, ip);
    case VerifyMfaChallenge(token, code) => var m := ExchangeMoves(cfg, w, token, code);
    case RefreshTokens(token) => var m := RefreshMoves(cfg, w, token);
    case ResetPassword(mailed, password, breached) => var m := ResetMoves(cfg, w, mailed, password, breached);
    case VerifyEmail(_) => AccountMoves(cfg, w, req);
    case ResendVerification(_) => AccountMoves(cfg, w, req);
    case ForgotPassword(_) => AccountMoves(cfg, w, req);
    case SetActive(_, _) => AccountMoves(cfg, w, req);
    case _ => CallerMoves(cfg, w, req);
  }

  lemma NewUserHasNoMfa(w: World)
    requires AccountsSound(w)
    ensures w.nextId !in w.db.mfa
  {
    hide UserSound;
  }

  /**
   Provenance. In every run, a family opened for a user with MFA enabled came from exchanging a
   challenge with a code valid for that user's secret, and that challenge was the answer to an earlier
   correct-password login of the same user, less than the challenge lifetime ago.
   */
  lemma {:induction false} MfaGateProvenance(cfg: Settings, events: seq<Event>, e: Event, f: Uuid)
    requires var w := Tick(Run(cfg, BOOT, events).world, e.delay);
             var families := Handle(cfg, w, e.request).world.db.families;
             f !in w.db.families && f in families && MfaIsEnabled(w.db, families[f].owner)
    ensures var w := Tick(Run(cfg, BOOT, events).world, e.delay);
            var u := Handle(cfg, w, e.request).world.db.families[f].owner;
            && e.request.VerifyMfaChallenge?
            && cfg.totp(w.db.mfa[u].secret, e.request.code, w.clock)
            && e.request.token.sub == Some(u)
            && exists j: nat :: ChallengedAt(cfg, events, j, e.request.token)
                           && w.clock < WorldAt(cfg, events, j).clock + cfg.challengeMinutes * 60 * 1_000_000
  {
    hide Run;
    hide Handle;
    hide AccountsSound;
    hide Challenges;
    hide WorldAt;
    var t := Run(cfg, BOOT, events);
    var w := Tick(t.world, e.delay);
    NoServerError(cfg, events);
    TickSound(t.world, e.delay);
    OpeningPassedGate(cfg, w, e.request, f);
    EveryChallengeEarned(cfg, events, e.request.token);
    var j: nat :| ChallengedAt(cfg, events, j, e.request.token);
    ChallengeExpiry(cfg, events, j, e.request.token);
    ExpiryBound(WorldAt(cfg, events, j).clock, cfg.Lifetime(ChallengeToken), e.request.token, w.clock);
  }

  lemma ChallengeExpiry(cfg: Settings, events: seq<Event>, j: nat, c: Claims)
    requires ChallengedAt(cfg, events, j, c)
    ensures j < |events| && c.exp == Expiry(WorldAt(cfg, events, j).clock, cfg.Lifetime(ChallengeToken))
  {
    hide Handle;
  }

  lemma {:induction false} SignedStaysSigned(cfg: Settings, t: Trace, more: seq<Event>)
    ensures t.world.minted <= Run(cfg, t, more).world.minted
  {
    hide Handle;
    if more != [] {
      var n := |more| - 1;
      SignedStaysSigned(cfg, t, more[..n]);
      var m := Classify(cfg, Tick(Run(cfg, t, more[..n]).world, more[n].delay), more[n].request);
    }
  }

  lemma ChallengedIsSigned(cfg: Settings, events: seq<Event>, j: nat, c: Claims)
    requires ChallengedAt(cfg, events, j, c)
    ensures c in Run(cfg, BOOT, events).world.minted && c.kind == ChallengeToken
  {
    hide Run;
    hide Handle;
    hide Challenges;
    var first := events[..j + 1];
    assert first[..j] == events[..j];
    ReplySigns(cfg, WorldAt(cfg, events, j), events[j].request, c);
    RunAppend(cfg, BOOT, events[..j], events[j]);
    assert first == events[..j] + [events[j]];
    SignedStaysSigned(cfg, Run(cfg, BOOT, first), events[j + 1..]);
    RunConcat(cfg, BOOT, first, events[j + 1..]);
    assert first + events[j + 1..] == events;
  }

  lemma ReplySigns(cfg: Settings, w: World, req: Request, c: Claims)
    requires Challenges(cfg, w, req, Handle(cfg, w, req).reply, c)
    ensures c in Handle(cfg, w, req).world.minted && c.kind == ChallengeToken
  {
    hide ByEmail;
    hide VerifyPassword;
    hide SignIn;
    hide Refuse;
    hide Lockout.Locked;
    hide Lockout.Record;
    hide Lockout.Clear;
    RefuseFrame(w, 423, LoginLocked, None, None);
    SignInAnswers(cfg, w.(redis := Lockout.Clear(w.redis, req.email, req.ip)), ByEmail(w.db, req.email).id,
      LoginSuccess);
  }

  /** An earlier correct-password login was answered with this challenge, which has not expired. */
  ghost predicate Earned(cfg: Settings, events: seq<Event>, token: Claims, now: Time) {
    exists j: nat ::
      && ChallengedAt(cfg, events, j, token)
      && now < (WorldAt(cfg, events, j).clock + cfg.challengeMinutes * 60 * 1_000_000) / 1_000_000 * 1_000_000
  }

  /**
   In every run the exchange of a challenge succeeds exactly when an earlier correct-password login was answered
   with it, the challenge lifetime, rounded down to a second, has not passed since, its user is active with MFA
   still enabled, and the code is valid for the secret. It is refused with 400 for the last two, 401 otherwise.
   */
  lemma {:induction false} ExchangeSucceedsIff(cfg: Settings, events: seq<Event>, delay: nat, token: Claims,
          code: string)
    ensures var w := Tick(Run(cfg, BOOT, events).world, delay);
            var reply := Handle(cfg, w, VerifyMfaChallenge(token, code)).reply;
            if !Earned(cfg, events, token, w.clock) || token.sub.None? || token.sub.value !in w.db.users
               || !w.db.users[token.sub.value].active
            then reply == Raised(401)
            else if MfaIsEnabled(w.db, token.sub.value) && cfg.totp(w.db.mfa[token.sub.value].secret, code, w.clock)
            then reply.Returned?
            else reply == Raised(400)
  {
    hide Run;
    hide SignIn;
    hide Refuse;
    hide ChallengedAt;
    hide AccountsSound;
    var w := Tick(Run(cfg, BOOT, events).world, delay);
    ChallengeSigned(cfg, events, delay, token);
    NoServerError(cfg, events);
    TickSound(Run(cfg, BOOT, events).world, delay);
    RefuseStatus(w, 401, ChallengeFailure, None, None);
    if token in w.minted {
      ChallengeNames(w, token);
      RefuseStatus(w, 401, ChallengeFailure, token.sub, None);
      RefuseStatus(w, 400, ChallengeFailure, token.sub, None);
      SignInAnswers(cfg, w, token.sub.value, ChallengeSuccess);
    }
  }

  lemma ChallengeNames(w: World, token: Claims)
    requires AccountsSound(w) && token in w.minted
    ensures token.sub.Some? && token.sub.value in w.db.users
  {
    hide UsersSound;
  }

  /** The challenges that decode are those earned. */
  lemma ChallengeSigned(cfg: Settings, events: seq<Event>, delay: nat, token: Claims)
    ensures var w := Tick(Run(cfg, BOOT, events).world, delay);
            Decodes(w, token) && token.kind == ChallengeToken <==> Earned(cfg, events, token, w.clock)
  {
    hide Run;
    hide ChallengedAt;
    var w := Tick(Run(cfg, BOOT, events).world, delay);
    if token in w.minted && token.kind == ChallengeToken {
      EveryChallengeEarned(cfg, events, token);
    }
    forall j: nat | ChallengedAt(cfg, events, j, token)
      ensures token in w.minted && token.kind == ChallengeToken && j < |events|
      ensures Unexpired(token, w.clock)
              <==> w.clock < (WorldAt(cfg, events, j).clock + cfg.challengeMinutes * 60 * 1_000_000)
                             / 1_000_000 * 1_000_000
    {
      hide Unexpired;
      ChallengedIsSigned(cfg, events, j, token);
      ChallengeExpiry(cfg, events, j, token);
      UnexpiredIff(WorldAt(cfg, events, j).clock, cfg.Lifetime(ChallengeToken), token, w.clock);
    }
  }

  // ---- Flags ----

  /** The request is the owner's, signed in, with a code valid for the stored secret. */
  ghost predicate ProvesCode(cfg: Settings, w: World, req: Request, u: Uuid) {
    && (req.VerifyMfaSetup? || req.DisableMfa?)
    && CurrentActiveUser(w, req.token) == Active(u)
    && u in w.db.mfa && cfg.totp(w.db.mfa[u].secret, req.code, w.clock)
  }

  /**
   A user's MFA flag changes exactly when that user, signed in, sends a code valid for the stored secret to
   the call that switches it: on by verifying while it is off, off by disabling while it is on.
   */
  lemma FlagNeedsCode(cfg: Settings, w: World, req: Request, u: Uuid)
    ensures var db := Handle(cfg, w, req).world.db;
            && (MfaIsEnabled(db, u) && !MfaIsEnabled(w.db, u)
                <==> req.VerifyMfaSetup? && ProvesCode(cfg, w, req, u) && !w.db.mfa[u].enabled)
            && (!MfaIsEnabled(db, u) && MfaIsEnabled(w.db, u)
                <==> req.DisableMfa? && ProvesCode(cfg, w, req, u) && w.db.mfa[u].enabled)
  {
    hide ByEmail;
    hide ByVerification;
    hide ByReset;
    hide Acceptable;
    hide CurrentActiveUser;
    if req.LoginUser? || req.VerifyMfaChallenge? || req.RefreshTokens? {
      hide Handle;
      ExchangeFrame(cfg, w, req);
    }
  }

  // ---- Secrets ----

  ghost predicate SecretsKept(db: Db, db': Db) {
    forall u | u in db.mfa :: u in db'.mfa && db'.mfa[u].secret == db.mfa[u].secret
  }

  lemma SecretsStep(cfg: Settings, w: World, req: Request)
    ensures SecretsKept(w.db, Handle(cfg, w, req).world.db)
  {
    hide ByEmail;
    hide ByVerification;
    hide ByReset;
    hide Acceptable;
    hide CurrentActiveUser;
    if req.LoginUser? || req.VerifyMfaChallenge? || req.RefreshTokens? {
      hide Handle;
      ExchangeFrame(cfg, w, req);
    }
  }

  /** Setup, disabling and setup again never change a user's secret. */
  lemma {:induction false} SecretNeverChanges(cfg: Settings, t: Trace, more: seq<Event>, u: Uuid)
    requires u in t.world.db.mfa
    ensures u in Run(cfg, t, more).world.db.mfa
    ensures Run(cfg, t, more).world.db.mfa[u].secret == t.world.db.mfa[u].secret
  {
    hide Handle;
    if more != [] {
      var before, e := more[..|more| - 1], more[|more| - 1];
      SecretNeverChanges(cfg, t, before, u);
      SecretsStep(cfg, Tick(Run(cfg, t, before).world, e.delay), e.request);
    }
  }
}
