/**
 What each service call of app/services/auth_service.py, mfa_service.py and session_service.py
 leaves committed, and what it answers. One call is one step; a request that raises leaves only
 what it committed before raising.
 */
module AuthSpec {
  import opened Prelude
  import opened Text
  import opened PasswordPolicy
  import opened Sessions
  import opened AuthState
  import Lockout

  // ---- Tokens (app/core/security.py:32-92) ----

  function AccessFor(cfg: Settings, now: Time, user: Uuid): Claims {
    Claims(AccessToken, Some(user), None, Expiry(now, cfg.Lifetime(AccessToken)), None)
  }

  function RefreshFor(cfg: Settings, now: Time, user: Uuid, family: Uuid, jti: Uuid): Claims {
    Claims(RefreshToken, Some(user), Some(family), Expiry(now, cfg.Lifetime(RefreshToken)), Some(jti))
  }

  function ChallengeFor(cfg: Settings, now: Time, user: Uuid, jti: Uuid): Claims {
    Claims(ChallengeToken, Some(user), None, Expiry(now, cfg.Lifetime(ChallengeToken)), Some(jti))
  }

  // ---- Outcomes ----

  function Raise(w: World, status: nat): (r: Result)
    ensures r.reply.Raised?
  {
    Result(w, Raised(status))
  }

  /**
   Record a failure, commit, raise. The audit row's `user_id` is a foreign key: with no such user
   the insert itself fails and nothing is written.
   */
  function Refuse(w: World, status: nat, event: EventType, user: Option<Uuid>, family: Option<Uuid>): (r: Result)
    ensures r.reply.Raised?
  {
    if user.Some? && user.value !in w.db.users then Raise(w, SERVER_ERROR)
    else Result(w.(db := w.db.Log(AuditRow(event, user, family, false, w.clock))), Raised(status))
  }

  function Success(w: World, event: EventType, user: Uuid, family: Option<Uuid>): World {
    w.(db := w.db.Log(AuditRow(event, Some(user), family, true, w.clock)))
  }

  /** `_issue_token_pair` and `create_user_session`, then the audit row of the caller. */
  function SignIn(cfg: Settings, w: World, user: Uuid, event: EventType): Result {
    var family, jti, session := w.nextId, w.nextId + 1, w.nextId + 2;
    var access := AccessFor(cfg, w.clock, user);
    var refresh := RefreshFor(cfg, w.clock, user, family, jti);
    var row := Session(user, w.clock, w.clock + cfg.sessionDays * 86400 * SECOND);
    var db := w.db.(
      families := w.db.families[family := Family(user, false, Sha256(refresh), w.clock)],
      sessions := Create(w.db.sessions, session, row, cfg.maxSessions));
    var w' := w.(db := db, minted := w.minted + {access, refresh}, nextId := w.nextId + 3);
    Result(Success(w', event, user, None), Returned(SignedIn(user, access, refresh)))
  }

  // ---- Accounts ----

  function Register(cfg: Settings, w: World, email: string, password: string, breached: bool): Result {
    var normalized := Lower(email);
    match ByEmail(w.db, email)
    case ManyRows => Raise(w, SERVER_ERROR)
    case OneRow(_) => Raise(w, 409)
    case NoRow =>
      if !Acceptable(password, normalized, breached) then Raise(w, 422)
      else SignIn(cfg, WithNewUser(w, normalized, password), w.nextId, Registered)
  }

  /** The new row, whose id and mailed token are the next two fresh values. */
  function WithNewUser(w: World, email: string, password: string): World {
    var u, token := w.nextId, w.nextId + 1;
    var user := User(email, Bcrypt(password), true, false, Some(Sha256(token)), None, None);
    w.(db := w.db.(users := w.db.users[u := user]),
       mail := w.mail + [Mail(VerifyMail, email, token, w.clock)],
       nextId := w.nextId + 2)
  }

  function WithUser(w: World, u: Uuid, user: User): World {
    w.(db := w.db.(users := w.db.users[u := user]))
  }

  function Verify(w: World, token: Uuid): Result {
    match ByVerification(w.db, token)
    case ManyRows => Raise(w, SERVER_ERROR)
    case NoRow => Refuse(w, 400, VerificationFailure, None, None)
    case OneRow(u) =>
      var user := w.db.users[u].(verified := true, verification := None);
      Result(Success(WithUser(w, u, user), VerificationSuccess, u, None), Returned(Done))
  }

  function Resend(w: World, email: string): Result {
    match ByEmail(w.db, email)
    case ManyRows => Raise(w, SERVER_ERROR)
    case NoRow => Result(w, Returned(Done))
    case OneRow(u) =>
      if w.db.users[u].verified then Result(w, Returned(Done))
      else
        var token := w.nextId;
        var w' := WithUser(w, u, w.db.users[u].(verification := Some(Sha256(token)))).(
          mail := w.mail + [Mail(VerifyMail, Lower(email), token, w.clock)],
          nextId := w.nextId + 1);
        Result(Success(w', VerificationResent, u, None), Returned(Done))
  }

  function Login(cfg: Settings, w: World, email: string, password: string, ip: Option<string>): Result {
    if Lockout.Locked(w.redis, w.clock, email, ip) then Refuse(w, 423, LoginLocked, None, None)
    else match ByEmail(w.db, email)
      case ManyRows => Raise(w, SERVER_ERROR)
      case NoRow => Refuse(Failed(cfg, w, email, ip), 401, LoginFailure, None, None)
      case OneRow(u) =>
        if !VerifyPassword(password, w.db.users[u].password)
        then Refuse(Failed(cfg, w, email, ip), 401, LoginFailure, Some(u), None)
        else if !w.db.users[u].active then Refuse(w, 403, LoginInactive, Some(u), None)
        else PasswordAccepted(cfg, w.(redis := Lockout.Clear(w.redis, email, ip)), u)
  }

  function Failed(cfg: Settings, w: World, email: string, ip: Option<string>): World {
    w.(redis := Lockout.Record(cfg.limits, w.redis, w.clock, email, ip))
  }

  /** The password was right: a challenge if MFA is on, tokens otherwise. */
  function PasswordAccepted(cfg: Settings, w: World, u: Uuid): Result {
    if MfaIsEnabled(w.db, u) then
      var challenge := ChallengeFor(cfg, w.clock, u, w.nextId);
      var w' := w.(minted := w.minted + {challenge}, nextId := w.nextId + 1);
      Result(Success(w', ChallengeIssued, u, None), Returned(MfaRequired(challenge)))
    else SignIn(cfg, w, u, LoginSuccess)
  }

  function Forgot(w: World, email: string): Result {
    match ByEmail(w.db, email)
    case ManyRows => Raise(w, SERVER_ERROR)
    case NoRow => Result(w, Returned(Done))
    case OneRow(u) =>
      if !w.db.users[u].active then Result(w, Returned(Done))
      else
        var token := w.nextId;
        var user := w.db.users[u].(reset := Some(Sha256(token)), resetExpires := Some(w.clock + RESET_LIFETIME));
        var w' := WithUser(w, u, user).(
          mail := w.mail + [Mail(ResetMail, Lower(email), token, w.clock)],
          nextId := w.nextId + 1);
        Result(Success(w', ResetRequested, u, None), Returned(Done))
  }

  predicate ResetExpired(user: User, now: Time) {
    user.resetExpires.None? || user.resetExpires.value < now
  }

  function RevokeFamiliesOf(families: map<Uuid, Family>, owner: Uuid): map<Uuid, Family> {
    map f | f in families :: if families[f].owner == owner then families[f].(revoked := true) else families[f]
  }

  function Reset(w: World, token: Uuid, password: string, breached: bool): Result {
    match ByReset(w.db, token)
    case ManyRows => Raise(w, SERVER_ERROR)
    case NoRow => Refuse(w, 400, ResetFailure, None, None)
    case OneRow(u) =>
      var user := w.db.users[u];
      if ResetExpired(user, w.clock) then Refuse(w, 400, ResetFailure, Some(u), None)
      else if !Acceptable(password, user.email, breached) then Raise(w, 422)
      else
        var user' := user.(password := Bcrypt(password), reset := None, resetExpires := None);
        var db := w.db.(users := w.db.users[u := user'], families := RevokeFamiliesOf(w.db.families, u));
        Result(Success(w.(db := db), ResetSuccess, u, None), Returned(Done))
  }

  // ---- Token exchanges ----

  function Challenge(cfg: Settings, w: World, token: Claims, code: string): Result {
    if !Decodes(w, token) || token.kind != ChallengeToken then Refuse(w, 401, ChallengeFailure, None, None)
    else if token.sub.None? then Raise(w, 401)
    else
      var u := token.sub.value;
      if u !in w.db.users || !w.db.users[u].active then Refuse(w, 401, ChallengeFailure, Some(u), None)
      else if !MfaIsEnabled(w.db, u) || !cfg.totp(w.db.mfa[u].secret, code, w.clock)
      then Refuse(w, 400, ChallengeFailure, Some(u), None)
      else SignIn(cfg, w, u, ChallengeSuccess)
  }

  function Refresh(cfg: Settings, w: World, token: Claims): Result {
    if !Decodes(w, token) || token.kind != RefreshToken then Refuse(w, 401, RefreshFailure, None, None)
    else if token.sub.None? then Raise(w, 401)
    else
      var u := token.sub.value;
      if token.family.None? then Refuse(w, 401, RefreshFailure, Some(u), None)
      else if u !in w.db.users || !w.db.users[u].active then Refuse(w, 401, RefreshFailure, Some(u), None)
      else
        var f := token.family.value;
        if f !in w.db.families || w.db.families[f].owner != u || w.db.families[f].revoked
        then Refuse(w, 401, RefreshFailure, Some(u), Some(f))
        else if w.db.families[f].last != Sha256(token) then Reused(w, u, f)
        else Rotate(cfg, w, u, f)
  }

  /** An older token of a live family: the whole family goes, and the request still raises. */
  function Reused(w: World, u: Uuid, f: Uuid): Result
    requires f in w.db.families
  {
    var db := w.db.(families := w.db.families[f := w.db.families[f].(revoked := true)]);
    Result(w.(db := db.Log(AuditRow(RefreshReuse, Some(u), Some(f), false, w.clock))), Raised(401))
  }

  function Rotate(cfg: Settings, w: World, u: Uuid, f: Uuid): Result
    requires f in w.db.families
  {
    var access := AccessFor(cfg, w.clock, u);
    var refresh := RefreshFor(cfg, w.clock, u, f, w.nextId);
    var db := w.db.(families := w.db.families[f := w.db.families[f].(last := Sha256(refresh))]);
    var w' := w.(db := db, minted := w.minted + {access, refresh}, nextId := w.nextId + 1);
    Result(Success(w', RefreshSuccess, u, Some(f)), Returned(Rotated(access, refresh)))
  }

  // ---- Calls of a signed-in user (app/core/dependencies.py:21-71) ----

  datatype Caller = Rejected(status: nat) | Active(user: Uuid)

  function CurrentActiveUser(w: World, token: Claims): (c: Caller)
    ensures c.Active? ==> c.user in w.db.users && token.sub == Some(c.user)
  {
    if !Decodes(w, token) || token.sub.None? || token.kind != AccessToken then Rejected(401)
    else if token.sub.value !in w.db.users then Rejected(401)
    else if !w.db.users[token.sub.value].active then Rejected(400)
    else Active(token.sub.value)
  }

  function WithMfa(w: World, u: Uuid, config: MfaConfig): World {
    w.(db := w.db.(mfa := w.db.mfa[u := config]))
  }

  function MfaSetup(w: World, token: Claims): Result {
    match CurrentActiveUser(w, token)
    case Rejected(status) => Raise(w, status)
    case Active(u) =>
      if MfaIsEnabled(w.db, u) then Raise(w, 409)
      else if u in w.db.mfa then
        Result(Success(w, MfaSetupStarted, u, None), Returned(MfaSecret(w.db.mfa[u].secret, false)))
      else
        var secret := w.nextId;
        var w' := WithMfa(w, u, MfaConfig(secret, false)).(nextId := w.nextId + 1);
        Result(Success(w', MfaSetupStarted, u, None), Returned(MfaSecret(secret, false)))
  }

  function MfaVerify(cfg: Settings, w: World, token: Claims, code: string): Result {
    match CurrentActiveUser(w, token)
    case Rejected(status) => Raise(w, status)
    case Active(u) =>
      if u !in w.db.mfa then Raise(w, 404)
      else if w.db.mfa[u].enabled then Result(w, Returned(MfaStatus(true)))
      else if !cfg.totp(w.db.mfa[u].secret, code, w.clock) then Refuse(w, 400, MfaVerifyFailure, Some(u), None)
      else
        var w' := WithMfa(w, u, w.db.mfa[u].(enabled := true));
        Result(Success(w', MfaEnabled, u, None), Returned(MfaStatus(true)))
  }

  function MfaDisable(cfg: Settings, w: World, token: Claims, code: string): Result {
    match CurrentActiveUser(w, token)
    case Rejected(status) => Raise(w, status)
    case Active(u) =>
      if u !in w.db.mfa then Raise(w, 404)
      else if !w.db.mfa[u].enabled then Result(w, Returned(MfaStatus(false)))
      else if !cfg.totp(w.db.mfa[u].secret, code, w.clock) then Refuse(w, 400, MfaDisableFailure, Some(u), None)
      else
        var w' := WithMfa(w, u, w.db.mfa[u].(enabled := false));
        Result(Success(w', MfaDisabled, u, None), Returned(MfaStatus(false)))
  }

  function RevokeSession(w: World, token: Claims, session: Uuid): Result {
    match CurrentActiveUser(w, token)
    case Rejected(status) => Raise(w, status)
    case Active(u) =>
      if session !in w.db.sessions || w.db.sessions[session].owner != u then Raise(w, 404)
      else
        var w' := w.(db := w.db.(sessions := w.db.sessions - {session}));
        Result(Success(w', SessionRevoked, u, None), Returned(Done))
  }

  function SetActivity(w: World, u: Uuid, active: bool): Result {
    if u in w.db.users then Result(WithUser(w, u, w.db.users[u].(active := active)), Returned(Done))
    else Result(w, Returned(Done))
  }

  // ---- One request ----

  function Handle(cfg: Settings, w: World, req: Request): Result {
    match req
    case RegisterUser(email, password, breached) => Register(cfg, w, email, password, breached)
    case VerifyEmail(mailed) => Verify(w, mailed)
    case ResendVerification(email) => Resend(w, email)
    case LoginUser(email, password, ip) => Login(cfg, w, email, password, ip)
    case ForgotPassword(email) => Forgot(w, email)
    case ResetPassword(mailed, password, breached) => Reset(w, mailed, password, breached)
    case VerifyMfaChallenge(token, code) => Challenge(cfg, w, token, code)
    case RefreshTokens(token) => Refresh(cfg, w, token)
    case SetupMfa(token) => MfaSetup(w, token)
    case VerifyMfaSetup(token, code) => MfaVerify(cfg, w, token, code)
    case DisableMfa(token, code) => MfaDisable(cfg, w, token, code)
    case DeleteSession(token, session) => RevokeSession(w, token, session)
    case SetActive(user, active) => SetActivity(w, user, active)
  }

  // ---- Runs ----

  /** A request that arrives `1 + delay` microseconds after the previous one. */
  datatype Event = Event(delay: nat, request: Request)

  function Tick(w: World, delay: nat): World {
    w.(clock := w.clock + 1 + delay)
  }

  function Step(cfg: Settings, w: World, e: Event): Result {
    Handle(cfg, Tick(w, e.delay), e.request)
  }

  datatype Exchange = Exchange(at: Time, request: Request, reply: Reply)

  /** The world, and the transcript of everything clients sent and received. */
  datatype Trace = Trace(world: World, log: seq<Exchange>)

  const BOOT: Trace := Trace(START, [])

  function Extend(cfg: Settings, t: Trace, e: Event): Trace {
    var r := Step(cfg, t.world, e);
    Trace(r.world, t.log + [Exchange(t.world.clock + 1 + e.delay, e.request, r.reply)])
  }

  function Run(cfg: Settings, t: Trace, events: seq<Event>): Trace {
    if events == [] then t
    else Extend(cfg, Run(cfg, t, events[..|events| - 1]), events[|events| - 1])
  }

  lemma {:induction false} RunConcat(cfg: Settings, t: Trace, first: seq<Event>, second: seq<Event>)
    ensures Run(cfg, t, first + second) == Run(cfg, Run(cfg, t, first), second)
  {
    if second == [] {
      assert first + second == first;
    } else {
      var n := |second| - 1;
      assert (first + second)[..|first + second| - 1] == first + second[..n];
      RunConcat(cfg, t, first, second[..n]);
    }
  }

  lemma RunAppend(cfg: Settings, t: Trace, before: seq<Event>, e: Event)
    ensures Run(cfg, t, before + [e]) == Extend(cfg, Run(cfg, t, before), e)
  {
    hide Extend;
    assert (before + [e])[..|before|] == before;
  }

  /** A run adds one exchange to the transcript per event. */
  lemma {:induction false} LogGrows(cfg: Settings, t: Trace, events: seq<Event>)
    ensures var log := Run(cfg, t, events).log;
            |log| == |t.log| + |events| && log[..|t.log|] == t.log
  {
    hide Step;
    if events == [] {
      assert t.log[..|t.log|] == t.log;
    } else {
      LogGrows(cfg, t, events[..|events| - 1]);
    }
  }
}
