/**
 What a request leaves committed when it raises (app/db/database.py:19-26 around the services).
 */
module Transactions {
  import opened Prelude
  import opened Text
  import opened PasswordPolicy
  import opened AuthState
  import opened AuthSpec
  import Accounts
  import Lockout

  /** Committed by a request that raised: nothing, one failure row, or the revocation of a reused family. */
  ghost predicate OnlyAFailure(w: World, req: Request, w': World) {
    && w'.mail == w.mail && w'.minted == w.minted && w'.nextId == w.nextId && w'.clock == w.clock
    && (req.LoginUser? || w'.redis == w.redis)
    && (|| w'.db == w.db
        || (exists row: AuditRow :: !row.success && row.event != RefreshReuse && row.createdAt == w.clock
             && w'.db == w.db.Log(row))
        || IsReuse(w, req, w'))
  }

  ghost predicate IsReuse(w: World, req: Request, w': World) {
    && req.RefreshTokens? && Decodes(w, req.token) && req.token.family.Some?
    && var f := req.token.family.value;
       && f in w.db.families && !w.db.families[f].revoked && w.db.families[f].last != Sha256(req.token)
       && w'.db == w.db.(families := w.db.families[f := w.db.families[f].(revoked := true)])
                  .Log(AuditRow(RefreshReuse, req.token.sub, Some(f), false, w.clock))
  }

  lemma RaiseOnly(w: World, req: Request, status: nat)
    ensures OnlyAFailure(w, req, Raise(w, status).world)
  {
  }

  lemma RefuseOnly(w: World, req: Request, w1: World, status: nat, event: EventType, user: Option<Uuid>,
          family: Option<Uuid>)
    requires w1 == w.(redis := w1.redis) && (req.LoginUser? || w1.redis == w.redis) && event != RefreshReuse
    ensures OnlyAFailure(w, req, Refuse(w1, status, event, user, family).world)
  {
    var row := AuditRow(event, user, family, false, w.clock);
    assert !row.success;
  }

  lemma LoginRaised(cfg: Settings, w: World, email: string, password: string, ip: Option<string>)
    ensures var r := Login(cfg, w, email, password, ip);
            r.reply.Raised? ==> OnlyAFailure(w, LoginUser(email, password, ip), r.world)
  {
    hide SignIn;
    hide Refuse;
    hide ByEmail;
    hide VerifyPassword;
    hide OnlyAFailure;
    hide Lockout.Locked;
    hide Lockout.Record;
    hide Lockout.Clear;
    var req := LoginUser(email, password, ip);
    if Lockout.Locked(w.redis, w.clock, email, ip) {
      RefuseOnly(w, req, w, 423, LoginLocked, None, None);
    } else {
      match ByEmail(w.db, email)
      case ManyRows => RaiseOnly(w, req, SERVER_ERROR);
      case NoRow => RefuseOnly(w, req, Failed(cfg, w, email, ip), 401, LoginFailure, None, None);
      case OneRow(u) =>
        RefuseOnly(w, req, Failed(cfg, w, email, ip), 401, LoginFailure, Some(u), None);
        RefuseOnly(w, req, w, 403, LoginInactive, Some(u), None);
        Accounts.SignInFrame(cfg, w.(redis := Lockout.Clear(w.redis, email, ip)), u, LoginSuccess);
    }
  }

  lemma RefreshRaised(cfg: Settings, w: World, token: Claims)
    ensures var r := Refresh(cfg, w, token);
            r.reply.Raised? ==> OnlyAFailure(w, RefreshTokens(token), r.world)
  {
    hide Refuse;
    hide OnlyAFailure;
    var req := RefreshTokens(token);
    RefuseOnly(w, req, w, 401, RefreshFailure, None, None);
    RefuseOnly(w, req, w, 401, RefreshFailure, token.sub, None);
    RefuseOnly(w, req, w, 401, RefreshFailure, token.sub, token.family);
    RaiseOnly(w, req, 401);
    if token.family.Some? && token.family.value in w.db.families && token.sub.Some? && Decodes(w, token)
       && !w.db.families[token.family.value].revoked && w.db.families[token.family.value].last != Sha256(token) {
      ReusedOnly(w, token, token.sub.value, token.family.value);
    }
  }

  lemma ReusedOnly(w: World, token: Claims, u: Uuid, f: Uuid)
    requires Decodes(w, token) && token.sub == Some(u) && token.family == Some(f) && f in w.db.families
    requires !w.db.families[f].revoked && w.db.families[f].last != Sha256(token)
    ensures OnlyAFailure(w, RefreshTokens(token), Reused(w, u, f).world)
  {
  }

  lemma ChallengeRaised(cfg: Settings, w: World, token: Claims, code: string)
    ensures var r := Challenge(cfg, w, token, code);
            r.reply.Raised? ==> OnlyAFailure(w, VerifyMfaChallenge(token, code), r.world)
  {
    hide SignIn;
    hide Refuse;
    hide OnlyAFailure;
    var req := VerifyMfaChallenge(token, code);
    RefuseOnly(w, req, w, 401, ChallengeFailure, None, None);
    RefuseOnly(w, req, w, 401, ChallengeFailure, token.sub, None);
    RefuseOnly(w, req, w, 400, ChallengeFailure, token.sub, None);
    RaiseOnly(w, req, 401);
    if token.sub.Some? {
      Accounts.SignInFrame(cfg, w, token.sub.value, ChallengeSuccess);
    }
  }

  lemma CallerRaised(cfg: Settings, w: World, req: Request)
    requires req.SetupMfa? || req.VerifyMfaSetup? || req.DisableMfa? || req.DeleteSession?
    ensures var r := Handle(cfg, w, req); r.reply.Raised? ==> OnlyAFailure(w, req, r.world)
  {
    hide Refuse;
    hide OnlyAFailure;
    hide CurrentActiveUser;
    var caller := CurrentActiveUser(w, req.token);
    RaiseOnly(w, req, 404);
    if caller.Active? {
      RefuseOnly(w, req, w, 400, MfaVerifyFailure, Some(caller.user), None);
      RefuseOnly(w, req, w, 400, MfaDisableFailure, Some(caller.user), None);
    }
  }

  lemma AccountRaised(cfg: Settings, w: World, req: Request)
    requires req.RegisterUser? || req.VerifyEmail? || req.ResendVerification? || req.ForgotPassword?
             || req.ResetPassword? || req.SetActive?
    ensures var r := Handle(cfg, w, req); r.reply.Raised? ==> OnlyAFailure(w, req, r.world)
  {
    hide SignIn;
    hide Refuse;
    hide OnlyAFailure;
    hide ByEmail;
    hide ByVerification;
    hide ByReset;
    hide Acceptable;
    RaiseOnly(w, req, 409);
    match req
    case RegisterUser(email, password, _) =>
      Accounts.SignInFrame(cfg, WithNewUser(w, Lower(email), password), w.nextId, Registered);
    case VerifyEmail(_) =>
      RefuseOnly(w, req, w, 400, VerificationFailure, None, None);
    case ResetPassword(mailed, _, _) =>
      RefuseOnly(w, req, w, 400, ResetFailure, None, None);
      if ByReset(w.db, mailed).OneRow? {
        RefuseOnly(w, req, w, 400, ResetFailure, Some(ByReset(w.db, mailed).id), None);
      }
    case _ =>
  }

  /**
   A request that raises leaves the committed tables as they were plus at most one failure row, except
   for reuse detection, which also revokes the one family. Only a login touches the counters.
   */
  lemma RaisingCommitsOnlyAFailure(cfg: Settings, w: World, req: Request)
    ensures var r := Handle(cfg, w, req); r.reply.Raised? ==> OnlyAFailure(w, req, r.world)
  {
    hide OnlyAFailure;
    match req
    case LoginUser(email, password, ip) => LoginRaised(cfg, w, email, password, ip);
    case RefreshTokens(token) => RefreshRaised(cfg, w, token);
    case VerifyMfaChallenge(token, code) => ChallengeRaised(cfg, w, token, code);
    case SetupMfa(_) => CallerRaised(cfg, w, req);
    case VerifyMfaSetup(_, _) => CallerRaised(cfg, w, req);
    case DisableMfa(_, _) => CallerRaised(cfg, w, req);
    case DeleteSession(_, _) => CallerRaised(cfg, w, req);
    case _ => AccountRaised(cfg, w, req);
  }
}
