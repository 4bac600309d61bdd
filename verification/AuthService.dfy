/**
 The service calls as the program runs them: each updates a pending copy of the tables step by step,
 commits before it raises where the program does, and is wrapped by `get_db`, which commits when the
 call returns and rolls back when it raises. Every method is proved against AuthSpec.
 */
module AuthService {
  import opened Prelude
  import opened Text
  import opened PasswordPolicy
  import opened Sessions
  import opened AuthState
  import Lockout
  import AuthSpec

  /** A database session (app/db/database.py:12-26). */
  class Database {
    var committed: Db
    var pending: Db

    constructor ()
      ensures committed == EMPTY_DB && pending == EMPTY_DB
    {
      committed, pending := EMPTY_DB, EMPTY_DB;
    }

    method Commit()
      modifies this
      ensures committed == old(pending) && pending == old(pending)
    {
      committed := pending;
    }

    method Rollback()
      modifies this
      ensures committed == old(committed) && pending == old(committed)
    {
      pending := committed;
    }
  }

  class AuthService {
    const cfg: Settings
    const session: Database
    const redis: Lockout.RedisClient
    var mail: seq<Mail>
    var minted: set<Claims>
    var nextId: Uuid
    var clock: Time

    constructor (cfg: Settings)
      ensures this.cfg == cfg && fresh(session) && fresh(redis)
      ensures Clean() && Committed() == START
    {
      this.cfg := cfg;
      this.session := new Database();
      this.redis := new Lockout.RedisClient();
      mail, minted, nextId, clock := [], {}, 0, 0;
    }

    /** What every other request sees. */
    ghost function Committed(): World
      reads this, session, redis
    {
      World(session.committed, redis.store, mail, minted, nextId, clock)
    }

    /** What the running request sees. */
    ghost function Pending(): World
      reads this, session, redis
    {
      World(session.pending, redis.store, mail, minted, nextId, clock)
    }

    ghost predicate Clean()
      reads session
    {
      session.pending == session.committed
    }

    /** The world that `get_db` will leave behind a call that ends with this reply. */
    ghost function Outcome(reply: Reply): Result
      reads this, session, redis
    {
      Result(if reply.Raised? then Committed() else Pending(), reply)
    }

    // ---- Helpers of the service modules ----

    method NewId() returns (id: Uuid)
      modifies this
      ensures id == old(nextId) && nextId == id + 1
      ensures mail == old(mail) && minted == old(minted) && clock == old(clock)
    {
      id := nextId;
      nextId := nextId + 1;
    }

    method Sign(token: Claims)
      modifies this
      ensures minted == old(minted) + {token}
      ensures mail == old(mail) && nextId == old(nextId) && clock == old(clock)
    {
      minted := minted + {token};
    }

    method Send(kind: MailKind, email: string, token: Uuid)
      modifies this
      ensures mail == old(mail) + [Mail(kind, email, token, clock)]
      ensures minted == old(minted) && nextId == old(nextId) && clock == old(clock)
    {
      mail := mail + [Mail(kind, email, token, clock)];
    }

    /** `record_audit_event`: add and flush; the flush fails when the user does not exist. */
    method RecordAuditEvent(event: EventType, user: Option<Uuid>, family: Option<Uuid>, success: bool)
            returns (ok: bool)
      modifies session
      ensures ok <==> (user.Some? ==> user.value in old(session.pending).users)
      ensures session.committed == old(session.committed)
      ensures session.pending == if ok then old(session.pending).Log(AuditRow(event, user, family, success, clock))
                                 else old(session.pending)
    {
      if user.Some? && user.value !in session.pending.users {
        return false;
      }
      session.pending := session.pending.Log(AuditRow(event, user, family, success, clock));
      return true;
    }

    /** Record the failure, commit, raise. */
    method Fail(status: nat, event: EventType, user: Option<Uuid>, family: Option<Uuid>) returns (reply: Reply)
      requires Clean()
      modifies session
      ensures Outcome(reply) == AuthSpec.Refuse(old(Committed()), status, event, user, family)
    {
      var ok := RecordAuditEvent(event, user, family, false);
      if !ok {
        return Raised(SERVER_ERROR);
      }
      session.Commit();
      return Raised(status);
    }

    /** `_issue_token_pair` */
    method IssueTokenPair(user: Uuid) returns (access: Claims, refresh: Claims)
      modifies this, session
      ensures access == AuthSpec.AccessFor(cfg, clock, user)
      ensures refresh == AuthSpec.RefreshFor(cfg, clock, user, old(nextId), old(nextId) + 1)
      ensures nextId == old(nextId) + 2 && minted == old(minted) + {access, refresh}
      ensures mail == old(mail) && clock == old(clock) && session.committed == old(session.committed)
      ensures session.pending == old(session.pending).(
                families := old(session.pending).families[old(nextId) := Family(user, false, Sha256(refresh), clock)])
    {
      var family := NewId();
      access := AuthSpec.AccessFor(cfg, clock, user);
      Sign(access);
      var jti := NewId();
      refresh := AuthSpec.RefreshFor(cfg, clock, user, family, jti);
      Sign(refresh);
      var db := session.pending;
      session.pending := db.(families := db.families[family := Family(user, false, Sha256(refresh), clock)]);
    }

    /** `create_user_session` */
    method CreateUserSession(user: Uuid)
      modifies this, session
      ensures nextId == old(nextId) + 1 && minted == old(minted) && mail == old(mail) && clock == old(clock)
      ensures session.committed == old(session.committed)
      ensures session.pending == old(session.pending).(
                sessions := Create(old(session.pending).sessions, old(nextId),
                                   Session(user, clock, clock + cfg.sessionDays * 86400 * SECOND), cfg.maxSessions))
    {
      var id := NewId();
      var row := Session(user, clock, clock + cfg.sessionDays * 86400 * SECOND);
      session.pending := session.pending.(sessions := session.pending.sessions[id := row]);
      EnforceConcurrentSessionLimit(user);
    }

    method EnforceConcurrentSessionLimit(user: Uuid)
      modifies session
      ensures session.committed == old(session.committed)
      ensures session.pending == old(session.pending).(
                sessions := Prune(old(session.pending).sessions, user, cfg.maxSessions))
    {
      var rows := session.pending.sessions;
      var list := NewestFirst(rows, OwnedBy(rows, user));
      if |list| <= cfg.maxSessions {
        assert Prune(rows, user, cfg.maxSessions) == rows;
        return;
      }
      var expired := list[cfg.maxSessions..];
      session.pending := session.pending.(sessions := rows - (set id | id in expired));
    }

    method SignIn(user: Uuid, event: EventType) returns (reply: Reply)
      requires user in session.pending.users
      modifies this, session
      ensures reply.Returned? && Outcome(reply) == AuthSpec.SignIn(cfg, old(Pending()), user, event)
      ensures session.committed == old(session.committed)
    {
      hide Create;
      hide AuthSpec.RefreshFor;
      hide AuthSpec.AccessFor;
      var access, refresh := IssueTokenPair(user);
      CreateUserSession(user);
      var ok := RecordAuditEvent(event, Some(user), None, true);
      return Returned(SignedIn(user, access, refresh));
    }

    // ---- app/services/auth_service.py ----

    method RegisterUser(email: string, password: string, breached: bool) returns (reply: Reply)
      requires Clean()
      modifies this, session
      ensures Outcome(reply) == AuthSpec.Register(cfg, old(Committed()), email, password, breached)
    {
      hide Compliant;
      hide ByEmail;
      hide AuthSpec.SignIn;
      hide Utf8Length;
      var normalized := Lower(email);
      var existing := ByEmail(session.pending, email);
      if existing.ManyRows? { return Raised(SERVER_ERROR); }
      if existing.OneRow? { return Raised(409); }
      var errors := ValidatePasswordStrength(password, normalized);
      if errors != [] || breached { return Raised(422); }
      var hash := HashPassword(password);
      if hash.None? { return Raised(422); }
      var u := NewId();
      var token := NewId();
      var user := User(normalized, hash.value, true, false, Some(Sha256(token)), None, None);
      session.pending := session.pending.(users := session.pending.users[u := user]);
      Send(VerifyMail, normalized, token);
      reply := SignIn(u, Registered);
    }

    method VerifyEmail(token: Uuid) returns (reply: Reply)
      requires Clean()
      modifies this, session
      ensures Outcome(reply) == AuthSpec.Verify(old(Committed()), token)
    {
      var found := ByVerification(session.pending, token);
      if found.ManyRows? { return Raised(SERVER_ERROR); }
      if found.NoRow? {
        reply := Fail(400, VerificationFailure, None, None);
        return;
      }
      var u, users := found.id, session.pending.users;
      users := users[u := users[u].(verified := true)];
      users := users[u := users[u].(verification := None)];
      session.pending := session.pending.(users := users);
      var ok := RecordAuditEvent(VerificationSuccess, Some(u), None, true);
      return Returned(Done);
    }

    method ResendVerificationEmail(email: string) returns (reply: Reply)
      requires Clean()
      modifies this, session
      ensures Outcome(reply) == AuthSpec.Resend(old(Committed()), email)
    {
      var found := ByEmail(session.pending, email);
      if found.ManyRows? { return Raised(SERVER_ERROR); }
      if found.OneRow? && !session.pending.users[found.id].verified {
        var u, token := found.id, nextId;
        nextId := nextId + 1;
        var user := session.pending.users[u].(verification := Some(Sha256(token)));
        session.pending := session.pending.(users := session.pending.users[u := user]);
        Send(VerifyMail, Lower(email), token);
        var ok := RecordAuditEvent(VerificationResent, Some(u), None, true);
      }
      return Returned(Done);
    }

    method LoginUser(email: string, password: string, ip: Option<string>) returns (reply: Reply)
      requires Clean()
      modifies this, session, redis
      ensures Outcome(reply) == AuthSpec.Login(cfg, old(Committed()), email, password, ip)
    {
      var locked := Lockout.CheckLoginLockout(redis, clock, email, ip);
      if locked {
        reply := Fail(423, LoginLocked, None, None);
        return;
      }
      var found := ByEmail(session.pending, email);
      if found.ManyRows? { return Raised(SERVER_ERROR); }
      if found.NoRow? || !VerifyPassword(password, session.pending.users[found.id].password) {
        Lockout.RecordFailedLogin(cfg.limits, redis, clock, email, ip);
        reply := Fail(401, LoginFailure, if found.OneRow? then Some(found.id) else None, None);
        return;
      }
      var u := found.id;
      if !session.pending.users[u].active {
        reply := Fail(403, LoginInactive, Some(u), None);
        return;
      }
      Lockout.ClearFailedLogin(redis, email, ip);
      if MfaIsEnabled(session.pending, u) {
        var jti := NewId();
        var challenge := AuthSpec.ChallengeFor(cfg, clock, u, jti);
        Sign(challenge);
        var ok := RecordAuditEvent(ChallengeIssued, Some(u), None, true);
        return Returned(MfaRequired(challenge));
      }
      reply := SignIn(u, LoginSuccess);
    }

    method ForgotPassword(email: string) returns (reply: Reply)
      requires Clean()
      modifies this, session
      ensures Outcome(reply) == AuthSpec.Forgot(old(Committed()), email)
    {
      var found := ByEmail(session.pending, email);
      if found.ManyRows? { return Raised(SERVER_ERROR); }
      if found.OneRow? && session.pending.users[found.id].active {
        var u := found.id;
        var token := NewId();
        var user := session.pending.users[u].(reset := Some(Sha256(token)));
        user := user.(resetExpires := Some(clock + RESET_LIFETIME));
        session.pending := session.pending.(users := session.pending.users[u := user]);
        Send(ResetMail, Lower(email), token);
        var ok := RecordAuditEvent(ResetRequested, Some(u), None, true);
      }
      return Returned(Done);
    }

    method ResetPassword(token: Uuid, password: string, breached: bool) returns (reply: Reply)
      requires Clean()
      modifies this, session
      ensures Outcome(reply) == AuthSpec.Reset(old(Committed()), token, password, breached)
    {
      var found := ByReset(session.pending, token);
      if found.ManyRows? { return Raised(SERVER_ERROR); }
      if found.NoRow? || AuthSpec.ResetExpired(session.pending.users[found.id], clock) {
        reply := Fail(400, ResetFailure, if found.OneRow? then Some(found.id) else None, None);
        return;
      }
      var u := found.id;
      var user := session.pending.users[u];
      var errors := ValidatePasswordStrength(password, user.email);
      if errors != [] || breached { return Raised(422); }
      var hash := HashPassword(password);
      if hash.None? { return Raised(422); }
      user := user.(password := hash.value);
      user := user.(reset := None, resetExpires := None);
      session.pending := session.pending.(users := session.pending.users[u := user]);
      session.pending := session.pending.(families := AuthSpec.RevokeFamiliesOf(session.pending.families, u));
      var ok := RecordAuditEvent(ResetSuccess, Some(u), None, true);
      return Returned(Done);
    }

    method VerifyMfaChallenge(token: Claims, code: string) returns (reply: Reply)
      requires Clean()
      modifies this, session
      ensures Outcome(reply) == AuthSpec.Challenge(cfg, old(Committed()), token, code)
    {
      if token !in minted || !Unexpired(token, clock) {
        reply := Fail(401, ChallengeFailure, None, None);
        return;
      }
      if token.kind != ChallengeToken {
        reply := Fail(401, ChallengeFailure, None, None);
        return;
      }
      if token.sub.None? { return Raised(401); }
      var u := token.sub.value;
      if u !in session.pending.users || !session.pending.users[u].active {
        reply := Fail(401, ChallengeFailure, Some(u), None);
        return;
      }
      if !MfaIsEnabled(session.pending, u) || !cfg.totp(session.pending.mfa[u].secret, code, clock) {
        reply := Fail(400, ChallengeFailure, Some(u), None);
        return;
      }
      reply := SignIn(u, ChallengeSuccess);
    }

    method RefreshTokens(token: Claims) returns (reply: Reply)
      requires Clean()
      modifies this, session
      ensures Outcome(reply) == AuthSpec.Refresh(cfg, old(Committed()), token)
    {
      if token !in minted || !Unexpired(token, clock) {
        reply := Fail(401, RefreshFailure, None, None);
        return;
      }
      if token.kind != RefreshToken {
        reply := Fail(401, RefreshFailure, None, None);
        return;
      }
      if token.sub.None? { return Raised(401); }
      var u := token.sub.value;
      if token.family.None? {
        reply := Fail(401, RefreshFailure, Some(u), None);
        return;
      }
      var f := token.family.value;
      if u !in session.pending.users || !session.pending.users[u].active {
        reply := Fail(401, RefreshFailure, Some(u), None);
        return;
      }
      var families := session.pending.families;
      if f !in families || families[f].owner != u || families[f].revoked {
        reply := Fail(401, RefreshFailure, Some(u), Some(f));
        return;
      }
      if families[f].last != Sha256(token) {
        session.pending := session.pending.(families := families[f := families[f].(revoked := true)]);
        var ok := RecordAuditEvent(RefreshReuse, Some(u), Some(f), false);
        session.Commit();
        return Raised(401);
      }
      var access := AuthSpec.AccessFor(cfg, clock, u);
      Sign(access);
      var jti := NewId();
      var refresh := AuthSpec.RefreshFor(cfg, clock, u, f, jti);
      Sign(refresh);
      session.pending := session.pending.(families := families[f := families[f].(last := Sha256(refresh))]);
      var ok := RecordAuditEvent(RefreshSuccess, Some(u), Some(f), true);
      return Returned(Rotated(access, refresh));
    }

    // ---- app/services/mfa_service.py ----

    method SetupMfa(token: Claims) returns (reply: Reply)
      requires Clean()
      modifies this, session
      ensures Outcome(reply) == AuthSpec.MfaSetup(old(Committed()), token)
    {
      var caller := AuthSpec.CurrentActiveUser(World(session.pending, redis.store, mail, minted, nextId, clock), token);
      if caller.Rejected? { return Raised(caller.status); }
      var u := caller.user;
      if MfaIsEnabled(session.pending, u) { return Raised(409); }
      var secret;
      if u !in session.pending.mfa {
        secret := NewId();
        session.pending := session.pending.(mfa := session.pending.mfa[u := MfaConfig(secret, false)]);
      } else {
        secret := session.pending.mfa[u].secret;
      }
      var ok := RecordAuditEvent(MfaSetupStarted, Some(u), None, true);
      return Returned(MfaSecret(secret, session.pending.mfa[u].enabled));
    }

    method VerifyMfaSetup(token: Claims, code: string) returns (reply: Reply)
      requires Clean()
      modifies this, session
      ensures Outcome(reply) == AuthSpec.MfaVerify(cfg, old(Committed()), token, code)
    {
      var caller := AuthSpec.CurrentActiveUser(World(session.pending, redis.store, mail, minted, nextId, clock), token);
      if caller.Rejected? { return Raised(caller.status); }
      var u, mfa := caller.user, session.pending.mfa;
      if u !in mfa { return Raised(404); }
      if mfa[u].enabled { return Returned(MfaStatus(true)); }
      if !cfg.totp(mfa[u].secret, code, clock) {
        reply := Fail(400, MfaVerifyFailure, Some(u), None);
        return;
      }
      session.pending := session.pending.(mfa := mfa[u := mfa[u].(enabled := true)]);
      var ok := RecordAuditEvent(MfaEnabled, Some(u), None, true);
      return Returned(MfaStatus(true));
    }

    method DisableMfa(token: Claims, code: string) returns (reply: Reply)
      requires Clean()
      modifies this, session
      ensures Outcome(reply) == AuthSpec.MfaDisable(cfg, old(Committed()), token, code)
    {
      var caller := AuthSpec.CurrentActiveUser(World(session.pending, redis.store, mail, minted, nextId, clock), token);
      if caller.Rejected? { return Raised(caller.status); }
      var u, mfa := caller.user, session.pending.mfa;
      if u !in mfa { return Raised(404); }
      if !mfa[u].enabled { return Returned(MfaStatus(false)); }
      if !cfg.totp(mfa[u].secret, code, clock) {
        reply := Fail(400, MfaDisableFailure, Some(u), None);
        return;
      }
      session.pending := session.pending.(mfa := mfa[u := mfa[u].(enabled := false)]);
      var ok := RecordAuditEvent(MfaDisabled, Some(u), None, true);
      return Returned(MfaStatus(false));
    }

    // ---- app/services/session_service.py ----

    method DeleteUserSession(token: Claims, id: Uuid) returns (reply: Reply)
      requires Clean()
      modifies this, session
      ensures Outcome(reply) == AuthSpec.RevokeSession(old(Committed()), token, id)
    {
      var caller := AuthSpec.CurrentActiveUser(World(session.pending, redis.store, mail, minted, nextId, clock), token);
      if caller.Rejected? { return Raised(caller.status); }
      var rows := session.pending.sessions;
      if id !in rows || rows[id].owner != caller.user { return Raised(404); }
      session.pending := session.pending.(sessions := rows - {id});
      var ok := RecordAuditEvent(SessionRevoked, Some(caller.user), None, true);
      return Returned(Done);
    }

    method SetActive(u: Uuid, active: bool) returns (reply: Reply)
      requires Clean()
      modifies session
      ensures Outcome(reply) == AuthSpec.SetActivity(old(Committed()), u, active)
    {
      var users := session.pending.users;
      if u in users {
        session.pending := session.pending.(users := users[u := users[u].(active := active)]);
      }
      return Returned(Done);
    }

    // ---- One request inside `get_db` ----

    method Dispatch(req: Request) returns (reply: Reply)
      requires Clean()
      modifies this, session, redis
      ensures Outcome(reply) == AuthSpec.Handle(cfg, old(Committed()), req)
    {
      match req
      case RegisterUser(email, password, breached) => reply := RegisterUser(email, password, breached);
      case VerifyEmail(mailed) => reply := VerifyEmail(mailed);
      case ResendVerification(email) => reply := ResendVerificationEmail(email);
      case LoginUser(email, password, ip) => reply := LoginUser(email, password, ip);
      case ForgotPassword(email) => reply := ForgotPassword(email);
      case ResetPassword(mailed, password, breached) => reply := ResetPassword(mailed, password, breached);
      case VerifyMfaChallenge(token, code) => reply := VerifyMfaChallenge(token, code);
      case RefreshTokens(token) => reply := RefreshTokens(token);
      case SetupMfa(token) => reply := SetupMfa(token);
      case VerifyMfaSetup(token, code) => reply := VerifyMfaSetup(token, code);
      case DisableMfa(token, code) => reply := DisableMfa(token, code);
      case DeleteSession(token, id) => reply := DeleteUserSession(token, id);
      case SetActive(u, active) => reply := SetActive(u, active);
    }

    /** `get_db` around one call: commit what it returns with, roll back what it raises with. */
    method Serve(delay: nat, req: Request) returns (reply: Reply)
      requires Clean()
      modifies this, session, redis
      ensures Clean()
      ensures Result(Committed(), reply) == AuthSpec.Step(cfg, old(Committed()), AuthSpec.Event(delay, req))
    {
      hide AuthSpec.Handle;
      clock := clock + 1 + delay;
      reply := Dispatch(req);
      if reply.Raised? {
        session.Rollback();
      } else {
        session.Commit();
      }
    }

    /** Serving a sequence of requests is a run of the specification. */
    method ServeAll(events: seq<AuthSpec.Event>) returns (log: seq<AuthSpec.Exchange>)
      requires Clean() && Committed() == START
      modifies this, session, redis
      ensures Clean()
      ensures AuthSpec.Trace(Committed(), log) == AuthSpec.Run(cfg, AuthSpec.BOOT, events)
    {
      hide AuthSpec.Step;
      log := [];
      for i := 0 to |events|
        invariant Clean()
        invariant AuthSpec.Trace(Committed(), log) == AuthSpec.Run(cfg, AuthSpec.BOOT, events[..i])
      {
        assert events[..i + 1][..i] == events[..i];
        var at := clock + 1 + events[i].delay;
        var reply := Serve(events[i].delay, events[i].request);
        log := log + [AuthSpec.Exchange(at, events[i].request, reply)];
      }
      assert events[..|events|] == events;
    }
  }
}
