/**
 Users over every run: uniqueness of what the queries look up, references that always resolve, one-time
 tokens, and stored passwords.
 */
module Accounts {
  import opened Prelude
  import opened Text
  import opened PasswordPolicy
  import opened Sessions
  import opened AuthState
  import opened AuthSpec
  import Lockout

  // ---- Invariants ----

  ghost predicate UserSound(user: User, nextId: Uuid) {
    && user.email == Lower(user.email)
    && (user.verified <==> user.verification == None)
    && (user.reset == None <==> user.resetExpires == None)
    && (user.verification.Some? ==> user.verification.value.preimage < nextId)
    && (user.reset.Some? ==> user.reset.value.preimage < nextId)
    && Compliant(user.password.password, user.email)
    && Utf8Length(user.password.password) <= BCRYPT_MAX_PASSWORD_BYTES
  }

  /** No two users share anything that a query looks up. */
  ghost predicate Distinguishable(x: User, y: User) {
    && x.email != y.email
    && (x.verification.Some? ==> x.verification != y.verification)
    && (x.reset.Some? ==> x.reset != y.reset)
  }

  ghost predicate UsersSound(users: map<Uuid, User>, nextId: Uuid) {
    && (forall u | u in users :: u < nextId && UserSound(users[u], nextId))
    && (forall u, v | u in users && v in users && u != v :: Distinguishable(users[u], users[v]))
  }

  /** Everything that names a user names an existing one. */
  ghost predicate ReferencesSound(w: World) {
    && (forall t | t in w.minted :: t.sub.Some? && t.sub.value in w.db.users)
    && (forall i | 0 <= i < |w.db.audit| :: w.db.audit[i].user.Some? ==> w.db.audit[i].user.value in w.db.users)
    && (forall u | u in w.db.mfa :: u in w.db.users)
    && (forall f | f in w.db.families :: w.db.families[f].owner in w.db.users)
    && (forall s | s in w.db.sessions :: w.db.sessions[s].owner in w.db.users)
  }

  ghost predicate AccountsSound(w: World) {
    UsersSound(w.db.users, w.nextId) && ReferencesSound(w)
  }

  // ---- Look-ups ----

  lemma EmailUnique(w: World, email: string)
    requires UsersSound(w.db.users, w.nextId)
    ensures !ByEmail(w.db, email).ManyRows?
    ensures forall u | u in w.db.users && w.db.users[u].email == Lower(email) :: ByEmail(w.db, email) == OneRow(u)
  {
    hide UserSound;
    var ids := set u | u in w.db.users && w.db.users[u].email == Lower(email);
    if u :| u in ids {
      assert ids == {u};
    }
  }

  lemma VerificationUnique(w: World, token: Uuid)
    requires UsersSound(w.db.users, w.nextId)
    ensures !ByVerification(w.db, token).ManyRows?
    ensures forall u | u in w.db.users && w.db.users[u].verification == Some(Sha256(token)) ::
              ByVerification(w.db, token) == OneRow(u)
  {
    hide UserSound;
    var ids := set u | u in w.db.users && w.db.users[u].verification == Some(Sha256(token));
    if u :| u in ids {
      assert ids == {u};
    }
  }

  lemma ResetUnique(w: World, token: Uuid)
    requires UsersSound(w.db.users, w.nextId)
    ensures !ByReset(w.db, token).ManyRows?
    ensures forall u | u in w.db.users && w.db.users[u].reset == Some(Sha256(token)) ::
              ByReset(w.db, token) == OneRow(u)
  {
    hide UserSound;
    var ids := set u | u in w.db.users && w.db.users[u].reset == Some(Sha256(token));
    if u :| u in ids {
      assert ids == {u};
    }
  }

  // ---- How users change ----

  lemma UserLater(user: User, nextId: Uuid, later: Uuid)
    requires UserSound(user, nextId) && nextId <= later
    ensures UserSound(user, later)
  {
  }

  lemma UsersLater(users: map<Uuid, User>, nextId: Uuid, later: Uuid)
    requires UsersSound(users, nextId) && nextId <= later
    ensures UsersSound(users, later)
  {
    hide UserSound;
    forall u | u in users ensures UserSound(users[u], later) {
      UserLater(users[u], nextId, later);
    }
  }

  /** Changing one user to a sound row with the same email and only fresh or unchanged tokens. */
  lemma UserChanged(users: map<Uuid, User>, nextId: Uuid, later: Uuid, u: Uuid, user: User)
    requires UsersSound(users, nextId) && nextId <= later
    requires UserSound(user, later) && u < later
    requires forall v | v in users && v != u ::
               Distinguishable(user, users[v]) && Distinguishable(users[v], user)
    ensures UsersSound(users[u := user], later)
  {
    hide UserSound;
    hide Distinguishable;
    UsersLater(users, nextId, later);
  }

  lemma SignInFrame(cfg: Settings, w: World, u: Uuid, event: EventType)
    ensures var w' := SignIn(cfg, w, u, event).world;
            && w'.db.users == w.db.users && w'.db.mfa == w.db.mfa && w'.mail == w.mail && w'.redis == w.redis
            && w'.clock == w.clock && w'.nextId == w.nextId + 3
    ensures SignIn(cfg, w, u, event).reply.Returned?
  {
  }

  lemma SignInAnswers(cfg: Settings, w: World, u: Uuid, event: EventType)
    ensures var reply := SignIn(cfg, w, u, event).reply;
            reply.Returned? && reply.body.SignedIn? && reply.body.user == u
  {
  }

  lemma RefuseFrame(w: World, status: nat, event: EventType, user: Option<Uuid>, family: Option<Uuid>)
    ensures var w' := Refuse(w, status, event, user, family).world;
            && w' == w.(db := w.db.(audit := w'.db.audit))
  {
  }

  lemma RegisterUsers(cfg: Settings, w: World, email: string, password: string, breached: bool)
    requires UsersSound(w.db.users, w.nextId)
    ensures var w' := Register(cfg, w, email, password, breached).world; UsersSound(w'.db.users, w'.nextId)
  {
    hide SignIn;
    hide ByEmail;
    hide Compliant;
    hide Utf8Length;
    var normalized := Lower(email);
    if ByEmail(w.db, email) == NoRow && Acceptable(password, normalized, breached) {
      var w1 := WithNewUser(w, normalized, password);
      SignInFrame(cfg, w1, w.nextId, Registered);
      LowerIdempotent(email);
      UserChanged(w.db.users, w.nextId, w.nextId + 5, w.nextId, w1.db.users[w.nextId]);
    }
  }

  lemma VerifyUsers(w: World, token: Uuid)
    requires UsersSound(w.db.users, w.nextId)
    ensures var w' := Verify(w, token).world; UsersSound(w'.db.users, w'.nextId)
  {
    hide ByVerification;
    hide Compliant;
    hide Utf8Length;
    match ByVerification(w.db, token)
    case OneRow(u) =>
      UserChanged(w.db.users, w.nextId, w.nextId, u, w.db.users[u].(verified := true, verification := None));
    case _ =>
  }

  lemma ResendUsers(w: World, email: string)
    requires UsersSound(w.db.users, w.nextId)
    ensures var w' := Resend(w, email).world; UsersSound(w'.db.users, w'.nextId)
  {
    hide ByEmail;
    hide Compliant;
    hide Utf8Length;
    match ByEmail(w.db, email)
    case OneRow(u) =>
      if !w.db.users[u].verified {
        var user := w.db.users[u].(verification := Some(Sha256(w.nextId)));
        UserChanged(w.db.users, w.nextId, w.nextId + 1, u, user);
      }
    case _ =>
  }

  lemma FreshResetToken(users: map<Uuid, User>, nextId: Uuid, u: Uuid, expires: Time)
    requires UsersSound(users, nextId) && u in users
    ensures UsersSound(users[u := users[u].(reset := Some(Sha256(nextId)), resetExpires := Some(expires))], nextId + 1)
  {
    hide Compliant;
    hide Utf8Length;
    UserChanged(users, nextId, nextId + 1, u, users[u].(reset := Some(Sha256(nextId)), resetExpires := Some(expires)));
  }

  lemma ForgotUsers(w: World, email: string)
    requires UsersSound(w.db.users, w.nextId)
    ensures var w' := Forgot(w, email).world; UsersSound(w'.db.users, w'.nextId)
  {
    hide ByEmail;
    hide UsersSound;
    match ByEmail(w.db, email)
    case OneRow(u) =>
      if w.db.users[u].active {
        FreshResetToken(w.db.users, w.nextId, u, w.clock + RESET_LIFETIME);
      }
    case _ =>
  }

  lemma ResetUsers(w: World, token: Uuid, password: string, breached: bool)
    requires UsersSound(w.db.users, w.nextId)
    ensures var w' := Reset(w, token, password, breached).world; UsersSound(w'.db.users, w'.nextId)
  {
    hide ByReset;
    hide Compliant;
    hide Utf8Length;
    hide Refuse;
    match ByReset(w.db, token)
    case ManyRows =>
    case NoRow => RefuseFrame(w, 400, ResetFailure, None, None);
    case OneRow(u) =>
      var user := w.db.users[u];
      if ResetExpired(user, w.clock) {
        RefuseFrame(w, 400, ResetFailure, Some(u), None);
      } else if Acceptable(password, user.email, breached) {
        UserChanged(w.db.users, w.nextId, w.nextId, u,
          user.(password := Bcrypt(password), reset := None, resetExpires := None));
      }
  }

  lemma SetActiveUsers(w: World, u: Uuid, active: bool)
    requires UsersSound(w.db.users, w.nextId)
    ensures var w' := SetActivity(w, u, active).world; UsersSound(w'.db.users, w'.nextId)
  {
    hide Compliant;
    hide Utf8Length;
    if u in w.db.users {
      UserChanged(w.db.users, w.nextId, w.nextId, u, w.db.users[u].(active := active));
    }
  }

  /** Logins and token exchanges do not touch the users. */
  ghost predicate UsersUntouched(w: World, w': World) {
    w'.db.users == w.db.users && w'.db.mfa == w.db.mfa && w'.mail == w.mail && w.nextId <= w'.nextId
  }

  lemma LoginFrame(cfg: Settings, w: World, email: string, password: string, ip: Option<string>)
    ensures UsersUntouched(w, Login(cfg, w, email, password, ip).world)
  {
    hide SignIn;
    hide Refuse;
    hide ByEmail;
    hide VerifyPassword;
    hide Lockout.Locked;
    hide Lockout.Record;
    hide Lockout.Clear;
    if Lockout.Locked(w.redis, w.clock, email, ip) {
      RefuseFrame(w, 423, LoginLocked, None, None);
    } else {
      match ByEmail(w.db, email)
      case ManyRows =>
      case NoRow => RefuseFrame(Failed(cfg, w, email, ip), 401, LoginFailure, None, None);
      case OneRow(u) =>
        RefuseFrame(Failed(cfg, w, email, ip), 401, LoginFailure, Some(u), None);
        RefuseFrame(w, 403, LoginInactive, Some(u), None);
        SignInFrame(cfg, w.(redis := Lockout.Clear(w.redis, email, ip)), u, LoginSuccess);
    }
  }

  lemma ChallengeFrame(cfg: Settings, w: World, token: Claims, code: string)
    ensures UsersUntouched(w, Challenge(cfg, w, token, code).world)
  {
    hide SignIn;
    hide Refuse;
    RefuseFrame(w, 401, ChallengeFailure, None, None);
    RefuseFrame(w, 401, ChallengeFailure, token.sub, None);
    RefuseFrame(w, 400, ChallengeFailure, token.sub, None);
    if token.sub.Some? {
      SignInFrame(cfg, w, token.sub.value, ChallengeSuccess);
    }
  }

  lemma RefreshFrame(cfg: Settings, w: World, token: Claims)
    ensures UsersUntouched(w, Refresh(cfg, w, token).world)
  {
    hide Refuse;
    RefuseFrame(w, 401, RefreshFailure, None, None);
    RefuseFrame(w, 401, RefreshFailure, token.sub, None);
    RefuseFrame(w, 401, RefreshFailure, token.sub, token.family);
  }

  lemma ExchangeFrame(cfg: Settings, w: World, req: Request)
    requires req.LoginUser? || req.VerifyMfaChallenge? || req.RefreshTokens?
    ensures UsersUntouched(w, Handle(cfg, w, req).world)
  {
    match req
    case LoginUser(email, password, ip) => LoginFrame(cfg, w, email, password, ip);
    case VerifyMfaChallenge(token, code) => ChallengeFrame(cfg, w, token, code);
    case RefreshTokens(token) => RefreshFrame(cfg, w, token);
  }

  lemma CallerFrame(cfg: Settings, w: World, req: Request)
    requires req.SetupMfa? || req.VerifyMfaSetup? || req.DisableMfa? || req.DeleteSession?
    ensures var w' := Handle(cfg, w, req).world;
            w'.db.users == w.db.users && w'.mail == w.mail && w.nextId <= w'.nextId && w'.minted == w.minted
  {
    hide CurrentActiveUser;
  }

  lemma UsersStep(cfg: Settings, w: World, req: Request)
    requires UsersSound(w.db.users, w.nextId)
    ensures var w' := Handle(cfg, w, req).world; UsersSound(w'.db.users, w'.nextId)
  {
    hide UsersSound;
    match req
    case RegisterUser(email, password, breached) => RegisterUsers(cfg, w, email, password, breached);
    case VerifyEmail(mailed) => VerifyUsers(w, mailed);
    case ResendVerification(email) => ResendUsers(w, email);
    case ForgotPassword(email) => ForgotUsers(w, email);
    case ResetPassword(mailed, password, breached) => ResetUsers(w, mailed, password, breached);
    case SetActive(user, active) => SetActiveUsers(w, user, active);
    case LoginUser(_, _, _) => Unchanged(cfg, w, req);
    case VerifyMfaChallenge(_, _) => Unchanged(cfg, w, req);
    case RefreshTokens(_) => Unchanged(cfg, w, req);
    case _ => Unchanged(cfg, w, req);
  }

  lemma Unchanged(cfg: Settings, w: World, req: Request)
    requires UsersSound(w.db.users, w.nextId)
    requires req.LoginUser? || req.VerifyMfaChallenge? || req.RefreshTokens?
             || req.SetupMfa? || req.VerifyMfaSetup? || req.DisableMfa? || req.DeleteSession?
    ensures var w' := Handle(cfg, w, req).world; UsersSound(w'.db.users, w'.nextId)
  {
    hide UsersSound;
    hide Handle;
    if req.LoginUser? || req.VerifyMfaChallenge? || req.RefreshTokens? {
      ExchangeFrame(cfg, w, req);
    } else {
      CallerFrame(cfg, w, req);
    }
    UsersLater(w.db.users, w.nextId, Handle(cfg, w, req).world.nextId);
  }

  // ---- References resolve ----

  /** Users are only ever added, so what resolved keeps resolving. */
  lemma RefsMore(w: World, w': World)
    requires ReferencesSound(w) && w.db.users.Keys <= w'.db.users.Keys
    requires w'.minted == w.minted && w'.db.audit == w.db.audit && w'.db.mfa.Keys <= w.db.mfa.Keys + w.db.users.Keys
    requires w'.db.sessions.Keys <= w.db.sessions.Keys
    requires forall s | s in w'.db.sessions :: w'.db.sessions[s] == w.db.sessions[s]
    requires w'.db.families.Keys == w.db.families.Keys
    requires forall f | f in w.db.families :: w'.db.families[f].owner == w.db.families[f].owner
    ensures ReferencesSound(w')
  {
  }

  lemma RefsLog(w: World, row: AuditRow)
    requires ReferencesSound(w) && (row.user.Some? ==> row.user.value in w.db.users)
    ensures ReferencesSound(w.(db := w.db.Log(row)))
  {
  }

  lemma RefsRefuse(w: World, status: nat, event: EventType, user: Option<Uuid>, family: Option<Uuid>)
    requires ReferencesSound(w)
    ensures ReferencesSound(Refuse(w, status, event, user, family).world)
  {
    if user.Some? ==> user.value in w.db.users {
      RefsLog(w, AuditRow(event, user, family, false, w.clock));
    }
  }

  lemma RefsSuccess(w: World, event: EventType, user: Uuid, family: Option<Uuid>)
    requires ReferencesSound(w) && user in w.db.users
    ensures ReferencesSound(Success(w, event, user, family))
  {
    RefsLog(w, AuditRow(event, Some(user), family, true, w.clock));
  }

  lemma RefsSignIn(cfg: Settings, w: World, u: Uuid, event: EventType)
    requires ReferencesSound(w) && u in w.db.users
    ensures ReferencesSound(SignIn(cfg, w, u, event).world)
  {
    hide Create;
    hide ReferencesSound;
    var f, session := w.nextId, w.nextId + 2;
    var access, refresh := AccessFor(cfg, w.clock, u), RefreshFor(cfg, w.clock, u, f, w.nextId + 1);
    var row := Session(u, w.clock, w.clock + cfg.sessionDays * 86400 * SECOND);
    var family := Family(u, false, Sha256(refresh), w.clock);
    var sessions := Create(w.db.sessions, session, row, cfg.maxSessions);
    SubsetOfInserted(w.db.sessions, session, row, cfg.maxSessions);
    RefsOpened(w, u, {access, refresh}, f, family, session, row, sessions);
    var db := w.db.(families := w.db.families[f := family], sessions := sessions);
    RefsSuccess(w.(db := db, minted := w.minted + {access, refresh}, nextId := w.nextId + 3), event, u, None);
  }

  lemma RefsOpened(w: World, u: Uuid, tokens: set<Claims>, f: Uuid, family: Family, session: Uuid, row: Session,
          sessions: Table)
    requires ReferencesSound(w) && u in w.db.users && family.owner == u && row.owner == u
    requires forall t | t in tokens :: t.sub == Some(u)
    requires forall s | s in sessions ::
               s in w.db.sessions[session := row] && sessions[s] == w.db.sessions[session := row][s]
    ensures var db := w.db.(families := w.db.families[f := family], sessions := sessions);
            ReferencesSound(w.(db := db, minted := w.minted + tokens, nextId := w.nextId + 3))
  {
  }

  lemma SubsetOfInserted(rows: Table, id: nat, row: Session, cap: nat)
    ensures forall s | s in Create(rows, id, row, cap) ::
              s in rows[id := row] && Create(rows, id, row, cap)[s] == rows[id := row][s]
  {
  }

  lemma RefsRegister(cfg: Settings, w: World, email: string, password: string, breached: bool)
    requires ReferencesSound(w) && UsersSound(w.db.users, w.nextId)
    ensures ReferencesSound(Register(cfg, w, email, password, breached).world)
    ensures Register(cfg, w, email, password, breached).reply != Raised(SERVER_ERROR)
  {
    hide SignIn;
    hide ByEmail;
    hide Acceptable;
    hide ReferencesSound;
    hide UsersSound;
    EmailUnique(w, email);
    var w1 := WithNewUser(w, Lower(email), password);
    RefsMore(w, w1);
    RefsSignIn(cfg, w1, w.nextId, Registered);
    SignInFrame(cfg, w1, w.nextId, Registered);
  }

  lemma RefsMail(w: World, req: Request, cfg: Settings)
    requires ReferencesSound(w) && UsersSound(w.db.users, w.nextId)
    requires req.VerifyEmail? || req.ResendVerification? || req.ForgotPassword? || req.SetActive?
    ensures ReferencesSound(Handle(cfg, w, req).world)
    ensures Handle(cfg, w, req).reply != Raised(SERVER_ERROR)
  {
    hide ByEmail;
    hide ByVerification;
    hide UsersSound;
    match req
    case VerifyEmail(mailed) => VerificationUnique(w, mailed);
    case ResendVerification(email) => EmailUnique(w, email);
    case ForgotPassword(email) => EmailUnique(w, email);
    case SetActive(u, active) =>
  }

  lemma RefsReset(w: World, token: Uuid, password: string, breached: bool)
    requires ReferencesSound(w) && UsersSound(w.db.users, w.nextId)
    ensures ReferencesSound(Reset(w, token, password, breached).world)
    ensures Reset(w, token, password, breached).reply != Raised(SERVER_ERROR)
  {
    hide ByReset;
    hide Acceptable;
    hide ReferencesSound;
    hide UsersSound;
    hide Refuse;
    ResetUnique(w, token);
    match ByReset(w.db, token)
    case ManyRows =>
    case NoRow => RefsRefuse(w, 400, ResetFailure, None, None); RefuseStatus(w, 400, ResetFailure, None, None);
    case OneRow(u) =>
      var user := w.db.users[u];
      if ResetExpired(user, w.clock) {
        RefsRefuse(w, 400, ResetFailure, Some(u), None);
        RefuseStatus(w, 400, ResetFailure, Some(u), None);
      } else {
        var user' := user.(password := Bcrypt(password), reset := None, resetExpires := None);
        var w1 := w.(db := w.db.(users := w.db.users[u := user'], families := RevokeFamiliesOf(w.db.families, u)));
        RefsMore(w, w1);
        RefsSuccess(w1, ResetSuccess, u, None);
      }
  }

  lemma RefuseStatus(w: World, status: nat, event: EventType, user: Option<Uuid>, family: Option<Uuid>)
    requires user.Some? ==> user.value in w.db.users
    ensures Refuse(w, status, event, user, family).reply == Raised(status)
  {
  }

  /** A refusal that names nobody, or an existing user: it keeps references, and is not a server error. */
  lemma RefsRefused(w: World, status: nat, event: EventType, user: Option<Uuid>, family: Option<Uuid>)
    requires ReferencesSound(w) && status != SERVER_ERROR && (user.Some? ==> user.value in w.db.users)
    ensures var r := Refuse(w, status, event, user, family);
            ReferencesSound(r.world) && r.reply != Raised(SERVER_ERROR)
  {
    RefsRefuse(w, status, event, user, family);
  }

  lemma RefsLogin(cfg: Settings, w: World, email: string, password: string, ip: Option<string>)
    requires ReferencesSound(w) && UsersSound(w.db.users, w.nextId)
    ensures ReferencesSound(Login(cfg, w, email, password, ip).world)
    ensures Login(cfg, w, email, password, ip).reply != Raised(SERVER_ERROR)
  {
    hide SignIn;
    hide Refuse;
    hide ByEmail;
    hide VerifyPassword;
    hide ReferencesSound;
    hide UsersSound;
    hide Lockout.Locked;
    hide Lockout.Record;
    hide Lockout.Clear;
    EmailUnique(w, email);
    RefsMore(w, Failed(cfg, w, email, ip));
    if Lockout.Locked(w.redis, w.clock, email, ip) {
      RefsRefused(w, 423, LoginLocked, None, None);
    } else {
      match ByEmail(w.db, email)
      case ManyRows =>
      case NoRow => RefsRefused(Failed(cfg, w, email, ip), 401, LoginFailure, None, None);
      case OneRow(u) =>
        RefsRefused(Failed(cfg, w, email, ip), 401, LoginFailure, Some(u), None);
        RefsRefused(w, 403, LoginInactive, Some(u), None);
        var w1 := w.(redis := Lockout.Clear(w.redis, email, ip));
        RefsMore(w, w1);
        RefsSignIn(cfg, w1, u, LoginSuccess);
        SignInFrame(cfg, w1, u, LoginSuccess);
        RefsChallenge(cfg, w1, u);
    }
  }

  lemma RefsChallenge(cfg: Settings, w: World, u: Uuid)
    requires ReferencesSound(w) && u in w.db.users
    ensures var challenge := ChallengeFor(cfg, w.clock, u, w.nextId);
            ReferencesSound(Success(w.(minted := w.minted + {challenge}, nextId := w.nextId + 1), ChallengeIssued, u,
              None))
  {
    var challenge := ChallengeFor(cfg, w.clock, u, w.nextId);
    var w1 := w.(minted := w.minted + {challenge}, nextId := w.nextId + 1);
    RefsSuccess(w1, ChallengeIssued, u, None);
  }

  /** A token that decodes names an existing user. */
  lemma SubjectExists(w: World, token: Claims)
    requires ReferencesSound(w) && token in w.minted
    ensures token.sub.Some? && token.sub.value in w.db.users
  {
  }

  lemma RefsExchange(cfg: Settings, w: World, token: Claims, code: string)
    requires ReferencesSound(w)
    ensures ReferencesSound(Challenge(cfg, w, token, code).world)
    ensures Challenge(cfg, w, token, code).reply != Raised(SERVER_ERROR)
  {
    hide SignIn;
    hide Refuse;
    hide ReferencesSound;
    RefsRefused(w, 401, ChallengeFailure, None, None);
    if token in w.minted {
      SubjectExists(w, token);
      RefsRefused(w, 401, ChallengeFailure, token.sub, None);
      RefsRefused(w, 400, ChallengeFailure, token.sub, None);
      RefsSignIn(cfg, w, token.sub.value, ChallengeSuccess);
      SignInFrame(cfg, w, token.sub.value, ChallengeSuccess);
    }
  }

  lemma RefsRotate(cfg: Settings, w: World, u: Uuid, f: Uuid)
    requires ReferencesSound(w) && u in w.db.users && f in w.db.families
    ensures ReferencesSound(Rotate(cfg, w, u, f).world) && ReferencesSound(Reused(w, u, f).world)
  {
  }

  lemma RefsRefresh(cfg: Settings, w: World, token: Claims)
    requires ReferencesSound(w)
    ensures ReferencesSound(Refresh(cfg, w, token).world)
    ensures Refresh(cfg, w, token).reply != Raised(SERVER_ERROR)
  {
    hide Refuse;
    hide ReferencesSound;
    RefsRefused(w, 401, RefreshFailure, None, None);
    if token in w.minted {
      SubjectExists(w, token);
      RefsRefused(w, 401, RefreshFailure, token.sub, None);
      RefsRefused(w, 401, RefreshFailure, token.sub, token.family);
      if token.family.Some? && token.family.value in w.db.families {
        RefsRotate(cfg, w, token.sub.value, token.family.value);
      }
    }
  }

  lemma RefsCaller(cfg: Settings, w: World, req: Request)
    requires ReferencesSound(w)
    requires req.SetupMfa? || req.VerifyMfaSetup? || req.DisableMfa? || req.DeleteSession?
    ensures ReferencesSound(Handle(cfg, w, req).world)
    ensures Handle(cfg, w, req).reply != Raised(SERVER_ERROR)
  {
    hide ReferencesSound;
    hide Refuse;
    var token := req.token;
    match CurrentActiveUser(w, token)
    case Rejected(_) =>
    case Active(u) =>
      RefsRefused(w, 400, MfaVerifyFailure, Some(u), None);
      RefsRefused(w, 400, MfaDisableFailure, Some(u), None);
      RefsSuccess(w, MfaSetupStarted, u, None);
      match req
      case SetupMfa(_) =>
        var w1 := WithMfa(w, u, MfaConfig(w.nextId, false)).(nextId := w.nextId + 1);
        RefsMore(w, w1);
        RefsSuccess(w1, MfaSetupStarted, u, None);
      case VerifyMfaSetup(_, _) =>
        if u in w.db.mfa {
          var w1 := WithMfa(w, u, w.db.mfa[u].(enabled := true));
          RefsMore(w, w1);
          RefsSuccess(w1, MfaEnabled, u, None);
        }
      case DisableMfa(_, _) =>
        if u in w.db.mfa {
          var w1 := WithMfa(w, u, w.db.mfa[u].(enabled := false));
          RefsMore(w, w1);
          RefsSuccess(w1, MfaDisabled, u, None);
        }
      case DeleteSession(_, session) =>
        var w1 := w.(db := w.db.(sessions := w.db.sessions - {session}));
        RefsMore(w, w1);
        RefsSuccess(w1, SessionRevoked, u, None);
  }

  lemma RefsStep(cfg: Settings, w: World, req: Request)
    requires AccountsSound(w)
    ensures AccountsSound(Handle(cfg, w, req).world)
    ensures Handle(cfg, w, req).reply != Raised(SERVER_ERROR)
  {
    hide UsersSound;
    hide ReferencesSound;
    UsersStep(cfg, w, req);
    match req
    case RegisterUser(email, password, breached) => RefsRegister(cfg, w, email, password, breached);
    case LoginUser(email, password, ip) => RefsLogin(cfg, w, email, password, ip);
    case ResetPassword(mailed, password, breached) => RefsReset(w, mailed, password, breached);
    case VerifyMfaChallenge(token, code) => RefsExchange(cfg, w, token, code);
    case RefreshTokens(token) => RefsRefresh(cfg, w, token);
    case SetupMfa(_) => RefsCaller(cfg, w, req);
    case VerifyMfaSetup(_, _) => RefsCaller(cfg, w, req);
    case DisableMfa(_, _) => RefsCaller(cfg, w, req);
    case DeleteSession(_, _) => RefsCaller(cfg, w, req);
    case _ => RefsMail(w, req, cfg);
  }

  lemma TickSound(w: World, delay: nat)
    requires AccountsSound(w)
    ensures AccountsSound(Tick(w, delay))
  {
  }

  /** In every run the invariants hold, and no request ever ends in a server error. */
  lemma {:induction false} NoServerError(cfg: Settings, events: seq<Event>)
    ensures AccountsSound(Run(cfg, BOOT, events).world)
    ensures forall x | x in Run(cfg, BOOT, events).log :: x.reply != Raised(SERVER_ERROR)
  {
    hide AccountsSound;
    hide Handle;
    if events == [] {
      BootSound();
    } else {
      var t, e := Run(cfg, BOOT, events[..|events| - 1]), events[|events| - 1];
      NoServerError(cfg, events[..|events| - 1]);
      TickSound(t.world, e.delay);
      RefsStep(cfg, Tick(t.world, e.delay), e.request);
    }
  }

  lemma BootSound()
    ensures AccountsSound(START)
  {
  }

  /**
   Every signed token names an existing user, in every run, so no exchange is refused for naming a
   missing one: the arms whose audit row would break the foreign key are never entered.
   */
  lemma {:induction false} TokensNameUsers(cfg: Settings, events: seq<Event>, token: Claims)
    requires token in Run(cfg, BOOT, events).world.minted
    ensures token.sub.Some? && token.sub.value in Run(cfg, BOOT, events).world.db.users
  {
    hide Run;
    NoServerError(cfg, events);
    SubjectExists(Run(cfg, BOOT, events).world, token);
  }

  /** A stored hash is of a password that the policy accepts and bcrypt can hold. */
  lemma {:induction false} StoredPasswordsCompliant(cfg: Settings, events: seq<Event>, u: Uuid)
    requires u in Run(cfg, BOOT, events).world.db.users
    ensures var user := Run(cfg, BOOT, events).world.db.users[u];
            && Meets(user.password.password, user.email) && |Utf8Encode(user.password.password)| <= 72
            && VerifyPassword(user.password.password, user.password)
  {
    hide Run;
    hide Compliant;
    hide Meets;
    NoServerError(cfg, events);
    var user := Run(cfg, BOOT, events).world.db.users[u];
    CompliantIff(user.password.password, user.email);
    Utf8LengthIsBytes(user.password.password);
  }

  /**
   In every run an address is verified exactly when no verification token is stored, a reset token is stored
   exactly when its expiry is, and no look-up by address or token matches two users.
   */
  lemma {:induction false} TokenColumnsAgree(cfg: Settings, events: seq<Event>)
    ensures var db := Run(cfg, BOOT, events).world.db;
            && (forall u | u in db.users ::
                  && (db.users[u].verified <==> db.users[u].verification == None)
                  && (db.users[u].reset == None <==> db.users[u].resetExpires == None))
            && (forall email :: !ByEmail(db, email).ManyRows?)
            && (forall token :: !ByVerification(db, token).ManyRows? && !ByReset(db, token).ManyRows?)
  {
    hide Run;
    hide ByEmail;
    hide ByVerification;
    hide ByReset;
    hide Compliant;
    hide Utf8Length;
    NoServerError(cfg, events);
    var w := Run(cfg, BOOT, events).world;
    forall email ensures !ByEmail(w.db, email).ManyRows? {
      EmailUnique(w, email);
    }
    forall token ensures !ByVerification(w.db, token).ManyRows? && !ByReset(w.db, token).ManyRows? {
      VerificationUnique(w, token);
      ResetUnique(w, token);
    }
  }
}
