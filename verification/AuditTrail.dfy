/**
 What the audit log says about one request (app/services/auth_service.py, app/services/mfa_service.py,
 app/services/audit_service.py:9-29): which requests leave a row, and which row.
 */
module AuditTrail {
  import opened Prelude
  import opened Text
  import opened PasswordPolicy
  import opened AuthState
  import opened AuthSpec
  import opened Accounts
  import opened Sessions
  import Lockout

  // ---- Who is meant ----

  /** The user of an address, in any case, or nobody. */
  ghost predicate OfAddress(db: Db, email: string, user: Option<Uuid>) {
    match user
    case Some(u) => u in db.users && db.users[u].email == Lower(email)
    case None => forall u | u in db.users :: db.users[u].email != Lower(email)
  }

  /** The user whose stored token of that kind this is, or nobody. */
  ghost predicate OfToken(db: Db, kind: MailKind, token: Uuid, user: Option<Uuid>) {
    match user
    case Some(u) => u in db.users && Stored(db.users[u], kind) == Some(Sha256(token))
    case None => forall u | u in db.users :: Stored(db.users[u], kind) != Some(Sha256(token))
  }

  /** The signed, unexpired token of this kind: only then is its subject named. */
  predicate Genuine(w: World, token: Claims, kind: Kind) {
    Decodes(w, token) && token.kind == kind
  }

  // ---- Which requests leave no row ----

  ghost predicate Silent(w: World, req: Request, reply: Reply) {
    match req
    case RegisterUser(_, _, _) => reply.Raised?
    case ResendVerification(email) =>
      forall u | u in w.db.users && w.db.users[u].email == Lower(email) :: w.db.users[u].verified
    case ForgotPassword(email) =>
      forall u | u in w.db.users && w.db.users[u].email == Lower(email) :: !w.db.users[u].active
    case ResetPassword(_, _, _) => reply == Raised(422)
    case SetupMfa(_) => reply.Raised?
    case VerifyMfaSetup(token, _) => !Switchable(w, token, false)
    case DisableMfa(token, _) => !Switchable(w, token, true)
    case DeleteSession(_, _) => reply.Raised?
    case SetActive(_, _) => true
    case _ => false
  }

  /** The caller has MFA set up, and it is on or off as given. */
  predicate Switchable(w: World, token: Claims, on: bool) {
    match CurrentActiveUser(w, token)
    case Active(u) => u in w.db.mfa && w.db.mfa[u].enabled == on
    case Rejected(_) => false
  }

  // ---- Which row the others leave ----

  /** The event and the user of the row, by the request and its answer. */
  ghost predicate Names(w: World, req: Request, reply: Reply, event: EventType, user: Option<Uuid>) {
    match req
    case RegisterUser(_, _, _) => event == Registered && reply.Returned? && reply.body.SignedIn?
                                  && user == Some(reply.body.user)
    case VerifyEmail(token) =>
      OfToken(w.db, VerifyMail, token, user)
      && event == if reply.Returned? then VerificationSuccess else VerificationFailure
    case ResendVerification(email) => event == VerificationResent && OfAddress(w.db, email, user)
    case LoginUser(email, _, _) =>
      (if reply == Raised(423) then event == LoginLocked && user == None
       else
         OfAddress(w.db, email, user)
         && match reply
            case Raised(status) => event == if status == 401 then LoginFailure else LoginInactive
            case Returned(body) => event == if body.MfaRequired? then ChallengeIssued else LoginSuccess)
    case ForgotPassword(email) => event == ResetRequested && OfAddress(w.db, email, user)
    case ResetPassword(token, _, _) =>
      OfToken(w.db, ResetMail, token, user)
      && event == if reply.Returned? then ResetSuccess else ResetFailure
    case VerifyMfaChallenge(token, _) =>
      && user == (if Genuine(w, token, ChallengeToken) then token.sub else None)
      && event == if reply.Returned? then ChallengeSuccess else ChallengeFailure
    case RefreshTokens(token) =>
      && user == (if Genuine(w, token, RefreshToken) then token.sub else None)
      && if reply.Returned? then event == RefreshSuccess else event in {RefreshFailure, RefreshReuse}
    case SetupMfa(token) => event == MfaSetupStarted && user == token.sub
    case VerifyMfaSetup(token, _) =>
      user == token.sub && event == if reply.Returned? then MfaEnabled else MfaVerifyFailure
    case DisableMfa(token, _) =>
      user == token.sub && event == if reply.Returned? then MfaDisabled else MfaDisableFailure
    case DeleteSession(token, _) => event == SessionRevoked && user == token.sub
    case SetActive(_, _) => false
  }

  /** Only refreshes name a family, and only once their user is known to be active. */
  predicate NamesFamily(w: World, req: Request, family: Option<Uuid>) {
    if req.RefreshTokens? && Genuine(w, req.token, RefreshToken) && req.token.sub.Some?
       && req.token.sub.value in w.db.users && w.db.users[req.token.sub.value].active
    then family == req.token.family
    else family == None
  }

  /** A row is told apart by its event, user, family and time; it is a success exactly when the answer is one. */
  ghost predicate Trail(w: World, req: Request, r: Result) {
    var rows, rows' := w.db.audit, r.world.db.audit;
    if Silent(w, req, r.reply) then rows' == rows
    else
      && |rows'| == |rows| + 1 && rows'[..|rows|] == rows
      && var row := rows'[|rows|];
         && Names(w, req, r.reply, row.event, row.user) && NamesFamily(w, req, row.family)
         && row.success == r.reply.Returned? && row.createdAt == w.clock
  }

  // ---- Each request ----

  lemma SignInRow(cfg: Settings, w: World, u: Uuid, event: EventType)
    ensures var r := SignIn(cfg, w, u, event);
            && r.world.db.audit == w.db.audit + [AuditRow(event, Some(u), None, true, w.clock)]
            && r.reply.Returned? && r.reply.body.SignedIn? && r.reply.body.user == u
  {
    hide Create;
  }

  lemma RefuseRow(w: World, status: nat, event: EventType, user: Option<Uuid>, family: Option<Uuid>)
    requires user.Some? ==> user.value in w.db.users
    ensures var r := Refuse(w, status, event, user, family);
            && r.world.db.audit == w.db.audit + [AuditRow(event, user, family, false, w.clock)]
            && r.reply == Raised(status)
  {
  }

  lemma RegisterTrail(cfg: Settings, w: World, req: Request)
    requires req.RegisterUser?
    ensures Trail(w, req, Handle(cfg, w, req))
  {
    hide SignIn;
    hide ByEmail;
    hide Acceptable;
    SignInRow(cfg, WithNewUser(w, Lower(req.email), req.password), w.nextId, Registered);
  }

  lemma MailTrail(cfg: Settings, w: World, req: Request)
    requires req.ResendVerification? || req.ForgotPassword?
    requires UsersSound(w.db.users, w.nextId)
    ensures Trail(w, req, Handle(cfg, w, req))
  {
    EmailUnique(w, req.email);
    hide ByEmail;
    hide UsersSound;
  }

  lemma AcceptedRow(cfg: Settings, w: World, u: Uuid)
    ensures var r := PasswordAccepted(cfg, w, u);
            && r.reply.Returned?
            && var event := if r.reply.body.MfaRequired? then ChallengeIssued else LoginSuccess;
               r.world.db.audit == w.db.audit + [AuditRow(event, Some(u), None, true, w.clock)]
  {
    hide SignIn;
    SignInRow(cfg, w, u, LoginSuccess);
  }

  lemma LoginTrail(cfg: Settings, w: World, req: Request)
    requires req.LoginUser? && AccountsSound(w)
    ensures Trail(w, req, Handle(cfg, w, req))
  {
    hide PasswordAccepted;
    hide Refuse;
    hide VerifyPassword;
    hide Lockout.Locked;
    hide Lockout.Record;
    hide Lockout.Clear;
    EmailUnique(w, req.email);
    hide AccountsSound;
    hide ByEmail;
    var w1 := Failed(cfg, w, req.email, req.ip);
    RefuseRow(w, 423, LoginLocked, None, None);
    RefuseRow(w1, 401, LoginFailure, None, None);
    if ByEmail(w.db, req.email).OneRow? {
      var u := ByEmail(w.db, req.email).id;
      RefuseRow(w1, 401, LoginFailure, Some(u), None);
      RefuseRow(w, 403, LoginInactive, Some(u), None);
      AcceptedRow(cfg, w.(redis := Lockout.Clear(w.redis, req.email, req.ip)), u);
    }
  }

  lemma VerifyTrail(cfg: Settings, w: World, req: Request)
    requires req.VerifyEmail? && UsersSound(w.db.users, w.nextId)
    ensures Trail(w, req, Handle(cfg, w, req))
  {
    VerificationUnique(w, req.mailed);
    hide UsersSound;
    hide ByVerification;
  }

  lemma ResetTrail(cfg: Settings, w: World, req: Request)
    requires req.ResetPassword? && UsersSound(w.db.users, w.nextId)
    ensures Trail(w, req, Handle(cfg, w, req))
  {
    hide Acceptable;
    hide RevokeFamiliesOf;
    hide Refuse;
    ResetUnique(w, req.mailed);
    hide UsersSound;
    hide ByReset;
    RefuseRow(w, 400, ResetFailure, None, None);
    if ByReset(w.db, req.mailed).OneRow? {
      RefuseRow(w, 400, ResetFailure, Some(ByReset(w.db, req.mailed).id), None);
    }
  }

  lemma ChallengeTrail(cfg: Settings, w: World, req: Request)
    requires req.VerifyMfaChallenge? && ReferencesSound(w)
    ensures Trail(w, req, Handle(cfg, w, req))
  {
    hide SignIn;
    hide Refuse;
    RefuseRow(w, 401, ChallengeFailure, None, None);
    if req.token in w.minted {
      SubjectExists(w, req.token);
      RefuseRow(w, 401, ChallengeFailure, req.token.sub, None);
      RefuseRow(w, 400, ChallengeFailure, req.token.sub, None);
      SignInRow(cfg, w, req.token.sub.value, ChallengeSuccess);
    }
  }

  lemma FamilyRow(cfg: Settings, w: World, u: Uuid, f: Uuid)
    requires f in w.db.families
    ensures var r := Rotate(cfg, w, u, f);
            && r.reply.Returned?
            && r.world.db.audit == w.db.audit + [AuditRow(RefreshSuccess, Some(u), Some(f), true, w.clock)]
    ensures var r := Reused(w, u, f);
            && r.reply.Raised?
            && r.world.db.audit == w.db.audit + [AuditRow(RefreshReuse, Some(u), Some(f), false, w.clock)]
  {
  }

  lemma RefreshTrail(cfg: Settings, w: World, req: Request)
    requires req.RefreshTokens? && ReferencesSound(w)
    ensures Trail(w, req, Handle(cfg, w, req))
  {
    hide Refuse;
    hide Rotate;
    hide Reused;
    RefuseRow(w, 401, RefreshFailure, None, None);
    if req.token in w.minted {
      SubjectExists(w, req.token);
      RefuseRow(w, 401, RefreshFailure, req.token.sub, None);
      RefuseRow(w, 401, RefreshFailure, req.token.sub, req.token.family);
      if req.token.family.Some? && req.token.family.value in w.db.families {
        FamilyRow(cfg, w, req.token.sub.value, req.token.family.value);
      }
    }
  }

  lemma CallTrail(cfg: Settings, w: World, req: Request)
    requires req.SetupMfa? || req.VerifyMfaSetup? || req.DisableMfa? || req.DeleteSession? || req.SetActive?
    ensures Trail(w, req, Handle(cfg, w, req))
  {
    hide CurrentActiveUser;
  }

  lemma StepTrail(cfg: Settings, w: World, req: Request)
    requires AccountsSound(w)
    ensures Trail(w, req, Handle(cfg, w, req))
  {
    hide Handle;
    hide Trail;
    hide UsersSound;
    hide ReferencesSound;
    match req
    case RegisterUser(_, _, _) => RegisterTrail(cfg, w, req);
    case VerifyEmail(_) => VerifyTrail(cfg, w, req);
    case ResendVerification(_) => MailTrail(cfg, w, req);
    case LoginUser(_, _, _) => LoginTrail(cfg, w, req);
    case ForgotPassword(_) => MailTrail(cfg, w, req);
    case ResetPassword(_, _, _) => ResetTrail(cfg, w, req);
    case VerifyMfaChallenge(_, _) => ChallengeTrail(cfg, w, req);
    case RefreshTokens(_) => RefreshTrail(cfg, w, req);
    case _ => CallTrail(cfg, w, req);
  }

  /**
   In every run each request leaves at most one audit row; the request, its answer and who it concerns determine
   whether it does and every column of the row, and the row is a success exactly when the request was answered.
   */
  lemma {:induction false} EveryRequestTrails(cfg: Settings, events: seq<Event>, e: Event)
    ensures Trail(Tick(Run(cfg, BOOT, events).world, e.delay), e.request, Step(cfg, Run(cfg, BOOT, events).world, e))
  {
    hide Run;
    hide Handle;
    hide Trail;
    hide AccountsSound;
    var w := Run(cfg, BOOT, events).world;
    NoServerError(cfg, events);
    TickSound(w, e.delay);
    StepTrail(cfg, Tick(w, e.delay), e.request);
  }
}
