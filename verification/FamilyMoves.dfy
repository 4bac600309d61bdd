/**
 Every request, seen by the refresh-token families, is one of five moves. This is what the service
 calls are abstracted to before anything is proved about whole runs.
 */
module FamilyMoves {
  import opened Prelude
  import opened Text
  import opened PasswordPolicy
  import opened Sessions
  import opened AuthState
  import opened AuthSpec
  import Lockout

  datatype Move =
    | Kept
    | Opened(family: Uuid, owner: Uuid, token: Claims, event: EventType)
    | Turned(family: Uuid, spent: Claims, token: Claims)
    | ReuseCaught(family: Uuid)
    | OwnerReset(owner: Uuid)

  /** The refresh token that a reply hands out. */
  function RefreshOf(reply: Reply): Option<Claims> {
    match reply
    case Returned(SignedIn(_, _, refresh)) => Some(refresh)
    case Returned(Rotated(_, refresh)) => Some(refresh)
    case _ => None
  }

  predicate Accepts(req: Request, reply: Reply) {
    req.RefreshTokens? && reply.Returned?
  }

  predicate IsOpening(event: EventType) {
    event in {Registered, LoginSuccess, ChallengeSuccess}
  }

  /** The events that tell of a change to some family. */
  predicate IsFamilyEvent(event: EventType) {
    IsOpening(event) || event in {RefreshReuse, RefreshSuccess, ResetSuccess}
  }

  /** Nothing more than one audit row that is not about families. */
  predicate QuietLog(w: World, w': World) {
    || w'.db.audit == w.db.audit
    || (&& |w'.db.audit| == |w.db.audit| + 1
        && w'.db.audit[..|w.db.audit|] == w.db.audit
        && !IsFamilyEvent(w'.db.audit[|w.db.audit|].event)
        && w'.db.audit[|w.db.audit|].createdAt == w.clock)
  }

  predicate Grows(w: World, w': World) {
    && w.nextId <= w'.nextId
    && w.clock == w'.clock
    && w.db.users.Keys <= w'.db.users.Keys
    && w.minted <= w'.minted
  }

  predicate Moves(cfg: Settings, w: World, req: Request, r: Result, m: Move) {
    var w' := r.world;
    var families, families' := w.db.families, w'.db.families;
    && Grows(w, w')
    && match m
       case Kept =>
         && families' == families
         && RefreshOf(r.reply) == None && !Accepts(req, r.reply)
         && (forall t | t in w'.minted && t !in w.minted :: t.kind != RefreshToken)
         && QuietLog(w, w')
       case Opened(f, u, token, event) =>
         && w.nextId <= f < w'.nextId && u in w'.db.users && IsOpening(event)
         && (exists jti :: f < jti < w'.nextId && token == RefreshFor(cfg, w.clock, u, f, jti))
         && families' == families[f := Family(u, false, Sha256(token), w.clock)]
         && r.reply.Returned? && RefreshOf(r.reply) == Some(token) && !Accepts(req, r.reply)
         && (forall t | t in w'.minted && t !in w.minted && t != token :: t.kind != RefreshToken)
         && token in w'.minted
         && w'.db.audit == w.db.audit + [AuditRow(event, Some(u), None, true, w.clock)]
       case Turned(f, spent, token) =>
         && req == RefreshTokens(spent) && r.reply.Returned? && RefreshOf(r.reply) == Some(token)
         && Decodes(w, spent) && spent.kind == RefreshToken && spent.family == Some(f) && spent.sub.Some?
         && f in families && !families[f].revoked && families[f].last == Sha256(spent)
         && families[f].owner == spent.sub.value && spent.sub.value in w.db.users && w.db.users[spent.sub.value].active
         && w'.nextId == w.nextId + 1
         && token == RefreshFor(cfg, w.clock, families[f].owner, f, w.nextId)
         && families' == families[f := families[f].(last := Sha256(token))]
         && (forall t | t in w'.minted && t !in w.minted && t != token :: t.kind != RefreshToken)
         && token in w'.minted
         && w'.db.audit == w.db.audit + [AuditRow(RefreshSuccess, spent.sub, Some(f), true, w.clock)]
       case ReuseCaught(f) =>
         && req.RefreshTokens? && r.reply.Raised? && RefreshOf(r.reply) == None
         && req.token.family == Some(f) && f in families && families[f].last != Sha256(req.token)
         && families' == families[f := families[f].(revoked := true)]
         && w'.minted == w.minted
         && w'.db.audit == w.db.audit + [AuditRow(RefreshReuse, req.token.sub, Some(f), false, w.clock)]
       case OwnerReset(u) =>
         && req.ResetPassword? && r.reply == Returned(Done)
         && u in w.db.users
         && families' == RevokeFamiliesOf(families, u)
         && w'.minted == w.minted
         && w'.db.audit == w.db.audit + [AuditRow(ResetSuccess, Some(u), None, true, w.clock)]
  }

  lemma QuietRefuse(cfg: Settings, w: World, req: Request, w1: World, status: nat, event: EventType,
          user: Option<Uuid>, family: Option<Uuid>)
    requires w1 == w.(redis := w1.redis) && !IsFamilyEvent(event)
    ensures Moves(cfg, w, req, Refuse(w1, status, event, user, family), Kept)
  {
  }

  lemma SignInMoves(cfg: Settings, w: World, req: Request, w1: World, u: Uuid, event: EventType) returns (m: Move)
    requires !req.RefreshTokens? && IsOpening(event) && u in w1.db.users
    requires w1.db.families == w.db.families && w1.db.audit == w.db.audit
    requires w1.minted == w.minted && w1.clock == w.clock && w.nextId <= w1.nextId
    requires w.db.users.Keys <= w1.db.users.Keys
    ensures Moves(cfg, w, req, SignIn(cfg, w1, u, event), m)
    ensures m.Opened? && m.owner == u && m.event == event && w1.nextId <= m.family
  {
    hide Create;
    hide Expiry;
    var f, jti := w1.nextId, w1.nextId + 1;
    var token := RefreshFor(cfg, w.clock, u, f, jti);
    m := Opened(f, u, token, event);
  }

  lemma RegisterMoves(cfg: Settings, w: World, email: string, password: string, breached: bool) returns (m: Move)
    ensures Moves(cfg, w, RegisterUser(email, password, breached), Register(cfg, w, email, password, breached), m)
    ensures m.Kept? || (m.Opened? && m.owner == w.nextId)
  {
    hide SignIn;
    hide Acceptable;
    hide ByEmail;
    var req := RegisterUser(email, password, breached);
    var w1 := WithNewUser(w, Lower(email), password);
    if ByEmail(w.db, email) == NoRow && Acceptable(password, Lower(email), breached) {
      m := SignInMoves(cfg, w, req, w1, w.nextId, Registered);
    } else {
      m := Kept;
    }
  }

  lemma LoginMoves(cfg: Settings, w: World, email: string, password: string, ip: Option<string>) returns (m: Move)
    ensures Moves(cfg, w, LoginUser(email, password, ip), Login(cfg, w, email, password, ip), m)
    ensures m.Kept? || (m.Opened? && ByEmail(w.db, email) == OneRow(m.owner) && !MfaIsEnabled(w.db, m.owner))
  {
    hide SignIn;
    hide Refuse;
    hide ByEmail;
    hide Moves;
    hide Lockout.Locked;
    hide Lockout.Clear;
    hide Lockout.Record;
    var req := LoginUser(email, password, ip);
    var r := Login(cfg, w, email, password, ip);
    m := Kept;
    if Lockout.Locked(w.redis, w.clock, email, ip) {
      QuietRefuse(cfg, w, req, w, 423, LoginLocked, None, None);
    } else {
      match ByEmail(w.db, email)
      case ManyRows => QuietRaise(cfg, w, req, SERVER_ERROR);
      case NoRow => QuietRefuse(cfg, w, req, Failed(cfg, w, email, ip), 401, LoginFailure, None, None);
      case OneRow(u) =>
        if !VerifyPassword(password, w.db.users[u].password) {
          QuietRefuse(cfg, w, req, Failed(cfg, w, email, ip), 401, LoginFailure, Some(u), None);
        } else if !w.db.users[u].active {
          QuietRefuse(cfg, w, req, w, 403, LoginInactive, Some(u), None);
        } else {
          var w1 := w.(redis := Lockout.Clear(w.redis, email, ip));
          if MfaIsEnabled(w.db, u) {
            ChallengeMoves(cfg, w, req, w1, u);
          } else {
            m := SignInMoves(cfg, w, req, w1, u, LoginSuccess);
          }
        }
    }
  }

  lemma ChallengeMoves(cfg: Settings, w: World, req: Request, w1: World, u: Uuid)
    requires w1 == w.(redis := w1.redis) && MfaIsEnabled(w1.db, u) && !req.RefreshTokens?
    ensures Moves(cfg, w, req, PasswordAccepted(cfg, w1, u), Kept)
  {
  }

  lemma QuietRaise(cfg: Settings, w: World, req: Request, status: nat)
    ensures Moves(cfg, w, req, Raise(w, status), Kept)
  {
  }

  lemma ExchangeMoves(cfg: Settings, w: World, token: Claims, code: string) returns (m: Move)
    ensures Moves(cfg, w, VerifyMfaChallenge(token, code), Challenge(cfg, w, token, code), m)
    ensures m.Kept? || (m.Opened? && Decodes(w, token) && token.kind == ChallengeToken && token.sub == Some(m.owner)
                        && MfaIsEnabled(w.db, m.owner) && cfg.totp(w.db.mfa[m.owner].secret, code, w.clock))
  {
    hide SignIn;
    hide Refuse;
    hide Moves;
    var req := VerifyMfaChallenge(token, code);
    m := Kept;
    if !Decodes(w, token) || token.kind != ChallengeToken {
      QuietRefuse(cfg, w, req, w, 401, ChallengeFailure, None, None);
    } else if token.sub.None? {
      QuietRaise(cfg, w, req, 401);
    } else {
      var u := token.sub.value;
      if u !in w.db.users || !w.db.users[u].active {
        QuietRefuse(cfg, w, req, w, 401, ChallengeFailure, Some(u), None);
      } else if !MfaIsEnabled(w.db, u) || !cfg.totp(w.db.mfa[u].secret, code, w.clock) {
        QuietRefuse(cfg, w, req, w, 400, ChallengeFailure, Some(u), None);
      } else {
        m := SignInMoves(cfg, w, req, w, u, ChallengeSuccess);
      }
    }
  }

  lemma RefreshMoves(cfg: Settings, w: World, token: Claims) returns (m: Move)
    ensures Moves(cfg, w, RefreshTokens(token), Refresh(cfg, w, token), m)
    ensures m.Kept? || m.Turned? || m.ReuseCaught?
  {
    hide Refuse;
    hide Moves;
    var req := RefreshTokens(token);
    m := Kept;
    if !Decodes(w, token) || token.kind != RefreshToken {
      QuietRefuse(cfg, w, req, w, 401, RefreshFailure, None, None);
    } else if token.sub.None? {
      QuietRaise(cfg, w, req, 401);
    } else {
      var u := token.sub.value;
      if token.family.None? {
        QuietRefuse(cfg, w, req, w, 401, RefreshFailure, Some(u), None);
      } else if u !in w.db.users || !w.db.users[u].active {
        QuietRefuse(cfg, w, req, w, 401, RefreshFailure, Some(u), None);
      } else {
        var f := token.family.value;
        if f !in w.db.families || w.db.families[f].owner != u || w.db.families[f].revoked {
          QuietRefuse(cfg, w, req, w, 401, RefreshFailure, Some(u), Some(f));
        } else if w.db.families[f].last != Sha256(token) {
          m := ReuseCaught(f);
          ReusedMoves(cfg, w, token, u, f);
        } else {
          m := Turned(f, token, RefreshFor(cfg, w.clock, u, f, w.nextId));
          RotateMoves(cfg, w, token, u, f);
        }
      }
    }
  }

  lemma ReusedMoves(cfg: Settings, w: World, token: Claims, u: Uuid, f: Uuid)
    requires token.sub == Some(u) && token.family == Some(f) && f in w.db.families
    requires w.db.families[f].last != Sha256(token)
    ensures Moves(cfg, w, RefreshTokens(token), Reused(w, u, f), ReuseCaught(f))
  {
  }

  lemma RotateMoves(cfg: Settings, w: World, token: Claims, u: Uuid, f: Uuid)
    requires Decodes(w, token) && token.kind == RefreshToken && token.sub == Some(u) && token.family == Some(f)
    requires u in w.db.users && w.db.users[u].active && f in w.db.families
    requires w.db.families[f].owner == u && !w.db.families[f].revoked && w.db.families[f].last == Sha256(token)
    ensures Moves(cfg, w, RefreshTokens(token), Rotate(cfg, w, u, f),
            Turned(f, token, RefreshFor(cfg, w.clock, u, f, w.nextId)))
  {
  }

  lemma ResetMoves(cfg: Settings, w: World, token: Uuid, password: string, breached: bool) returns (m: Move)
    ensures Moves(cfg, w, ResetPassword(token, password, breached), Reset(w, token, password, breached), m)
    ensures m.Kept? || (m.OwnerReset? && ByReset(w.db, token) == OneRow(m.owner))
  {
    hide Acceptable;
    hide ByReset;
    hide Refuse;
    hide RevokeFamiliesOf;
    var req := ResetPassword(token, password, breached);
    m := Kept;
    match ByReset(w.db, token)
    case ManyRows => QuietRaise(cfg, w, req, SERVER_ERROR);
    case NoRow => QuietRefuse(cfg, w, req, w, 400, ResetFailure, None, None);
    case OneRow(u) =>
      if ResetExpired(w.db.users[u], w.clock) {
        QuietRefuse(cfg, w, req, w, 400, ResetFailure, Some(u), None);
      } else if !Acceptable(password, w.db.users[u].email, breached) {
        QuietRaise(cfg, w, req, 422);
      } else {
        m := OwnerReset(u);
      }
  }

  lemma MailMoves(cfg: Settings, w: World, req: Request)
    requires req.ResendVerification? || req.ForgotPassword?
    ensures Moves(cfg, w, req, Handle(cfg, w, req), Kept)
  {
    hide ByEmail;
  }

  lemma AccountMoves(cfg: Settings, w: World, req: Request)
    requires req.VerifyEmail? || req.ResendVerification? || req.ForgotPassword? || req.SetActive?
    ensures Moves(cfg, w, req, Handle(cfg, w, req), Kept)
  {
    hide ByVerification;
    if req.ResendVerification? || req.ForgotPassword? {
      hide Handle;
      MailMoves(cfg, w, req);
    }
  }

  lemma SwitchMoves(cfg: Settings, w: World, req: Request)
    requires req.VerifyMfaSetup? || req.DisableMfa?
    ensures Moves(cfg, w, req, Handle(cfg, w, req), Kept)
  {
    hide CurrentActiveUser;
  }

  lemma CallerMoves(cfg: Settings, w: World, req: Request)
    requires req.SetupMfa? || req.VerifyMfaSetup? || req.DisableMfa? || req.DeleteSession?
    ensures Moves(cfg, w, req, Handle(cfg, w, req), Kept)
  {
    hide CurrentActiveUser;
    if req.VerifyMfaSetup? || req.DisableMfa? {
      hide Handle;
      SwitchMoves(cfg, w, req);
    }
  }

  /** Every request makes exactly one of the moves. */
  lemma Classify(cfg: Settings, w: World, req: Request) returns (m: Move)
    ensures Moves(cfg, w, req, Handle(cfg, w, req), m)
  {
    hide Moves;
    match req
    case RegisterUser(email, password, breached) => m := RegisterMoves(cfg, w, email, password, breached);
    case LoginUser(email, password, ip) => m := LoginMoves(cfg, w, email, password, ip);
    case VerifyMfaChallenge(token, code) => m := ExchangeMoves(cfg, w, token, code);
    case RefreshTokens(token) => m := RefreshMoves(cfg, w, token);
    case ResetPassword(mailed, password, breached) => m := ResetMoves(cfg, w, mailed, password, breached);
    case SetupMfa(_) => CallerMoves(cfg, w, req); m := Kept;
    case VerifyMfaSetup(_, _) => CallerMoves(cfg, w, req); m := Kept;
    case DisableMfa(_, _) => CallerMoves(cfg, w, req); m := Kept;
    case DeleteSession(_, _) => CallerMoves(cfg, w, req); m := Kept;
    case _ => AccountMoves(cfg, w, req); m := Kept;
  }
}
