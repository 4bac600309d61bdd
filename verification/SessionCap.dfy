/**
 The session table over every run of the whole service (app/services/session_service.py:15-37, 49-66 and
 78-92): sign-ins are all that adds a session, and a user's own revocation all that removes one beyond
 the cap.
 */
module SessionCap {
  import opened Prelude
  import opened PasswordPolicy
  import opened Sessions
  import opened Text
  import opened AuthState
  import opened AuthSpec
  import opened Accounts
  import opened SessionLedger
  import opened Callers
  import Lockout
  import LoginRate

  ghost predicate SessionsSound(cap: nat, w: World) {
    && (forall s | s in w.db.sessions :: s < w.nextId && w.db.sessions[s].lastActive <= w.clock)
    && WithinCap(cap, w.db.sessions)
  }

  /** `user` signed in with a new session: it, and the newest of the others, are what they now have. */
  ghost predicate NewestKept(cap: nat, days: int, rows: Table, after: Table, user: Uuid, now: Time) {
    var row := Session(user, now, now + days * 86400 * 1_000_000);
    exists id: Uuid ::
      && id !in rows && id in after
      && KeepsNewest(rows[id := row], after, user, cap)
      && |OwnedBy(rows[id := row], user)| == |OwnedBy(rows, user)| + 1
  }

  /** What a request does to the session table. */
  ghost predicate SessionStep(cap: nat, days: int, w: World, req: Request, r: Result) {
    var rows, after := w.db.sessions, r.world.db.sessions;
    && w.nextId <= r.world.nextId
    && (forall s | s in after :: s < r.world.nextId && (s in rows || w.nextId <= s))
    && if r.reply.Returned? && r.reply.body.SignedIn?
       then NewestKept(cap, days, rows, after, r.reply.body.user, w.clock)
       else if req.DeleteSession? && r.reply.Returned? then
         req.session in rows && req.token.sub == Some(rows[req.session].owner) && after == rows - {req.session}
       else after == rows
  }

  /** Every session was opened before this request. */
  ghost predicate Earlier(w: World) {
    forall s | s in w.db.sessions :: s < w.nextId && w.db.sessions[s].lastActive < w.clock
  }

  lemma KeptRows(rows: Table, after: Table, owner: nat, cap: nat)
    requires KeepsNewest(rows, after, owner, cap)
    ensures forall s | s in after :: s in rows && after[s] == rows[s]
  {
  }

  lemma SignInSessions(cfg: Settings, w: World, u: Uuid, event: EventType)
    requires Earlier(w)
    ensures var r := SignIn(cfg, w, u, event);
            && NewestKept(cfg.maxSessions, cfg.sessionDays, w.db.sessions, r.world.db.sessions, u, w.clock)
            && r.reply.Returned? && r.reply.body.SignedIn? && r.reply.body.user == u
            && w.nextId <= r.world.nextId
            && (forall s | s in r.world.db.sessions ::
                  s < r.world.nextId && (s in w.db.sessions || w.nextId <= s))
  {
    hide Create;
    hide OwnedBy;
    hide KeepsNewest;
    hide NewestKept;
    hide AccessFor;
    hide RefreshFor;
    var id := w.nextId + 2;
    var row := Session(u, w.clock, w.clock + cfg.sessionDays * 86400 * SECOND);
    Fresh(w, id, row, cfg.maxSessions, cfg.sessionDays);
  }

  lemma Fresh(w: World, id: Uuid, row: Session, cap: Positive, days: int)
    requires Earlier(w) && id >= w.nextId && row.lastActive == w.clock
    requires row.expiresAt == w.clock + days * 86400 * 1_000_000
    ensures NewestKept(cap, days, w.db.sessions, Create(w.db.sessions, id, row, cap), row.owner, w.clock)
    ensures forall s | s in Create(w.db.sessions, id, row, cap) :: s == id || s in w.db.sessions
  {
    hide Create;
    CreateKeepsNewest(w.db.sessions, id, row, cap);
    KeptRows(w.db.sessions[id := row], Create(w.db.sessions, id, row, cap), row.owner, cap);
    assert id in Create(w.db.sessions, id, row, cap);
  }

  lemma SameSessions(cap: nat, days: int, w: World, req: Request, r: Result)
    requires Earlier(w) && r.world.db.sessions == w.db.sessions && w.nextId <= r.world.nextId
    requires !req.DeleteSession? || r.reply.Raised?
    requires r.reply.Returned? ==> !r.reply.body.SignedIn?
    ensures SessionStep(cap, days, w, req, r)
  {
  }

  lemma SignedInStep(cap: nat, days: int, w: World, w1: World, req: Request, r: Result)
    requires w1.db.sessions == w.db.sessions && w1.clock == w.clock
    requires r.reply.Returned? && r.reply.body.SignedIn?
    requires NewestKept(cap, days, w1.db.sessions, r.world.db.sessions, r.reply.body.user, w1.clock)
    requires w.nextId <= w1.nextId <= r.world.nextId
    requires forall s | s in r.world.db.sessions ::
               s < r.world.nextId && (s in w1.db.sessions || w1.nextId <= s)
    ensures SessionStep(cap, days, w, req, r)
  {
    hide NewestKept;
  }

  lemma RegisterSessions(cfg: Settings, w: World, req: Request)
    requires req.RegisterUser? && Earlier(w)
    ensures SessionStep(cfg.maxSessions, cfg.sessionDays, w, req, Handle(cfg, w, req))
  {
    hide SignIn;
    hide ByEmail;
    hide Acceptable;
    hide SessionStep;
    hide NewestKept;
    var r := Handle(cfg, w, req);
    var w1 := WithNewUser(w, Lower(req.email), req.password);
    SignInSessions(cfg, w1, w.nextId, Registered);
    if ByEmail(w.db, req.email).NoRow? && Acceptable(req.password, Lower(req.email), req.breached) {
      SignedInStep(cfg.maxSessions, cfg.sessionDays, w, w1, req, r);
    } else {
      SameSessions(cfg.maxSessions, cfg.sessionDays, w, req, r);
    }
  }

  lemma LoginSessions(cfg: Settings, w: World, req: Request)
    requires req.LoginUser? && Earlier(w)
    ensures SessionStep(cfg.maxSessions, cfg.sessionDays, w, req, Handle(cfg, w, req))
  {
    hide SignIn;
    hide Refuse;
    hide ByEmail;
    hide VerifyPassword;
    hide SessionStep;
    hide NewestKept;
    hide Lockout.Locked;
    hide Lockout.Record;
    hide Lockout.Clear;
    var r, found := Handle(cfg, w, req), ByEmail(w.db, req.email);
    var w1, w2 := Failed(cfg, w, req.email, req.ip), w.(redis := Lockout.Clear(w.redis, req.email, req.ip));
    RefuseFrame(w, 423, LoginLocked, None, None);
    RefuseFrame(w1, 401, LoginFailure, None, None);
    if found.OneRow? {
      var u := found.id;
      RefuseFrame(w1, 401, LoginFailure, Some(u), None);
      RefuseFrame(w, 403, LoginInactive, Some(u), None);
      SignInSessions(cfg, w2, u, LoginSuccess);
      if r == SignIn(cfg, w2, u, LoginSuccess) {
        SignedInStep(cfg.maxSessions, cfg.sessionDays, w, w2, req, r);
        return;
      }
    }
    SameSessions(cfg.maxSessions, cfg.sessionDays, w, req, r);
  }

  lemma ChallengeSessions(cfg: Settings, w: World, req: Request)
    requires req.VerifyMfaChallenge? && Earlier(w)
    ensures SessionStep(cfg.maxSessions, cfg.sessionDays, w, req, Handle(cfg, w, req))
  {
    hide SignIn;
    hide Refuse;
    hide SessionStep;
    hide NewestKept;
    var r := Handle(cfg, w, req);
    RefuseFrame(w, 401, ChallengeFailure, None, None);
    RefuseFrame(w, 401, ChallengeFailure, req.token.sub, None);
    RefuseFrame(w, 400, ChallengeFailure, req.token.sub, None);
    if req.token.sub.Some? {
      SignInSessions(cfg, w, req.token.sub.value, ChallengeSuccess);
      if r == SignIn(cfg, w, req.token.sub.value, ChallengeSuccess) {
        SignedInStep(cfg.maxSessions, cfg.sessionDays, w, w, req, r);
        return;
      }
    }
    SameSessions(cfg.maxSessions, cfg.sessionDays, w, req, r);
  }

  lemma MailSessions(cfg: Settings, w: World, req: Request)
    requires Earlier(w) && (req.VerifyEmail? || req.ResendVerification? || req.ForgotPassword? || req.SetActive?)
    ensures SessionStep(cfg.maxSessions, cfg.sessionDays, w, req, Handle(cfg, w, req))
  {
    hide ByEmail;
    hide ByVerification;
    hide SessionStep;
    SameSessions(cfg.maxSessions, cfg.sessionDays, w, req, Handle(cfg, w, req));
  }

  lemma ResetSessions(cfg: Settings, w: World, req: Request)
    requires Earlier(w) && req.ResetPassword?
    ensures SessionStep(cfg.maxSessions, cfg.sessionDays, w, req, Handle(cfg, w, req))
  {
    hide ByReset;
    hide Acceptable;
    hide RevokeFamiliesOf;
    hide SessionStep;
    SameSessions(cfg.maxSessions, cfg.sessionDays, w, req, Handle(cfg, w, req));
  }

  lemma RefreshSessions(cfg: Settings, w: World, req: Request)
    requires Earlier(w) && req.RefreshTokens?
    ensures SessionStep(cfg.maxSessions, cfg.sessionDays, w, req, Handle(cfg, w, req))
  {
    hide Refuse;
    hide SessionStep;
    RefuseFrame(w, 401, RefreshFailure, None, None);
    RefuseFrame(w, 401, RefreshFailure, req.token.sub, None);
    RefuseFrame(w, 401, RefreshFailure, req.token.sub, req.token.family);
    SameSessions(cfg.maxSessions, cfg.sessionDays, w, req, Handle(cfg, w, req));
  }

  lemma MfaSessions(cfg: Settings, w: World, req: Request)
    requires Earlier(w) && (req.SetupMfa? || req.VerifyMfaSetup? || req.DisableMfa?)
    ensures SessionStep(cfg.maxSessions, cfg.sessionDays, w, req, Handle(cfg, w, req))
  {
    hide CurrentActiveUser;
    hide SessionStep;
    SameSessions(cfg.maxSessions, cfg.sessionDays, w, req, Handle(cfg, w, req));
  }

  lemma StepSessions(cfg: Settings, w: World, req: Request)
    requires Earlier(w)
    ensures SessionStep(cfg.maxSessions, cfg.sessionDays, w, req, Handle(cfg, w, req))
  {
    match req
    case DeleteSession(_, _) => hide NewestKept;
    case RegisterUser(_, _, _) => RegisterSessions(cfg, w, req); hide Handle; hide SessionStep;
    case LoginUser(_, _, _) => LoginSessions(cfg, w, req); hide Handle; hide SessionStep;
    case VerifyMfaChallenge(_, _) => ChallengeSessions(cfg, w, req); hide Handle; hide SessionStep;
    case RefreshTokens(_) => RefreshSessions(cfg, w, req); hide Handle; hide SessionStep;
    case ResetPassword(_, _, _) => ResetSessions(cfg, w, req); hide Handle; hide SessionStep;
    case SetupMfa(_) => MfaSessions(cfg, w, req); hide Handle; hide SessionStep;
    case VerifyMfaSetup(_, _) => MfaSessions(cfg, w, req); hide Handle; hide SessionStep;
    case DisableMfa(_, _) => MfaSessions(cfg, w, req); hide Handle; hide SessionStep;
    case _ => MailSessions(cfg, w, req); hide Handle; hide SessionStep;
  }

  // ---- Every run ----

  lemma SoundAfter(cap: Positive, days: int, w: World, req: Request, r: Result)
    requires SessionsSound(cap, w) && SessionStep(cap, days, w, req, r) && w.clock <= r.world.clock
    ensures SessionsSound(cap, r.world)
  {
    hide OwnedBy;
    hide KeepsNewest;
    hide WithinCap;
    var rows, after := w.db.sessions, r.world.db.sessions;
    if r.reply.Returned? && r.reply.body.SignedIn? {
      var user := r.reply.body.user;
      var row := Session(user, w.clock, w.clock + days * 86400 * 1_000_000);
      var id: Uuid :| id !in rows && id in after
        && KeepsNewest(rows[id := row], after, user, cap);
      KeptRows(rows[id := row], after, user, cap);
      WithinCapCreate(rows, after, id, row, cap);
    } else if req.DeleteSession? && r.reply.Returned? {
      WithinCapDelete(cap, rows, req.session);
    }
  }

  lemma {:induction false} RunSessions(cfg: Settings, events: seq<Event>)
    ensures SessionsSound(cfg.maxSessions, Run(cfg, BOOT, events).world)
  {
    hide Handle;
    hide SessionStep;
    hide WithinCap;
    if events == [] {
      BootSessions(cfg.maxSessions);
    } else {
      var before, e := events[..|events| - 1], events[|events| - 1];
      RunSessions(cfg, before);
      var w := Tick(Run(cfg, BOOT, before).world, e.delay);
      StepSessions(cfg, w, e.request);
      LoginRate.ClockStep(cfg, w, e.request);
      SoundAfter(cfg.maxSessions, cfg.sessionDays, w, e.request, Handle(cfg, w, e.request));
    }
  }

  lemma BootSessions(cap: Positive)
    ensures SessionsSound(cap, START)
  {
    hide WithinCap;
    EmptyBalanced(cap);
  }

  // ---- The books ----

  /** The books of a run, kept by watching the committed table: what appears, and what goes by revocation or else. */
  function Books(cfg: Settings, events: seq<Event>): Ledger {
    if events == [] then EMPTY
    else
      var before, e := events[..|events| - 1], events[|events| - 1];
      var l, w := Books(cfg, before), Run(cfg, BOOT, events).world;
      var gone := l.rows.Keys - w.db.sessions.Keys;
      Ledger(w.db.sessions, l.created + (w.db.sessions - l.rows.Keys),
             if e.request.DeleteSession? then l.pruned else l.pruned + gone,
             if e.request.DeleteSession? then l.revoked + gone else l.revoked, w.nextId, w.clock)
  }

  lemma BooksOf(cfg: Settings, events: seq<Event>)
    ensures var w := Run(cfg, BOOT, events).world;
            Books(cfg, events).rows == w.db.sessions && Books(cfg, events).nextId == w.nextId
            && Books(cfg, events).clock == w.clock
  {
    hide Extend;
  }

  lemma BooksOpened(cap: Positive, days: int, l: Ledger, l': Ledger, user: Uuid, now: Time)
    requires Balanced(cap, l) && NewestKept(cap, days, l.rows, l'.rows, user, now)
    requires forall s | s in l'.rows :: s < l'.nextId && (s in l.rows || l.nextId <= s)
    requires l.clock < now == l'.clock && l'.revoked == l.revoked
    requires l'.created == l.created + (l'.rows - l.rows.Keys)
    requires l'.pruned == l.pruned + (l.rows.Keys - l'.rows.Keys)
    ensures Balanced(cap, l')
  {
    hide OwnedBy;
    hide KeepsNewest;
    hide Balanced;
    var row := Session(user, now, now + days * 86400 * 1_000_000);
    var id: Uuid :| id !in l.rows && id in l'.rows
      && KeepsNewest(l.rows[id := row], l'.rows, user, cap);
    KeptRows(l.rows[id := row], l'.rows, user, cap);
    assert l'.rows - l.rows.Keys == map[id := row];
    assert l.created + map[id := row] == l.created[id := row];
    OpenBalanced(cap, l, l', id, row);
  }

  lemma BooksStep(cap: Positive, days: int, l: Ledger, l': Ledger, w: World, req: Request, r: Result)
    requires Balanced(cap, l) && SessionStep(cap, days, w, req, r)
    requires l.rows == w.db.sessions && l.nextId == w.nextId && l.clock < w.clock == r.world.clock
    requires l'.rows == r.world.db.sessions && l'.nextId == r.world.nextId && l'.clock == r.world.clock
    requires l'.created == l.created + (l'.rows - l.rows.Keys)
    requires l'.pruned == if req.DeleteSession? then l.pruned else l.pruned + (l.rows.Keys - l'.rows.Keys)
    requires l'.revoked == if req.DeleteSession? then l.revoked + (l.rows.Keys - l'.rows.Keys) else l.revoked
    requires req.DeleteSession? && r.reply.Returned? ==> !r.reply.body.SignedIn?
    ensures Balanced(cap, l')
  {
    hide NewestKept;
    hide Balanced;
    if r.reply.Returned? && r.reply.body.SignedIn? {
      BooksOpened(cap, days, l, l', r.reply.body.user, w.clock);
    } else if req.DeleteSession? && r.reply.Returned? {
      assert l.rows.Keys - l'.rows.Keys == {req.session};
      assert l'.rows - l.rows.Keys == map[];
      RevokeBalanced(cap, l, l', req.session);
    } else {
      assert l'.rows - l.rows.Keys == map[] && l.rows.Keys - l'.rows.Keys == {};
      StillBalanced(cap, l, l');
    }
  }

  lemma DeletionAnswer(w: World, req: Request, cfg: Settings)
    requires req.DeleteSession? && Handle(cfg, w, req).reply.Returned?
    ensures !Handle(cfg, w, req).reply.body.SignedIn?
  {
    hide CurrentActiveUser;
  }

  // ---- Main results ----

  /**
   In every run of the service live, pruned and revoked sessions partition the created ones, nobody is over the
   cap, and every pruned session is older than its owner's live ones.
   */
  lemma {:induction false} SessionBooks(cfg: Settings, events: seq<Event>)
    ensures Books(cfg, events).rows == Run(cfg, BOOT, events).world.db.sessions
    ensures Balanced(cfg.maxSessions, Books(cfg, events))
  {
    hide Handle;
    hide SessionStep;
    hide Balanced;
    hide SessionsSound;
    BooksOf(cfg, events);
    if events == [] {
      EmptyBalanced(cfg.maxSessions);
    } else {
      var before, e := events[..|events| - 1], events[|events| - 1];
      var w := Tick(Run(cfg, BOOT, before).world, e.delay);
      SessionBooks(cfg, before);
      BooksOf(cfg, before);
      RequestsAndSessions(cfg, before, e);
      LoginRate.ClockStep(cfg, w, e.request);
      if e.request.DeleteSession? && Handle(cfg, w, e.request).reply.Returned? {
        DeletionAnswer(w, e.request, cfg);
      }
      BooksStep(cfg.maxSessions, cfg.sessionDays, Books(cfg, before), Books(cfg, events), w, e.request,
        Handle(cfg, w, e.request));
    }
  }

  /** In every run no user has more live sessions than the cap. */
  lemma NeverOverCap(cfg: Settings, events: seq<Event>, owner: Uuid)
    ensures |OwnedBy(Run(cfg, BOOT, events).world.db.sessions, owner)| <= cfg.maxSessions
  {
    hide Run;
    hide OwnedBy;
    RunSessions(cfg, events);
  }

  /**
   What every request of every run does to the sessions: a sign-in adds one and keeps exactly the newest of
   that user's; a revocation removes one of the caller's own; nothing else touches them.
   */
  lemma {:induction false} RequestsAndSessions(cfg: Settings, events: seq<Event>, e: Event)
    ensures var w := Tick(Run(cfg, BOOT, events).world, e.delay);
            SessionStep(cfg.maxSessions, cfg.sessionDays, w, e.request, Handle(cfg, w, e.request))
  {
    hide Run;
    hide Handle;
    hide SessionStep;
    RunSessions(cfg, events);
    StepSessions(cfg, Tick(Run(cfg, BOOT, events).world, e.delay), e.request);
  }

  /**
   In every run a session is revoked exactly when it is one of the caller's own and still stored; any other id is
   answered 404 and leaves everything as it was.
   */
  lemma {:induction false} RevokeAnswer(cfg: Settings, events: seq<Event>, delay: nat, token: Claims, u: Uuid,
          session: Uuid)
    requires CallsAs(cfg, events, delay, token, u)
    ensures var w := Tick(Run(cfg, BOOT, events).world, delay);
            var r := Handle(cfg, w, DeleteSession(token, session));
            if session in w.db.sessions && w.db.sessions[session].owner == u
            then r.reply == Returned(Done) && r.world.db.sessions == w.db.sessions - {session}
            else r == Result(w, Raised(404))
  {
    hide Run;
    hide CurrentActiveUser;
  }
}
