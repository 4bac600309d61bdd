/**
 Who is a user, under which address, and whether active, in every run and from the transcript alone
 (app/services/auth_service.py:59-110; no service of the repository writes `is_active`).
 */
module UserStates {
  import opened Prelude
  import opened Text
  import opened PasswordPolicy
  import opened AuthState
  import opened AuthSpec
  import opened Accounts

  // ---- What the transcript says ----

  /** A registration of this address, in any case, was answered with this user. */
  predicate Registers(x: Exchange, u: Uuid, email: string) {
    && x.request.RegisterUser? && Lower(x.request.email) == email
    && x.reply.Returned? && x.reply.body.SignedIn? && x.reply.body.user == u
  }

  ghost predicate RegisteredAs(log: seq<Exchange>, u: Uuid, email: string) {
    exists x | x in log :: Registers(x, u, email)
  }

  /** Active from the registration on, until an administrator says otherwise. */
  predicate ActiveIn(log: seq<Exchange>, u: Uuid) {
    if log == [] then true
    else
      var x := log[|log| - 1];
      if x.request.SetActive? && x.request.user == u then x.request.active
      else if Registers(x, u, if x.request.RegisterUser? then Lower(x.request.email) else "") then true
      else ActiveIn(log[..|log| - 1], u)
  }

  predicate Named(db: Db, u: Uuid, email: string) {
    u in db.users && db.users[u].email == email
  }

  ghost predicate UsersKnown(t: Trace) {
    && (forall u, email :: Named(t.world.db, u, email) <==> RegisteredAs(t.log, u, email))
    && forall u | u in t.world.db.users :: t.world.db.users[u].active == ActiveIn(t.log, u)
  }

  // ---- One request ----

  /** The token is the one that verifies this user, and was taken. */
  predicate Verifies(w: World, req: Request, r: Result, u: Uuid)
    requires u in w.db.users
  {
    req.VerifyEmail? && r.reply.Returned? && w.db.users[u].verification == Some(Sha256(req.mailed))
  }

  /** No user goes; nobody's address changes; only an administrator changes `active`, only a token `verified`. */
  ghost predicate UserKept(w: World, req: Request, r: Result, u: Uuid)
    requires u in w.db.users
  {
    && u in r.world.db.users
    && var user, user' := w.db.users[u], r.world.db.users[u];
       && user'.email == user.email
       && user'.active == (if req.SetActive? && req.user == u then req.active else user.active)
       && user'.verified == (user.verified || Verifies(w, req, r, u))
  }

  /** A new user is the one that a registration answers with: active and not verified. */
  ghost predicate UserNew(w: World, req: Request, r: Result, u: Uuid)
    requires u in r.world.db.users
  {
    var user := r.world.db.users[u];
    && Registers(Exchange(w.clock, req, r.reply), u, user.email)
    && user.active && !user.verified
  }

  ghost predicate UserStep(w: World, req: Request, r: Result) {
    && (forall u | u in w.db.users :: UserKept(w, req, r, u))
    && (forall u | u in r.world.db.users && u !in w.db.users :: UserNew(w, req, r, u))
    && (req.RegisterUser? && r.reply.Returned? ==>
          r.reply.body.SignedIn? && r.reply.body.user in r.world.db.users && r.reply.body.user !in w.db.users)
  }

  lemma SameUsers(w: World, req: Request, r: Result)
    requires r.world.db.users == w.db.users && (r.reply.Raised? || (!req.VerifyEmail? && !req.RegisterUser?))
    requires !req.SetActive?
    ensures UserStep(w, req, r)
  {
  }

  lemma RegisterStep(cfg: Settings, w: World, req: Request)
    requires req.RegisterUser? && UsersSound(w.db.users, w.nextId)
    ensures UserStep(w, req, Handle(cfg, w, req))
  {
    hide SignIn;
    hide ByEmail;
    hide Acceptable;
    hide UserSound;
    hide Distinguishable;
    SignInFrame(cfg, WithNewUser(w, Lower(req.email), req.password), w.nextId, Registered);
    SignInAnswers(cfg, WithNewUser(w, Lower(req.email), req.password), w.nextId, Registered);
  }

  lemma VerifyStep(cfg: Settings, w: World, req: Request)
    requires req.VerifyEmail? && UsersSound(w.db.users, w.nextId)
    ensures UserStep(w, req, Handle(cfg, w, req))
  {
    VerificationUnique(w, req.mailed);
    hide ByVerification;
    hide UsersSound;
    hide Refuse;
    RefuseFrame(w, 400, VerificationFailure, None, None);
  }

  lemma MailStep(cfg: Settings, w: World, req: Request)
    requires req.ResendVerification? || req.ForgotPassword? || req.SetActive?
    ensures UserStep(w, req, Handle(cfg, w, req))
  {
    hide ByEmail;
  }

  lemma ResetStep(cfg: Settings, w: World, req: Request)
    requires req.ResetPassword?
    ensures UserStep(w, req, Handle(cfg, w, req))
  {
    hide ByReset;
    hide Acceptable;
    hide RevokeFamiliesOf;
  }

  lemma StepUsers(cfg: Settings, w: World, req: Request)
    requires UsersSound(w.db.users, w.nextId)
    ensures UserStep(w, req, Handle(cfg, w, req))
  {
    hide Handle;
    hide UserStep;
    hide UsersSound;
    match req
    case RegisterUser(_, _, _) => RegisterStep(cfg, w, req);
    case VerifyEmail(_) => VerifyStep(cfg, w, req);
    case ResendVerification(_) => MailStep(cfg, w, req);
    case ForgotPassword(_) => MailStep(cfg, w, req);
    case SetActive(_, _) => MailStep(cfg, w, req);
    case ResetPassword(_, _, _) => ResetStep(cfg, w, req);
    case LoginUser(_, _, _) => ExchangeFrame(cfg, w, req); SameUsers(w, req, Handle(cfg, w, req));
    case VerifyMfaChallenge(_, _) => ExchangeFrame(cfg, w, req); SameUsers(w, req, Handle(cfg, w, req));
    case RefreshTokens(_) => ExchangeFrame(cfg, w, req); SameUsers(w, req, Handle(cfg, w, req));
    case _ => CallerFrame(cfg, w, req); SameUsers(w, req, Handle(cfg, w, req));
  }

  // ---- Every run ----

  lemma RegisteredAppend(log: seq<Exchange>, x: Exchange, u: Uuid, email: string)
    ensures RegisteredAs(log + [x], u, email) <==> RegisteredAs(log, u, email) || Registers(x, u, email)
  {
    hide Registers;
    if y :| y in log && Registers(y, u, email) {
      assert y in log + [x];
    }
    assert x in log + [x];
  }

  lemma ActiveAppend(log: seq<Exchange>, x: Exchange, u: Uuid)
    ensures ActiveIn(log + [x], u)
            <==> if x.request.SetActive? && x.request.user == u then x.request.active
                 else if Registers(x, u, if x.request.RegisterUser? then Lower(x.request.email) else "") then true
                 else ActiveIn(log, u)
  {
    assert (log + [x])[..|log|] == log;
  }

  lemma KnownStep(t: Trace, w: World, r: Result, x: Exchange)
    requires UsersKnown(t) && w.db.users == t.world.db.users
    requires UserStep(w, x.request, r) && x.reply == r.reply
    ensures UsersKnown(Trace(r.world, t.log + [x]))
  {
    hide RegisteredAs;
    hide ActiveIn;
    hide Lower;
    forall u, email ensures Named(r.world.db, u, email) <==> RegisteredAs(t.log + [x], u, email) {
      RegisteredAppend(t.log, x, u, email);
      assert Named(t.world.db, u, email) <==> RegisteredAs(t.log, u, email);
    }
    forall u | u in r.world.db.users ensures r.world.db.users[u].active == ActiveIn(t.log + [x], u) {
      ActiveAppend(t.log, x, u);
    }
  }

  /**
   In every run the users are those that registrations were answered with, under the address registered, and each
   is active unless an administrator last said otherwise.
   */
  lemma {:induction false} RunUsers(cfg: Settings, events: seq<Event>)
    ensures UsersKnown(Run(cfg, BOOT, events))
  {
    hide Handle;
    hide UsersKnown;
    hide UserStep;
    hide UsersSound;
    hide ReferencesSound;
    if events == [] {
      BootUsers();
    } else {
      var before, e := events[..|events| - 1], events[|events| - 1];
      var t := Run(cfg, BOOT, before);
      var w := Tick(t.world, e.delay);
      RunUsers(cfg, before);
      NoServerError(cfg, before);
      StepUsers(cfg, w, e.request);
      KnownStep(t, w, Handle(cfg, w, e.request), Exchange(w.clock, e.request, Handle(cfg, w, e.request).reply));
    }
  }

  lemma BootUsers()
    ensures UsersKnown(BOOT)
  {
  }

  /**
   What every request of every run does to the users: none goes, no address changes, only an administrator's change
   sets `active`, only a taken token sets `verified`, and a new one is active and not verified.
   */
  lemma {:induction false} RequestsAndUsers(cfg: Settings, events: seq<Event>, e: Event)
    ensures UserStep(Tick(Run(cfg, BOOT, events).world, e.delay), e.request,
                     Step(cfg, Run(cfg, BOOT, events).world, e))
  {
    hide Run;
    hide Handle;
    hide UserStep;
    hide UsersSound;
    hide ReferencesSound;
    NoServerError(cfg, events);
    StepUsers(cfg, Tick(Run(cfg, BOOT, events).world, e.delay), e.request);
  }
}
