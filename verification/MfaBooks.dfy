/**
 What the three MFA calls of a signed-in user answer (app/services/mfa_service.py:12-108), told from what clients
 were answered before: who has a secret, which one, and whether MFA is on.
 */
module MfaBooks {
  import opened Prelude
  import opened Text
  import opened PasswordPolicy
  import opened AuthState
  import opened AuthSpec
  import opened Accounts
  import opened Callers

  // ---- What the transcript says ----

  predicate SetUp(x: Exchange, u: Uuid, secret: Uuid) {
    x.request.SetupMfa? && x.request.token.sub == Some(u) && x.reply == Returned(MfaSecret(secret, false))
  }

  /** A setup call handed this secret to the user. */
  ghost predicate Began(log: seq<Exchange>, u: Uuid, secret: Uuid) {
    exists x | x in log :: SetUp(x, u, secret)
  }

  /** The last answered switch of the user's MFA was the one that turns it on. */
  predicate IsOn(log: seq<Exchange>, u: Uuid) {
    if log == [] then false
    else
      var x := log[|log| - 1];
      if x.request.VerifyMfaSetup? && x.request.token.sub == Some(u) && x.reply.Returned? then true
      else if x.request.DisableMfa? && x.request.token.sub == Some(u) && x.reply.Returned? then false
      else IsOn(log[..|log| - 1], u)
  }

  /** The stored configurations are what the transcript says. */
  ghost predicate Booked(t: Trace) {
    && (forall u, secret :: Holds(t.world.db, u, secret) <==> Began(t.log, u, secret))
    && (forall u :: MfaIsEnabled(t.world.db, u) <==> IsOn(t.log, u))
    && forall u | u in t.world.db.mfa :: t.world.db.mfa[u].secret < t.world.nextId
  }

  predicate Holds(db: Db, u: Uuid, secret: Uuid) {
    u in db.mfa && db.mfa[u].secret == secret
  }

  // ---- One request ----

  /** What a request does to the configurations, by its answer. */
  ghost predicate MfaStep(w: World, req: Request, r: Result) {
    var mfa, mfa' := w.db.mfa, r.world.db.mfa;
    && w.nextId <= r.world.nextId
    && if !r.reply.Returned? then mfa' == mfa
       else match req
         case SetupMfa(token) =>
           && token.sub.Some? && r.reply.body.MfaSecret? && !r.reply.body.enabled
           && var u, secret := token.sub.value, r.reply.body.secret;
              && !MfaIsEnabled(w.db, u) && mfa' == mfa[u := MfaConfig(secret, false)]
              && if u in mfa then secret == mfa[u].secret else w.nextId <= secret < r.world.nextId
         case VerifyMfaSetup(token, _) =>
           && token.sub.Some? && token.sub.value in mfa && r.reply.body == MfaStatus(true)
           && mfa' == mfa[token.sub.value := mfa[token.sub.value].(enabled := true)]
         case DisableMfa(token, _) =>
           && token.sub.Some? && token.sub.value in mfa && r.reply.body == MfaStatus(false)
           && mfa' == mfa[token.sub.value := mfa[token.sub.value].(enabled := false)]
         case _ => mfa' == mfa
  }

  lemma AccountKeepsMfa(cfg: Settings, w: World, req: Request)
    requires req.RegisterUser? || req.VerifyEmail? || req.ResendVerification? || req.ForgotPassword? ||
             req.ResetPassword? || req.SetActive?
    ensures var w' := Handle(cfg, w, req).world; w'.db.mfa == w.db.mfa && w.nextId <= w'.nextId
  {
    hide SignIn;
    hide ByEmail;
    hide ByVerification;
    hide ByReset;
    hide Acceptable;
    hide RevokeFamiliesOf;
    if req.RegisterUser? {
      SignInFrame(cfg, WithNewUser(w, Lower(req.email), req.password), w.nextId, Registered);
    }
  }

  lemma CallBooks(cfg: Settings, w: World, req: Request)
    requires req.SetupMfa? || req.VerifyMfaSetup? || req.DisableMfa? || req.DeleteSession?
    ensures MfaStep(w, req, Handle(cfg, w, req))
  {
    hide CurrentActiveUser;
  }

  lemma StepBooks(cfg: Settings, w: World, req: Request)
    ensures MfaStep(w, req, Handle(cfg, w, req))
  {
    hide Handle;
    match req
    case LoginUser(_, _, _) => ExchangeFrame(cfg, w, req);
    case VerifyMfaChallenge(_, _) => ExchangeFrame(cfg, w, req);
    case RefreshTokens(_) => ExchangeFrame(cfg, w, req);
    case SetupMfa(_) => CallBooks(cfg, w, req);
    case VerifyMfaSetup(_, _) => CallBooks(cfg, w, req);
    case DisableMfa(_, _) => CallBooks(cfg, w, req);
    case DeleteSession(_, _) => CallBooks(cfg, w, req);
    case _ => AccountKeepsMfa(cfg, w, req);
  }

  lemma BeganAppend(log: seq<Exchange>, x: Exchange, u: Uuid, secret: Uuid)
    ensures Began(log + [x], u, secret) <==> Began(log, u, secret) || SetUp(x, u, secret)
  {
    hide SetUp;
    if y :| y in log && SetUp(y, u, secret) {
      assert y in log + [x];
    }
    assert x in log + [x];
  }

  lemma IsOnAppend(log: seq<Exchange>, x: Exchange, u: Uuid)
    ensures IsOn(log + [x], u)
            <==> if x.request.VerifyMfaSetup? && x.request.token.sub == Some(u) && x.reply.Returned? then true
                 else if x.request.DisableMfa? && x.request.token.sub == Some(u) && x.reply.Returned? then false
                 else IsOn(log, u)
  {
    assert (log + [x])[..|log|] == log;
  }

  lemma BookedStep(t: Trace, w: World, r: Result, x: Exchange)
    requires Booked(t) && w.db.mfa == t.world.db.mfa && w.nextId == t.world.nextId
    requires MfaStep(w, x.request, r) && x.reply == r.reply
    ensures Booked(Trace(r.world, t.log + [x]))
  {
    hide Began;
    hide IsOn;
    forall u, secret ensures Holds(r.world.db, u, secret) <==> Began(t.log + [x], u, secret) {
      BeganAppend(t.log, x, u, secret);
    }
    forall u ensures MfaIsEnabled(r.world.db, u) <==> IsOn(t.log + [x], u) {
      IsOnAppend(t.log, x, u);
    }
  }

  /** In every run the stored secrets are those handed out, and MFA is on for whom the last switch turned it on. */
  lemma {:induction false} RunBooked(cfg: Settings, events: seq<Event>)
    ensures Booked(Run(cfg, BOOT, events))
  {
    hide Handle;
    hide Booked;
    hide MfaStep;
    if events == [] {
      BootBooked();
    } else {
      var before, e := events[..|events| - 1], events[|events| - 1];
      var t := Run(cfg, BOOT, before);
      var w := Tick(t.world, e.delay);
      RunBooked(cfg, before);
      StepBooks(cfg, w, e.request);
      BookedStep(t, w, Handle(cfg, w, e.request), Exchange(w.clock, e.request, Handle(cfg, w, e.request).reply));
    }
  }

  lemma BootBooked()
    ensures Booked(BOOT)
  {
  }

  // ---- What the calls answer ----

  /**
   In every run a setup is answered 409 exactly while MFA is on. Otherwise it hands out a secret and leaves it
   stored and switched off: the secret of the user's earlier setups, or else one that nobody was handed before.
   */
  lemma {:induction false} SetupAnswer(cfg: Settings, events: seq<Event>, delay: nat, token: Claims, u: Uuid)
    requires CallsAs(cfg, events, delay, token, u)
    ensures var t := Run(cfg, BOOT, events);
            var w := Tick(t.world, delay);
            var r := Handle(cfg, w, SetupMfa(token));
            if IsOn(t.log, u) then r == Result(w, Raised(409))
            else
              && r.reply.Returned? && r.reply.body.MfaSecret? && !r.reply.body.enabled
              && var s := r.reply.body.secret;
                 && r.world.db.mfa == w.db.mfa[u := MfaConfig(s, false)]
                 && (forall earlier | Began(t.log, u, earlier) :: s == earlier)
                 && ((forall earlier :: !Began(t.log, u, earlier)) ==> forall v :: !Began(t.log, v, s))
  {
    hide Run;
    hide Began;
    hide IsOn;
    hide CurrentActiveUser;
    RunBooked(cfg, events);
    var t := Run(cfg, BOOT, events);
    assert u in t.world.db.mfa ==> Holds(t.world.db, u, t.world.db.mfa[u].secret);
  }

  /** In every run: 404 before any setup; on when it is on or the code is valid for the secret; 400 otherwise. */
  lemma {:induction false} VerifyAnswer(cfg: Settings, events: seq<Event>, delay: nat, token: Claims, code: string,
          u: Uuid)
    requires CallsAs(cfg, events, delay, token, u)
    ensures var t := Run(cfg, BOOT, events);
            var w := Tick(t.world, delay);
            var r := Handle(cfg, w, VerifyMfaSetup(token, code));
            && ((forall s :: !Began(t.log, u, s)) ==> r == Result(w, Raised(404)))
            && forall s | Began(t.log, u, s) ::
                 if IsOn(t.log, u) || cfg.totp(s, code, w.clock)
                 then r.reply == Returned(MfaStatus(true)) && r.world.db.mfa == w.db.mfa[u := MfaConfig(s, true)]
                 else r.reply == Raised(400) && r.world.db.mfa == w.db.mfa
  {
    hide Run;
    hide Began;
    hide IsOn;
    hide CurrentActiveUser;
    RunBooked(cfg, events);
    var t := Run(cfg, BOOT, events);
    assert u in t.world.db.mfa ==> Holds(t.world.db, u, t.world.db.mfa[u].secret);
  }

  /** In every run: 404 before any setup; off when it is off or the code is valid for the secret; 400 otherwise. */
  lemma {:induction false} DisableAnswer(cfg: Settings, events: seq<Event>, delay: nat, token: Claims, code: string,
          u: Uuid)
    requires CallsAs(cfg, events, delay, token, u)
    ensures var t := Run(cfg, BOOT, events);
            var w := Tick(t.world, delay);
            var r := Handle(cfg, w, DisableMfa(token, code));
            && ((forall s :: !Began(t.log, u, s)) ==> r == Result(w, Raised(404)))
            && forall s | Began(t.log, u, s) ::
                 if !IsOn(t.log, u) || cfg.totp(s, code, w.clock)
                 then r.reply == Returned(MfaStatus(false)) && r.world.db.mfa == w.db.mfa[u := MfaConfig(s, false)]
                 else r.reply == Raised(400) && r.world.db.mfa == w.db.mfa
  {
    hide Run;
    hide Began;
    hide IsOn;
    hide CurrentActiveUser;
    RunBooked(cfg, events);
    var t := Run(cfg, BOOT, events);
    assert u in t.world.db.mfa ==> Holds(t.world.db, u, t.world.db.mfa[u].secret);
  }
}
