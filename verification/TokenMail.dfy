/**
 What was mailed and what is stored, over every run (app/services/auth_service.py:85-92, 120-178 and 270-359):
 a stored one-time token is that of the last mail of its kind to its user.
 */
module TokenMail {
  import opened Prelude
  import opened Text
  import opened PasswordPolicy
  import opened AuthState
  import opened AuthSpec
  import opened Accounts

  /** The most recent mail of a kind to an address. */
  function LastMail(mail: seq<Mail>, kind: MailKind, email: string): Option<Mail> {
    if mail == [] then None
    else
      var m := mail[|mail| - 1];
      if m.kind == kind && m.email == email then Some(m) else LastMail(mail[..|mail| - 1], kind, email)
  }

  ghost predicate UserMailed(mail: seq<Mail>, user: User) {
    && (user.verification.Some? ==>
          var m := LastMail(mail, VerifyMail, user.email);
          m.Some? && user.verification == Some(Sha256(m.value.token)))
    && (user.reset.Some? ==>
          var m := LastMail(mail, ResetMail, user.email);
          && m.Some? && user.reset == Some(Sha256(m.value.token))
          && user.resetExpires == Some(m.value.at + 30 * 60 * 1_000_000))
  }

  /** A stored one-time token is that of the last mail of its kind to its user. */
  ghost predicate AllMailed(w: World) {
    forall u | u in w.db.users :: UserMailed(w.mail, w.db.users[u])
  }

  lemma MailAppended(mail: seq<Mail>, m: Mail, kind: MailKind, email: string)
    ensures LastMail(mail + [m], kind, email)
            == if m.kind == kind && m.email == email then Some(m) else LastMail(mail, kind, email)
  {
    assert (mail + [m])[..|mail|] == mail;
  }

  /** Mail to one user leaves every other user as they were. */
  lemma OthersMailed(w: World, u: Uuid, m: Mail, v: Uuid)
    requires AllMailed(w) && v in w.db.users && w.db.users[v].email != m.email
    ensures UserMailed(w.mail + [m], w.db.users[v])
  {
    MailAppended(w.mail, m, VerifyMail, w.db.users[v].email);
    MailAppended(w.mail, m, ResetMail, w.db.users[v].email);
  }

  lemma MailedTo(w: World, w': World, u: Uuid, user: User, m: Mail)
    requires AllMailed(w) && UsersSound(w.db.users, w.nextId)
    requires w'.db.users == w.db.users[u := user] && w'.mail == w.mail + [m]
    requires UserMailed(w'.mail, user)
    requires forall v | v in w.db.users && v != u :: w.db.users[v].email != m.email
    ensures AllMailed(w')
  {
    hide UserMailed;
    forall v | v in w'.db.users && v != u ensures UserMailed(w'.mail, w'.db.users[v]) {
      OthersMailed(w, u, m, v);
    }
  }

  lemma RegisterMailed(cfg: Settings, w: World, email: string, password: string, breached: bool)
    requires AllMailed(w) && UsersSound(w.db.users, w.nextId)
    ensures AllMailed(Register(cfg, w, email, password, breached).world)
  {
    hide SignIn;
    hide ByEmail;
    hide Acceptable;
    hide AllMailed;
    hide UsersSound;
    var normalized := Lower(email);
    if ByEmail(w.db, email) == NoRow && Acceptable(password, normalized, breached) {
      var w1 := WithNewUser(w, normalized, password);
      SignInFrame(cfg, w1, w.nextId, Registered);
      var m := Mail(VerifyMail, normalized, w.nextId + 1, w.clock);
      MailAppended(w.mail, m, VerifyMail, normalized);
      MailedTo(w, w1, w.nextId, w1.db.users[w.nextId], m);
      SameMailed(w1, SignIn(cfg, w1, w.nextId, Registered).world);
    }
  }

  lemma SameMailed(w: World, w': World)
    requires AllMailed(w) && w'.db.users == w.db.users && w'.mail == w.mail
    ensures AllMailed(w')
  {
  }

  lemma EmailsDiffer(w: World, u: Uuid, v: Uuid)
    requires UsersSound(w.db.users, w.nextId) && u in w.db.users && v in w.db.users && u != v
    ensures w.db.users[v].email != w.db.users[u].email
  {
    hide UserSound;
    assert Distinguishable(w.db.users[u], w.db.users[v]);
  }

  lemma ResendMailed(w: World, email: string)
    requires AllMailed(w) && UsersSound(w.db.users, w.nextId)
    ensures AllMailed(Resend(w, email).world)
  {
    hide ByEmail;
    hide AllMailed;
    hide UsersSound;
    match ByEmail(w.db, email)
    case OneRow(u) =>
      if w.db.users[u].verified {
      } else {
        var m := Mail(VerifyMail, Lower(email), w.nextId, w.clock);
        var user := w.db.users[u].(verification := Some(Sha256(w.nextId)));
        MailAppended(w.mail, m, VerifyMail, user.email);
        MailAppended(w.mail, m, ResetMail, user.email);
        Mailed(w, u);
        forall v | v in w.db.users && v != u ensures w.db.users[v].email != m.email {
          EmailsDiffer(w, u, v);
        }
        MailedTo(w, Resend(w, email).world, u, user, m);
      }
    case _ =>
  }

  lemma Mailed(w: World, u: Uuid)
    requires AllMailed(w) && u in w.db.users
    ensures UserMailed(w.mail, w.db.users[u])
  {
  }

  lemma ForgotMailed(w: World, email: string)
    requires AllMailed(w) && UsersSound(w.db.users, w.nextId)
    ensures AllMailed(Forgot(w, email).world)
  {
    hide ByEmail;
    hide AllMailed;
    hide UsersSound;
    match ByEmail(w.db, email)
    case OneRow(u) =>
      if w.db.users[u].active {
        var m := Mail(ResetMail, Lower(email), w.nextId, w.clock);
        var user := w.db.users[u].(reset := Some(Sha256(w.nextId)), resetExpires := Some(w.clock + RESET_LIFETIME));
        MailAppended(w.mail, m, VerifyMail, user.email);
        MailAppended(w.mail, m, ResetMail, user.email);
        Mailed(w, u);
        forall v | v in w.db.users && v != u ensures w.db.users[v].email != m.email {
          EmailsDiffer(w, u, v);
        }
        MailedTo(w, Forgot(w, email).world, u, user, m);
      }
    case _ =>
  }

  /** A user who keeps or drops their tokens, with no mail sent. */
  lemma UsedMailed(w: World, w': World, u: Uuid, user: User)
    requires AllMailed(w) && u in w.db.users && w'.db.users == w.db.users[u := user] && w'.mail == w.mail
    requires user.email == w.db.users[u].email
    requires user.verification == w.db.users[u].verification || user.verification == None
    requires (user.reset == w.db.users[u].reset && user.resetExpires == w.db.users[u].resetExpires)
             || user.reset == None
    ensures AllMailed(w')
  {
    hide LastMail;
    forall v | v in w'.db.users ensures UserMailed(w'.mail, w'.db.users[v]) {
      Mailed(w, v);
    }
  }

  lemma VerifyMailed(w: World, token: Uuid)
    requires AllMailed(w)
    ensures AllMailed(Verify(w, token).world)
  {
    hide ByVerification;
    hide AllMailed;
    var w' := Verify(w, token).world;
    match ByVerification(w.db, token)
    case OneRow(u) => UsedMailed(w, w', u, w'.db.users[u]);
    case _ => SameMailed(w, w');
  }

  lemma ResetMailed(w: World, token: Uuid, password: string, breached: bool)
    requires AllMailed(w)
    ensures AllMailed(Reset(w, token, password, breached).world)
  {
    hide ByReset;
    hide Acceptable;
    hide AllMailed;
    hide RevokeFamiliesOf;
    var w' := Reset(w, token, password, breached).world;
    match ByReset(w.db, token)
    case OneRow(u) =>
      if w'.db.users == w.db.users {
        SameMailed(w, w');
      } else {
        UsedMailed(w, w', u, w'.db.users[u]);
      }
    case _ => SameMailed(w, w');
  }

  lemma MailStep(cfg: Settings, w: World, req: Request)
    requires AllMailed(w) && UsersSound(w.db.users, w.nextId)
    ensures AllMailed(Handle(cfg, w, req).world)
  {
    hide AllMailed;
    hide UsersSound;
    match req
    case RegisterUser(email, password, breached) => RegisterMailed(cfg, w, email, password, breached);
    case VerifyEmail(mailed) => VerifyMailed(w, mailed);
    case ResendVerification(email) => ResendMailed(w, email);
    case ForgotPassword(email) => ForgotMailed(w, email);
    case ResetPassword(mailed, password, breached) => ResetMailed(w, mailed, password, breached);
    case SetActive(u, active) =>
      if u in w.db.users {
        UsedMailed(w, SetActivity(w, u, active).world, u, w.db.users[u].(active := active));
      }
    case LoginUser(_, _, _) => MailQuiet(cfg, w, req);
    case VerifyMfaChallenge(_, _) => MailQuiet(cfg, w, req);
    case RefreshTokens(_) => MailQuiet(cfg, w, req);
    case _ => MailQuiet(cfg, w, req);
  }

  lemma MailQuiet(cfg: Settings, w: World, req: Request)
    requires AllMailed(w)
    requires req.LoginUser? || req.VerifyMfaChallenge? || req.RefreshTokens?
             || req.SetupMfa? || req.VerifyMfaSetup? || req.DisableMfa? || req.DeleteSession?
    ensures AllMailed(Handle(cfg, w, req).world)
  {
    hide Handle;
    hide AllMailed;
    if req.LoginUser? || req.VerifyMfaChallenge? || req.RefreshTokens? {
      ExchangeFrame(cfg, w, req);
    } else {
      CallerFrame(cfg, w, req);
    }
    SameMailed(w, Handle(cfg, w, req).world);
  }

  lemma {:induction false} RunMailed(cfg: Settings, events: seq<Event>)
    ensures AllMailed(Run(cfg, BOOT, events).world)
  {
    hide AllMailed;
    hide Handle;
    hide AccountsSound;
    if events == [] {
      NobodyMailed();
    } else {
      var t, e := Run(cfg, BOOT, events[..|events| - 1]), events[|events| - 1];
      RunMailed(cfg, events[..|events| - 1]);
      NoServerError(cfg, events[..|events| - 1]);
      UsersOf(t.world, e.delay);
      SameMailed(t.world, Tick(t.world, e.delay));
      MailStep(cfg, Tick(t.world, e.delay), e.request);
    }
  }

  lemma NobodyMailed()
    ensures AllMailed(START)
  {
  }

  lemma UsersOf(w: World, delay: nat)
    requires AccountsSound(w)
    ensures UsersSound(Tick(w, delay).db.users, Tick(w, delay).nextId)
  {
  }

  /**
   Asking for a reset or for another verification mail is answered alike for every address, in every run. A
   mail goes out, to that address, exactly when it belongs to an active, or to an unverified, user.
   */
  lemma {:induction false} MailRequestsTellNothing(cfg: Settings, events: seq<Event>, e: Event)
    requires e.request.ForgotPassword? || e.request.ResendVerification?
    ensures var w := Run(cfg, BOOT, events).world;
            var r := Step(cfg, w, e);
            var email := Lower(e.request.email);
            var kind := if e.request.ForgotPassword? then ResetMail else VerifyMail;
            && r.reply == Returned(Done)
            && (r.world == Tick(w, e.delay)
                || r.world.mail == w.mail + [Mail(kind, email, w.nextId, r.world.clock)])
            && (r.world.mail != w.mail <==>
                  exists u | u in w.db.users && w.db.users[u].email == email ::
                    if e.request.ForgotPassword? then w.db.users[u].active else !w.db.users[u].verified)
  {
    hide Run;
    hide ByEmail;
    hide UsersSound;
    hide ReferencesSound;
    var w := Run(cfg, BOOT, events).world;
    NoServerError(cfg, events);
    UsersOf(w, e.delay);
    EmailUnique(Tick(w, e.delay), e.request.email);
  }
}
