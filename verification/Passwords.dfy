/**
 Which password signs a user in, over every run: the last one that a registration or a reset of that
 address accepted (app/services/auth_service.py:66-88, 181-267 and 309-358, app/core/security.py:14-28).
 */
module Passwords {
  import opened Prelude
  import opened Text
  import opened PasswordPolicy
  import opened AuthState
  import opened AuthSpec
  import opened Accounts
  import opened TokenMail
  import Lockout

  // ---- What clients saw ----

  /** A reset token was mailed to this address. */
  ghost predicate SentTo(mail: seq<Mail>, email: string, token: Uuid) {
    exists m | m in mail :: m.kind == ResetMail && m.email == email && m.token == token
  }

  /** The exchange set the password of this address. */
  ghost predicate Sets(mail: seq<Mail>, email: string, x: Exchange) {
    x.reply.Returned?
    && (|| (x.request.RegisterUser? && Lower(x.request.email) == email)
        || (x.request.ResetPassword? && SentTo(mail, email, x.request.mailed)))
  }

  /** The last password accepted for an address, from what was sent and answered. */
  ghost function LastAccepted(mail: seq<Mail>, log: seq<Exchange>, email: string): Option<string> {
    if log == [] then None
    else
      var x := log[|log| - 1];
      if Sets(mail, email, x) then Some(x.request.password) else LastAccepted(mail, log[..|log| - 1], email)
  }

  // ---- Invariants ----

  ghost predicate MailSound(w: World) {
    && (forall m | m in w.mail :: m.token < w.nextId)
    && (forall m, n | m in w.mail && n in w.mail && m.token == n.token :: m == n)
  }

  /** Resets that worked used tokens already drawn. */
  ghost predicate ResetsDrawn(log: seq<Exchange>, nextId: Uuid) {
    forall x | x in log && x.request.ResetPassword? && x.reply.Returned? :: x.request.mailed < nextId
  }

  /** Every user's stored hash is of the last accepted password; an address with no user has none. */
  ghost predicate HashesCurrent(t: Trace) {
    && (forall u | u in t.world.db.users ::
          LastAccepted(t.world.mail, t.log, t.world.db.users[u].email) == Some(t.world.db.users[u].password.password))
    && (forall email | (forall u | u in t.world.db.users :: t.world.db.users[u].email != email) ::
          LastAccepted(t.world.mail, t.log, email) == None)
  }

  // ---- How a step changes passwords ----

  ghost predicate MailFrom(w: World, w': World) {
    && w.nextId <= w'.nextId
    && (w'.mail == w.mail
        || exists m :: w'.mail == w.mail + [m] && w.nextId <= m.token < w'.nextId)
  }

  ghost predicate PasswordsKept(users: map<Uuid, User>, users': map<Uuid, User>) {
    && users'.Keys == users.Keys
    && forall u | u in users :: users'[u].email == users[u].email && users'[u].password == users[u].password
  }

  /** The request that this was set the password of `u`, whose address it is. */
  ghost predicate PasswordSet(w: World, req: Request, w': World, u: Uuid) {
    && u in w'.db.users
    && w'.db.users.Keys == w.db.users.Keys + {u}
    && (forall v | v in w.db.users && v != u :: w'.db.users[v] == w.db.users[v])
    && (match req
        case RegisterUser(email, password, _) =>
          u !in w.db.users && w'.db.users[u].email == Lower(email) && w'.db.users[u].password == Bcrypt(password)
          && (forall v | v in w.db.users :: w.db.users[v].email != Lower(email))
        case ResetPassword(mailed, password, _) =>
          u in w.db.users && w.db.users[u].reset == Some(Sha256(mailed)) && w'.mail == w.mail
          && w'.db.users[u].email == w.db.users[u].email && w'.db.users[u].password == Bcrypt(password)
        case _ => false)
  }

  ghost predicate PasswordStep(w: World, req: Request, r: Result) {
    && MailFrom(w, r.world)
    && if r.reply.Returned? && (req.RegisterUser? || req.ResetPassword?)
       then exists u :: PasswordSet(w, req, r.world, u)
       else PasswordsKept(w.db.users, r.world.db.users)
  }

  lemma RegisterPasswords(cfg: Settings, w: World, email: string, password: string, breached: bool)
    requires UsersSound(w.db.users, w.nextId)
    ensures PasswordStep(w, RegisterUser(email, password, breached), Register(cfg, w, email, password, breached))
  {
    hide SignIn;
    hide ByEmail;
    hide Acceptable;
    hide UserSound;
    var w1 := WithNewUser(w, Lower(email), password);
    SignInFrame(cfg, w1, w.nextId, Registered);
    var r := Register(cfg, w, email, password, breached);
    if r.reply.Returned? {
      assert r.world.mail == w.mail + [Mail(VerifyMail, Lower(email), w.nextId + 1, w.clock)];
      assert PasswordSet(w, RegisterUser(email, password, breached), r.world, w.nextId);
    }
  }

  lemma ResetPasswords(w: World, mailed: Uuid, password: string, breached: bool)
    ensures PasswordStep(w, ResetPassword(mailed, password, breached), Reset(w, mailed, password, breached))
  {
    hide ByReset;
    hide Acceptable;
    var r := Reset(w, mailed, password, breached);
    if r.reply.Returned? {
      assert PasswordSet(w, ResetPassword(mailed, password, breached), r.world, ByReset(w.db, mailed).id);
    }
  }

  lemma MailPasswords(cfg: Settings, w: World, req: Request)
    requires req.VerifyEmail? || req.ResendVerification? || req.ForgotPassword? || req.SetActive?
    ensures PasswordStep(w, req, Handle(cfg, w, req))
  {
    hide ByEmail;
    hide ByVerification;
    var r := Handle(cfg, w, req);
    if r.world.mail != w.mail {
      assert r.world.mail == w.mail + [r.world.mail[|w.mail|]];
    }
  }

  lemma StepPasswords(cfg: Settings, w: World, req: Request)
    requires UsersSound(w.db.users, w.nextId)
    ensures PasswordStep(w, req, Handle(cfg, w, req))
  {
    hide PasswordSet;
    hide UsersSound;
    match req
    case RegisterUser(email, password, breached) => RegisterPasswords(cfg, w, email, password, breached);
    case ResetPassword(mailed, password, breached) => ResetPasswords(w, mailed, password, breached);
    case VerifyEmail(_) => MailPasswords(cfg, w, req);
    case ResendVerification(_) => MailPasswords(cfg, w, req);
    case ForgotPassword(_) => MailPasswords(cfg, w, req);
    case SetActive(_, _) => MailPasswords(cfg, w, req);
    case LoginUser(_, _, _) => ExchangeFrame(cfg, w, req); hide Handle;
    case VerifyMfaChallenge(_, _) => ExchangeFrame(cfg, w, req); hide Handle;
    case RefreshTokens(_) => ExchangeFrame(cfg, w, req); hide Handle;
    case _ => CallerFrame(cfg, w, req); hide Handle;
  }

  // ---- The invariants hold in every run ----

  lemma {:induction false} LaterMail(mail: seq<Mail>, m: Mail, log: seq<Exchange>, bound: Uuid, email: string)
    requires ResetsDrawn(log, bound) && bound <= m.token
    ensures LastAccepted(mail + [m], log, email) == LastAccepted(mail, log, email)
  {
    if log != [] {
      var n := |log| - 1;
      assert forall x | x in log[..n] :: x in log;
      LaterMail(mail, m, log[..n], bound, email);
      assert log[n] in log;
    }
  }

  lemma MailFromKeeps(w: World, w': World, log: seq<Exchange>, email: string)
    requires MailFrom(w, w') && ResetsDrawn(log, w.nextId)
    ensures LastAccepted(w'.mail, log, email) == LastAccepted(w.mail, log, email)
  {
    if w'.mail != w.mail {
      var m :| w'.mail == w.mail + [m] && w.nextId <= m.token < w'.nextId;
      LaterMail(w.mail, m, log, w.nextId, email);
    }
  }

  lemma MailSoundStep(w: World, w': World)
    requires MailSound(w) && MailFrom(w, w')
    ensures MailSound(w')
  {
  }

  lemma OneMoreExchange(mail: seq<Mail>, log: seq<Exchange>, x: Exchange, email: string)
    ensures LastAccepted(mail, log + [x], email)
            == if Sets(mail, email, x) then Some(x.request.password) else LastAccepted(mail, log, email)
  {
    assert (log + [x])[..|log|] == log;
  }

  lemma {:induction false} LastMailIn(mail: seq<Mail>, kind: MailKind, email: string)
    requires LastMail(mail, kind, email).Some?
    ensures var m := LastMail(mail, kind, email).value; m in mail && m.kind == kind && m.email == email
  {
    var n := |mail| - 1;
    if mail[n].kind == kind && mail[n].email == email {
      assert mail[n] in mail;
    } else {
      LastMailIn(mail[..n], kind, email);
    }
  }

  /** A token that works was mailed to its user's address, and to no other. */
  lemma ResetTokenSent(w: World, u: Uuid, token: Uuid, email: string)
    requires AllMailed(w) && MailSound(w) && u in w.db.users && w.db.users[u].reset == Some(Sha256(token))
    ensures token < w.nextId
    ensures SentTo(w.mail, email, token) <==> email == w.db.users[u].email
  {
    Mailed(w, u);
    LastMailIn(w.mail, ResetMail, w.db.users[u].email);
    var m := LastMail(w.mail, ResetMail, w.db.users[u].email).value;
    assert m in w.mail && m.token == token;
  }

  lemma SetsItsUser(w: World, req: Request, r: Result, u: Uuid, at: Time, email: string)
    requires AllMailed(w) && MailSound(w) && r.reply.Returned? && PasswordSet(w, req, r.world, u)
    ensures Sets(r.world.mail, email, Exchange(at, req, r.reply)) <==> email == r.world.db.users[u].email
    ensures req.ResetPassword? ==> req.mailed < w.nextId
  {
    hide SentTo;
    hide AllMailed;
    hide MailSound;
    if req.ResetPassword? {
      ResetTokenSent(w, u, req.mailed, email);
    }
  }

  lemma SetHashes(t: Trace, r: Result, x: Exchange, u: Uuid)
    requires HashesCurrent(t) && ResetsDrawn(t.log, t.world.nextId) && MailFrom(t.world, r.world)
    requires PasswordSet(t.world, x.request, r.world, u) && UsersSound(r.world.db.users, r.world.nextId)
    requires forall email :: Sets(r.world.mail, email, x) <==> email == r.world.db.users[u].email
    ensures HashesCurrent(Trace(r.world, t.log + [x]))
  {
    hide UserSound;
    hide Sets;
    hide LastAccepted;
    hide MailFrom;
    hide ResetsDrawn;
    forall email ensures LastAccepted(r.world.mail, t.log + [x], email)
                         == if email == r.world.db.users[u].email then Some(r.world.db.users[u].password.password)
                            else LastAccepted(t.world.mail, t.log, email) {
      OneMoreExchange(r.world.mail, t.log, x, email);
      MailFromKeeps(t.world, r.world, t.log, email);
    }
    OtherHashes(t, r.world, u, t.log + [x]);
  }

  lemma OtherHashes(t: Trace, w: World, u: Uuid, log: seq<Exchange>)
    requires HashesCurrent(t) && u in w.db.users && UsersSound(w.db.users, w.nextId)
    requires w.db.users.Keys == t.world.db.users.Keys + {u}
    requires forall v | v in t.world.db.users && v != u :: w.db.users[v] == t.world.db.users[v]
    requires u in t.world.db.users ==> w.db.users[u].email == t.world.db.users[u].email
    requires forall email :: LastAccepted(w.mail, log, email)
               == if email == w.db.users[u].email then Some(w.db.users[u].password.password)
                  else LastAccepted(t.world.mail, t.log, email)
    ensures HashesCurrent(Trace(w, log))
  {
    hide UserSound;
    hide LastAccepted;
    forall v | v in w.db.users && v != u ensures w.db.users[v].email != w.db.users[u].email {
      assert Distinguishable(w.db.users[v], w.db.users[u]);
    }
    forall email | forall v | v in w.db.users :: w.db.users[v].email != email
      ensures LastAccepted(w.mail, log, email) == None
    {
      assert forall v | v in t.world.db.users :: t.world.db.users[v].email != email;
    }
  }

  lemma KeptHashes(t: Trace, r: Result, x: Exchange)
    requires HashesCurrent(t) && ResetsDrawn(t.log, t.world.nextId) && MailFrom(t.world, r.world)
    requires PasswordsKept(t.world.db.users, r.world.db.users)
    requires forall email :: !Sets(r.world.mail, email, x)
    ensures HashesCurrent(Trace(r.world, t.log + [x]))
  {
    hide Sets;
    hide LastAccepted;
    hide MailFrom;
    hide ResetsDrawn;
    forall email ensures LastAccepted(r.world.mail, t.log + [x], email) == LastAccepted(t.world.mail, t.log, email) {
      OneMoreExchange(r.world.mail, t.log, x, email);
      MailFromKeeps(t.world, r.world, t.log, email);
    }
  }

  ghost predicate PasswordsSound(t: Trace) {
    HashesCurrent(t) && MailSound(t.world) && ResetsDrawn(t.log, t.world.nextId)
  }

  lemma HashesStep(t: Trace, req: Request, r: Result, x: Exchange)
    requires PasswordsSound(t) && AllMailed(t.world) && UsersSound(r.world.db.users, r.world.nextId)
    requires PasswordStep(t.world, req, r) && x.request == req && x.reply == r.reply
    ensures PasswordsSound(Trace(r.world, t.log + [x]))
  {
    hide HashesCurrent;
    hide MailSound;
    hide MailFrom;
    hide AllMailed;
    hide UsersSound;
    hide PasswordSet;
    hide PasswordsKept;
    hide SentTo;
    MailSoundStep(t.world, r.world);
    if r.reply.Returned? && (req.RegisterUser? || req.ResetPassword?) {
      var u :| PasswordSet(t.world, req, r.world, u);
      SetUserExists(t.world, req, r.world, u);
      forall email ensures Sets(r.world.mail, email, x) <==> email == r.world.db.users[u].email {
        SetsItsUser(t.world, req, r, u, x.at, email);
      }
      SetsItsUser(t.world, req, r, u, x.at, "");
      SetHashes(t, r, x, u);
    } else {
      KeptHashes(t, r, x);
    }
    DrawnLater(t, r.world, x);
  }

  lemma SetUserExists(w: World, req: Request, w': World, u: Uuid)
    requires PasswordSet(w, req, w', u)
    ensures u in w'.db.users
  {
  }

  lemma DrawnLater(t: Trace, w: World, x: Exchange)
    requires ResetsDrawn(t.log, t.world.nextId) && MailFrom(t.world, w)
    requires x.request.ResetPassword? && x.reply.Returned? ==> x.request.mailed < t.world.nextId
    ensures ResetsDrawn(t.log + [x], w.nextId)
  {
  }

  lemma TickPasswords(t: Trace, delay: nat)
    requires PasswordsSound(t)
    ensures PasswordsSound(Trace(Tick(t.world, delay), t.log))
  {
  }

  lemma BootPasswords()
    ensures PasswordsSound(BOOT)
  {
  }

  lemma {:induction false} RunPasswords(cfg: Settings, events: seq<Event>)
    ensures PasswordsSound(Run(cfg, BOOT, events))
  {
    hide PasswordsSound;
    hide PasswordStep;
    hide AllMailed;
    hide UsersSound;
    hide ReferencesSound;
    hide Handle;
    if events == [] {
      BootPasswords();
    } else {
      var before, e := events[..|events| - 1], events[|events| - 1];
      var t := Run(cfg, BOOT, before);
      var w := Tick(t.world, e.delay);
      RunPasswords(cfg, before);
      NoServerError(cfg, before);
      NoServerError(cfg, events);
      RunMailed(cfg, before);
      SameMailed(t.world, w);
      TickPasswords(t, e.delay);
      StepPasswords(cfg, w, e.request);
      HashesStep(Trace(w, t.log), e.request, Handle(cfg, w, e.request),
                 Exchange(w.clock, e.request, Handle(cfg, w, e.request).reply));
    }
  }

  // ---- Main results ----

  /** In every run exactly the last accepted password of a user's address verifies against the stored hash. */
  lemma {:induction false} LastAcceptedVerifies(cfg: Settings, events: seq<Event>, u: Uuid, password: string)
    requires u in Run(cfg, BOOT, events).world.db.users
    ensures var t := Run(cfg, BOOT, events);
            VerifyPassword(password, t.world.db.users[u].password)
            <==> LastAccepted(t.world.mail, t.log, t.world.db.users[u].email) == Some(password)
  {
    hide Run;
    hide LastAccepted;
    hide Compliant;
    hide Utf8Length;
    RunPasswords(cfg, events);
    StoredPasswordsCompliant(cfg, events, u);
  }

  lemma NoUserNoPassword(cfg: Settings, events: seq<Event>, email: string)
    requires var users := Run(cfg, BOOT, events).world.db.users; forall u | u in users :: users[u].email != email
    ensures var t := Run(cfg, BOOT, events); LastAccepted(t.world.mail, t.log, email) == None
  {
    hide Run;
    hide LastAccepted;
    RunPasswords(cfg, events);
  }

  /** A sign-in, or a challenge to sign in, of this user. */
  predicate Answers(body: Body, u: Uuid) {
    || (body.SignedIn? && body.user == u)
    || (body.MfaRequired? && body.challenge.sub == Some(u))
  }

  /** How a login is answered, in full, from what clients saw, the lockout and the active flag. */
  lemma {:induction false} LoginAnswer(cfg: Settings, events: seq<Event>, e: Event)
    requires e.request.LoginUser?
    ensures var t := Run(cfg, BOOT, events);
            var w := Tick(t.world, e.delay);
            var email := Lower(e.request.email);
            var reply := Step(cfg, t.world, e).reply;
            if Lockout.Locked(w.redis, w.clock, e.request.email, e.request.ip) then reply == Raised(423)
            else if LastAccepted(t.world.mail, t.log, email) != Some(e.request.password) then reply == Raised(401)
            else exists u | u in w.db.users && w.db.users[u].email == email ::
              if !w.db.users[u].active then reply == Raised(403)
              else reply.Returned? && Answers(reply.body, u) && (reply.body.MfaRequired? <==> MfaIsEnabled(w.db, u))
  {
    hide Run;
    hide LastAccepted;
    hide VerifyPassword;
    hide HashesCurrent;
    hide Lockout.Locked;
    var t := Run(cfg, BOOT, events);
    NoServerError(cfg, events);
    EmailUnique(t.world, e.request.email);
    match ByEmail(t.world.db, e.request.email)
    case ManyRows =>
    case NoRow => NoUserNoPassword(cfg, events, Lower(e.request.email));
    case OneRow(u) => LastAcceptedVerifies(cfg, events, u, e.request.password);
  }

  /**
   How a registration is answered, in every run: 409 exactly when the address, in any case, has had a password
   accepted before; otherwise 422 exactly when the policy rejects the password; otherwise the new user is signed in.
   */
  lemma {:induction false} RegisterAnswer(cfg: Settings, events: seq<Event>, delay: nat, email: string,
          password: string, breached: bool)
    ensures var t := Run(cfg, BOOT, events);
            var reply := Step(cfg, t.world, Event(delay, RegisterUser(email, password, breached))).reply;
            if LastAccepted(t.world.mail, t.log, Lower(email)).Some? then reply == Raised(409)
            else if !Passes(password, Lower(email), breached) then reply == Raised(422)
            else reply.Returned? && reply.body.SignedIn? && reply.body.user !in t.world.db.users
  {
    hide Run;
    hide LastAccepted;
    hide Acceptable;
    hide SignIn;
    hide ByEmail;
    hide Sets;
    hide Passes;
    hide UserSound;
    hide Distinguishable;
    var t := Run(cfg, BOOT, events);
    var w := Tick(t.world, delay);
    NoServerError(cfg, events);
    EmailUnique(t.world, email);
    RunPasswords(cfg, events);
    AcceptableIff(password, Lower(email), breached);
    SignInAnswers(cfg, WithNewUser(w, Lower(email), password), w.nextId, Registered);
    match ByEmail(t.world.db, email)
    case NoRow => NoUserNoPassword(cfg, events, Lower(email));
    case _ =>
  }

  /**
   What a registration that is answered with a sign-in leaves behind: one more user, active and unverified, with this
   password, and one mail to the address with the token that verifies it; no other user changes.
   */
  lemma {:induction false} RegistrationCreates(cfg: Settings, events: seq<Event>, delay: nat, email: string,
          password: string, breached: bool)
    requires Step(cfg, Run(cfg, BOOT, events).world, Event(delay, RegisterUser(email, password, breached))).reply
             .Returned?
    ensures var w := Tick(Run(cfg, BOOT, events).world, delay);
            var r := Step(cfg, Run(cfg, BOOT, events).world, Event(delay, RegisterUser(email, password, breached)));
            && r.reply.body.SignedIn? && r.reply.body.user !in w.db.users
            && exists token :: Introduced(w, r.world, r.reply.body.user,
                 User(Lower(email), Bcrypt(password), true, false, Some(Sha256(token)), None, None), token)
  {
    hide Run;
    hide Acceptable;
    hide SignIn;
    hide ByEmail;
    hide UserSound;
    hide Distinguishable;
    hide ReferencesSound;
    var t := Run(cfg, BOOT, events);
    var w := Tick(t.world, delay);
    NoServerError(cfg, events);
    assert w.nextId !in w.db.users;
    var w1 := WithNewUser(w, Lower(email), password);
    SignInAnswers(cfg, w1, w.nextId, Registered);
    SignInFrame(cfg, w1, w.nextId, Registered);
    var user := User(Lower(email), Bcrypt(password), true, false, Some(Sha256(w.nextId + 1)), None, None);
    assert Introduced(w, Step(cfg, t.world, Event(delay, RegisterUser(email, password, breached))).world, w.nextId,
        user, w.nextId + 1);
  }

  predicate Introduced(w: World, w': World, u: Uuid, user: User, token: Uuid) {
    && w'.db.users == w.db.users[u := user]
    && w'.mail == w.mail + [Mail(VerifyMail, user.email, token, w.clock)]
    && w.nextId <= token
  }
}
