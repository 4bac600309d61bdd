/**
 Exactly when a mailed token works (app/services/auth_service.py:85-92, 113-178 and 270-359): what was mailed
 and answered decides it, for verification and for reset tokens alike.
 */
module OneTimeTokens {
  import opened Prelude
  import opened Text
  import opened PasswordPolicy
  import opened AuthState
  import opened AuthSpec
  import opened Accounts
  import opened TokenMail

  /** The one-time token that a request presents, and its kind. */
  function Presents(req: Request): Option<(MailKind, Uuid)> {
    match req
    case VerifyEmail(mailed) => Some((VerifyMail, mailed))
    case ResetPassword(mailed, _, _) => Some((ResetMail, mailed))
    case _ => None
  }

  /** Some exchange used this token. */
  predicate Used(log: seq<Exchange>, kind: MailKind, token: Uuid) {
    exists x | x in log :: x.reply.Returned? && Presents(x.request) == Some((kind, token))
  }

  /** The latest mail of a kind to a user carries the stored token, unless that token has been used. */
  ghost predicate Accounted(mail: seq<Mail>, log: seq<Exchange>, user: User, kind: MailKind) {
    match LastMail(mail, kind, user.email)
    case Some(m) =>
      if Used(log, kind, m.token) then Stored(user, kind) == None else Stored(user, kind) == Some(Sha256(m.token))
    case None => Stored(user, kind) == None
  }

  ghost predicate UseSound(t: Trace) {
    && (forall u, kind: MailKind | u in t.world.db.users :: Accounted(t.world.mail, t.log, t.world.db.users[u], kind))
    && (forall email, kind: MailKind | (forall u | u in t.world.db.users :: t.world.db.users[u].email != email) ::
          LastMail(t.world.mail, kind, email) == None)
    && (forall kind: MailKind, token: Uuid | Used(t.log, kind, token) :: token < t.world.nextId)
  }

  // ---- What a request does to the tokens ----

  predicate SameTokens(x: User, y: User, kind: MailKind) {
    x.email == y.email && Stored(x, kind) == Stored(y, kind)
  }

  /** A fresh token of one kind was stored for `u`, old or new, and mailed to its address. */
  ghost predicate Sent(w: World, w': World, u: Uuid, m: Mail) {
    && w'.mail == w.mail + [m] && w.nextId <= m.token && w.nextId <= w'.nextId
    && u in w'.db.users && w'.db.users.Keys == w.db.users.Keys + {u}
    && w'.db.users[u].email == m.email && Stored(w'.db.users[u], m.kind) == Some(Sha256(m.token))
    && (forall v | v in w.db.users && v != u :: w'.db.users[v] == w.db.users[v] && w.db.users[v].email != m.email)
    && (forall kind: MailKind | kind != m.kind ::
          if u in w.db.users then SameTokens(w'.db.users[u], w.db.users[u], kind)
          else Stored(w'.db.users[u], kind) == None)
  }

  /** The stored token of one kind of `u` was used up. */
  ghost predicate Spends(w: World, w': World, u: Uuid, kind: MailKind, token: Uuid) {
    && w'.mail == w.mail && w.nextId <= w'.nextId
    && u in w.db.users && w'.db.users.Keys == w.db.users.Keys
    && w'.db.users[u].email == w.db.users[u].email
    && Stored(w.db.users[u], kind) == Some(Sha256(token)) && Stored(w'.db.users[u], kind) == None
    && (forall v | v in w.db.users && v != u :: w'.db.users[v] == w.db.users[v])
    && (forall other: MailKind | other != kind :: SameTokens(w'.db.users[u], w.db.users[u], other))
  }

  ghost predicate Still(w: World, w': World) {
    && w'.mail == w.mail && w.nextId <= w'.nextId && w'.db.users.Keys == w.db.users.Keys
    && forall u, kind: MailKind | u in w.db.users :: SameTokens(w'.db.users[u], w.db.users[u], kind)
  }

  lemma NotPresented(log: seq<Exchange>, x: Exchange, kind: MailKind, token: Uuid)
    requires x.reply.Raised? || Presents(x.request) == None
    ensures Used(log + [x], kind, token) <==> Used(log, kind, token)
  {
    if Used(log, kind, token) {
      var y :| y in log && y.reply.Returned? && Presents(y.request) == Some((kind, token));
      assert y in log + [x];
    }
  }

  lemma Presented(log: seq<Exchange>, x: Exchange, kind: MailKind, token: Uuid)
    requires x.reply.Returned? && Presents(x.request).Some?
    ensures Used(log + [x], kind, token) <==> Used(log, kind, token) || Presents(x.request) == Some((kind, token))
  {
    if Used(log, kind, token) {
      var y :| y in log && y.reply.Returned? && Presents(y.request) == Some((kind, token));
      assert y in log + [x];
    }
    assert x in log + [x];
  }

  lemma StillUse(t: Trace, w': World, x: Exchange)
    requires UseSound(t) && Still(t.world, w') && (x.reply.Raised? || Presents(x.request) == None)
    ensures UseSound(Trace(w', t.log + [x]))
  {
    hide Used;
    hide LastMail;
    hide Stored;
    forall kind: MailKind, token: Uuid ensures Used(t.log + [x], kind, token) <==> Used(t.log, kind, token) {
      NotPresented(t.log, x, kind, token);
    }
    forall u, kind: MailKind | u in w'.db.users ensures Accounted(w'.mail, t.log + [x], w'.db.users[u], kind) {
      assert Accounted(t.world.mail, t.log, t.world.db.users[u], kind);
      assert SameTokens(w'.db.users[u], t.world.db.users[u], kind);
    }
    forall email, kind: MailKind | forall u | u in w'.db.users :: w'.db.users[u].email != email
      ensures LastMail(w'.mail, kind, email) == None
    {
      forall u | u in t.world.db.users ensures t.world.db.users[u].email != email {
        assert SameTokens(w'.db.users[u], t.world.db.users[u], kind);
      }
    }
  }

  lemma SentUse(t: Trace, w': World, x: Exchange, u: Uuid, m: Mail)
    requires UseSound(t) && Sent(t.world, w', u, m) && (x.reply.Raised? || Presents(x.request) == None)
    requires u in t.world.db.users ==> t.world.db.users[u].email == m.email
    ensures UseSound(Trace(w', t.log + [x]))
  {
    hide Used;
    hide LastMail;
    hide Stored;
    forall kind: MailKind, token: Uuid ensures Used(t.log + [x], kind, token) <==> Used(t.log, kind, token) {
      NotPresented(t.log, x, kind, token);
    }
    forall v, kind: MailKind | v in w'.db.users ensures Accounted(w'.mail, t.log + [x], w'.db.users[v], kind) {
      MailAppended(t.world.mail, m, kind, w'.db.users[v].email);
      if v in t.world.db.users {
        assert Accounted(t.world.mail, t.log, t.world.db.users[v], kind);
      }
    }
    forall email, kind: MailKind | forall v | v in w'.db.users :: w'.db.users[v].email != email
      ensures LastMail(w'.mail, kind, email) == None
    {
      MailAppended(t.world.mail, m, kind, email);
      forall v | v in t.world.db.users ensures t.world.db.users[v].email != email {
        assert v in w'.db.users;
      }
    }
  }

  lemma SpentUse(t: Trace, w': World, x: Exchange, u: Uuid, kind: MailKind, token: Uuid)
    requires UseSound(t) && UsersSound(t.world.db.users, t.world.nextId)
    requires Spends(t.world, w', u, kind, token) && x.reply.Returned? && Presents(x.request) == Some((kind, token))
    ensures UseSound(Trace(w', t.log + [x]))
  {
    hide Used;
    hide LastMail;
    hide UserSound;
    forall k: MailKind, tok: Uuid
      ensures Used(t.log + [x], k, tok) <==> Used(t.log, k, tok) || (k, tok) == (kind, token)
    {
      Presented(t.log, x, k, tok);
    }
    StoredDrawn(t.world, u, kind);
    forall v, k: MailKind | v in w'.db.users ensures Accounted(w'.mail, t.log + [x], w'.db.users[v], k) {
      assert Accounted(t.world.mail, t.log, t.world.db.users[v], k);
      if v != u {
        assert Distinguishable(t.world.db.users[u], t.world.db.users[v]);
      } else if k != kind {
        assert SameTokens(w'.db.users[u], t.world.db.users[u], k);
      }
    }
    forall email, k: MailKind | forall v | v in w'.db.users :: w'.db.users[v].email != email
      ensures LastMail(w'.mail, k, email) == None
    {
      forall v | v in t.world.db.users ensures t.world.db.users[v].email != email {
        assert v in w'.db.users;
      }
    }
  }

  lemma StoredDrawn(w: World, u: Uuid, kind: MailKind)
    requires UsersSound(w.db.users, w.nextId) && u in w.db.users && Stored(w.db.users[u], kind).Some?
    ensures Stored(w.db.users[u], kind).value.preimage < w.nextId
  {
    hide Compliant;
    hide Utf8Length;
    assert UserSound(w.db.users[u], w.nextId);
  }

  // ---- Every request is one of these ----

  /** `x` is the exchange of a request handled in `t.world`. */
  ghost predicate IsExchange(cfg: Settings, t: Trace, req: Request, x: Exchange) {
    x.request == req && x.reply == Handle(cfg, t.world, req).reply
  }

  lemma RegisterUse(cfg: Settings, t: Trace, req: Request, x: Exchange)
    requires req.RegisterUser? && UseSound(t) && UsersSound(t.world.db.users, t.world.nextId)
             && IsExchange(cfg, t, req, x)
    ensures UseSound(Trace(Handle(cfg, t.world, req).world, t.log + [x]))
  {
    hide SignIn;
    hide ByEmail;
    hide Acceptable;
    hide UserSound;
    hide UseSound;
    var w, email := t.world, Lower(req.email);
    SignInFrame(cfg, WithNewUser(w, email, req.password), w.nextId, Registered);
    var w' := Handle(cfg, w, req).world;
    if ByEmail(w.db, req.email).NoRow? && Acceptable(req.password, email, req.breached) {
      SentUse(t, w', x, w.nextId, Mail(VerifyMail, email, w.nextId + 1, w.clock));
    } else {
      StillUse(t, w', x);
    }
  }

  lemma MailUse(cfg: Settings, t: Trace, req: Request, x: Exchange)
    requires req.ResendVerification? || req.ForgotPassword?
    requires UseSound(t) && UsersSound(t.world.db.users, t.world.nextId) && IsExchange(cfg, t, req, x)
    ensures UseSound(Trace(Handle(cfg, t.world, req).world, t.log + [x]))
  {
    hide ByEmail;
    hide UsersSound;
    hide UseSound;
    var w, found := t.world, ByEmail(t.world.db, req.email);
    var w' := Handle(cfg, w, req).world;
    if found.OneRow? && w'.mail != w.mail {
      forall v | v in w.db.users && v != found.id ensures w.db.users[v].email != Lower(req.email) {
        EmailsDiffer(w, found.id, v);
      }
      var kind := if req.ForgotPassword? then ResetMail else VerifyMail;
      SentUse(t, w', x, found.id, Mail(kind, Lower(req.email), w.nextId, w.clock));
    } else {
      StillUse(t, w', x);
    }
  }

  lemma VerifyUse(cfg: Settings, t: Trace, req: Request, x: Exchange)
    requires req.VerifyEmail? || req.ResetPassword?
    requires UseSound(t) && UsersSound(t.world.db.users, t.world.nextId) && IsExchange(cfg, t, req, x)
    ensures UseSound(Trace(Handle(cfg, t.world, req).world, t.log + [x]))
  {
    hide ByVerification;
    hide ByReset;
    hide Acceptable;
    hide RevokeFamiliesOf;
    hide UsersSound;
    hide UseSound;
    var w := t.world;
    var w' := Handle(cfg, w, req).world;
    if x.reply.Raised? {
      StillUse(t, w', x);
    } else if req.VerifyEmail? {
      SpentUse(t, w', x, ByVerification(w.db, req.mailed).id, VerifyMail, req.mailed);
    } else {
      SpentUse(t, w', x, ByReset(w.db, req.mailed).id, ResetMail, req.mailed);
    }
  }

  lemma QuietUse(cfg: Settings, t: Trace, req: Request, x: Exchange)
    requires UseSound(t) && IsExchange(cfg, t, req, x)
    requires req.LoginUser? || req.VerifyMfaChallenge? || req.RefreshTokens? || req.SetActive?
             || req.SetupMfa? || req.VerifyMfaSetup? || req.DisableMfa? || req.DeleteSession?
    ensures UseSound(Trace(Handle(cfg, t.world, req).world, t.log + [x]))
  {
    hide UseSound;
    if req.LoginUser? || req.VerifyMfaChallenge? || req.RefreshTokens? {
      hide Handle;
      ExchangeFrame(cfg, t.world, req);
    } else if !req.SetActive? {
      hide Handle;
      CallerFrame(cfg, t.world, req);
    }
    StillUse(t, Handle(cfg, t.world, req).world, x);
  }

  lemma UseStep(cfg: Settings, t: Trace, req: Request, x: Exchange)
    requires UseSound(t) && UsersSound(t.world.db.users, t.world.nextId) && IsExchange(cfg, t, req, x)
    ensures UseSound(Trace(Handle(cfg, t.world, req).world, t.log + [x]))
  {
    hide UseSound;
    hide UsersSound;
    hide Handle;
    hide IsExchange;
    match req
    case RegisterUser(_, _, _) => RegisterUse(cfg, t, req, x);
    case ResendVerification(_) => MailUse(cfg, t, req, x);
    case ForgotPassword(_) => MailUse(cfg, t, req, x);
    case VerifyEmail(_) => VerifyUse(cfg, t, req, x);
    case ResetPassword(_, _, _) => VerifyUse(cfg, t, req, x);
    case _ => QuietUse(cfg, t, req, x);
  }

  lemma TickUse(t: Trace, delay: nat)
    requires UseSound(t)
    ensures UseSound(Trace(Tick(t.world, delay), t.log))
  {
  }

  lemma BootUse()
    ensures UseSound(BOOT)
  {
  }

  lemma {:induction false} RunUse(cfg: Settings, events: seq<Event>)
    ensures UseSound(Run(cfg, BOOT, events))
  {
    hide UseSound;
    hide AccountsSound;
    hide Handle;
    if events == [] {
      BootUse();
    } else {
      var before, e := events[..|events| - 1], events[|events| - 1];
      var t := Run(cfg, BOOT, before);
      RunUse(cfg, before);
      NoServerError(cfg, before);
      UsersOf(t.world, e.delay);
      TickUse(t, e.delay);
      var w := Tick(t.world, e.delay);
      UseStep(cfg, Trace(w, t.log), e.request, Exchange(w.clock, e.request, Handle(cfg, w, e.request).reply));
    }
  }

  // ---- Main results ----

  /** The token is the latest of its kind mailed to this user, and has not been used. */
  ghost predicate Outstanding(t: Trace, kind: MailKind, token: Uuid, u: Uuid) {
    && u in t.world.db.users && !Used(t.log, kind, token)
    && var m := LastMail(t.world.mail, kind, t.world.db.users[u].email); m.Some? && m.value.token == token
  }

  lemma OutstandingIsStored(t: Trace, kind: MailKind, token: Uuid, u: Uuid)
    requires UseSound(t) && u in t.world.db.users
    ensures Outstanding(t, kind, token, u) <==> Stored(t.world.db.users[u], kind) == Some(Sha256(token))
  {
    hide LastMail;
    hide Used;
    assert Accounted(t.world.mail, t.log, t.world.db.users[u], kind);
  }

  /**
   In every run a verification token works exactly when it is the latest mailed to some user and has not been
   used, and it verifies that user.
   */
  lemma {:induction false} VerificationWorksIff(cfg: Settings, events: seq<Event>, delay: nat, token: Uuid)
    ensures var t := Run(cfg, BOOT, events);
            var r := Step(cfg, t.world, Event(delay, VerifyEmail(token)));
            && (if exists u :: Outstanding(t, VerifyMail, token, u) then r.reply == Returned(Done)
                else r.reply == Raised(400))
            && (forall u | Outstanding(t, VerifyMail, token, u) ::
                  u in r.world.db.users && r.world.db.users[u].verified && !t.world.db.users[u].verified)
  {
    hide Run;
    hide UseSound;
    hide Outstanding;
    hide ByVerification;
    hide Compliant;
    hide Utf8Length;
    var t := Run(cfg, BOOT, events);
    RunUse(cfg, events);
    NoServerError(cfg, events);
    VerificationUnique(t.world, token);
    if ByVerification(t.world.db, token).OneRow? {
      OutstandingIsStored(t, VerifyMail, token, ByVerification(t.world.db, token).id);
    }
    forall u | Outstanding(t, VerifyMail, token, u)
      ensures u in t.world.db.users && ByVerification(t.world.db, token) == OneRow(u) && !t.world.db.users[u].verified
    {
      OutstandingUser(t, VerifyMail, token, u);
      OutstandingIsStored(t, VerifyMail, token, u);
      assert UserSound(t.world.db.users[u], t.world.nextId);
    }
  }

  lemma OutstandingUser(t: Trace, kind: MailKind, token: Uuid, u: Uuid)
    requires Outstanding(t, kind, token, u)
    ensures u in t.world.db.users
  {
  }

  /** An outstanding reset token, mailed at most thirty minutes ago. */
  ghost predicate Usable(t: Trace, now: Time, token: Uuid, u: Uuid) {
    Outstanding(t, ResetMail, token, u)
    && now <= LastMail(t.world.mail, ResetMail, t.world.db.users[u].email).value.at + 30 * 60 * 1_000_000
  }

  lemma UsableIsStored(t: Trace, now: Time, token: Uuid, u: Uuid)
    requires UseSound(t) && AllMailed(t.world) && u in t.world.db.users
    ensures Usable(t, now, token, u)
            <==> t.world.db.users[u].reset == Some(Sha256(token)) && !ResetExpired(t.world.db.users[u], now)
  {
    hide UseSound;
    hide AllMailed;
    hide Used;
    hide LastMail;
    OutstandingIsStored(t, ResetMail, token, u);
    TokenMail.Mailed(t.world, u);
  }

  lemma UsableUser(t: Trace, now: Time, token: Uuid, u: Uuid)
    requires Usable(t, now, token, u)
    ensures u in t.world.db.users
  {
  }

  /**
   How a reset is answered, in every run: 400 exactly when the token is not the latest mailed to any user, or
   has been used, or is more than thirty minutes old; otherwise 422 exactly when the password breaks a rule for that
   user, is in a reported breach, or has more than 72 bytes.
   */
  lemma {:induction false} ResetAnswer(cfg: Settings, events: seq<Event>, delay: nat, token: Uuid, password: string,
          breached: bool)
    ensures var t := Run(cfg, BOOT, events);
            var now := t.world.clock + 1 + delay;
            var reply := Step(cfg, t.world, Event(delay, ResetPassword(token, password, breached))).reply;
            && (reply == Raised(400) <==> !exists u :: Usable(t, now, token, u))
            && (forall u | Usable(t, now, token, u) :: u in t.world.db.users &&
                  reply == if Passes(password, t.world.db.users[u].email, breached) then Returned(Done)
                    else Raised(422))
  {
    hide Run;
    hide UseSound;
    hide ByReset;
    hide Acceptable;
    hide RevokeFamiliesOf;
    hide AllMailed;
    hide AccountsSound;
    hide UsersSound;
    hide ReferencesSound;
    hide Usable;
    hide Passes;
    var t := Run(cfg, BOOT, events);
    var now := t.world.clock + 1 + delay;
    RunUse(cfg, events);
    RunMailed(cfg, events);
    NoServerError(cfg, events);
    UsersOf(t.world, delay);
    ResetUnique(Tick(t.world, delay), token);
    if ByReset(t.world.db, token).OneRow? {
      UsableIsStored(t, now, token, ByReset(t.world.db, token).id);
    }
    forall u | Usable(t, now, token, u)
      ensures u in t.world.db.users && ByReset(t.world.db, token) == OneRow(u)
              && !ResetExpired(t.world.db.users[u], now)
      ensures Acceptable(password, t.world.db.users[u].email, breached)
              <==> Passes(password, t.world.db.users[u].email, breached)
    {
      UsableUser(t, now, token, u);
      UsableIsStored(t, now, token, u);
      AcceptableIff(password, t.world.db.users[u].email, breached);
    }
  }

  lemma UsedLater(log: seq<Exchange>, x: Exchange, later: seq<Exchange>, kind: MailKind, token: Uuid)
    requires |log| < |later| && later[|log|] == x && x.reply.Returned? && Presents(x.request) == Some((kind, token))
    ensures Used(later, kind, token)
  {
    assert x in later;
  }

  /** While requests do not overlap a mailed token works at most once: after it has, every later use is refused. */
  lemma {:induction false} WorksOnce(cfg: Settings, events: seq<Event>, e: Event, more: seq<Event>, again: Event)
    requires Presents(e.request).Some? && Step(cfg, Run(cfg, BOOT, events).world, e).reply.Returned?
    requires Presents(again.request) == Presents(e.request)
    ensures var t := Run(cfg, Extend(cfg, Run(cfg, BOOT, events), e), more);
            Step(cfg, t.world, again).reply.Raised?
  {
    hide Run;
    hide Step;
    hide Used;
    hide LastMail;
    var (kind, token) := Presents(e.request).value;
    var first, t := Run(cfg, BOOT, events), Run(cfg, Extend(cfg, Run(cfg, BOOT, events), e), more);
    RunAppend(cfg, BOOT, events, e);
    RunConcat(cfg, BOOT, events + [e], more);
    LogGrows(cfg, Extend(cfg, first, e), more);
    assert t.log[..|first.log| + 1][|first.log|] == t.log[|first.log|];
    UsedLater(first.log, Extend(cfg, first, e).log[|first.log|], t.log, kind, token);
    match again.request
    case VerifyEmail(mailed) => VerificationWorksIff(cfg, events + [e] + more, again.delay, mailed);
    case ResetPassword(mailed, password, breached) =>
      ResetAnswer(cfg, events + [e] + more, again.delay, mailed, password, breached);
  }

  /** A password that the policy turns down changes nothing, so the reset token stays usable. */
  lemma RejectedPasswordChangesNothing(cfg: Settings, w: World, e: Event)
    requires e.request.ResetPassword? && Step(cfg, w, e).reply == Raised(422)
    ensures Step(cfg, w, e).world == Tick(w, e.delay)
  {
    hide ByReset;
    hide Acceptable;
  }
}
