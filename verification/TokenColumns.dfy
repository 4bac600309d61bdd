/**
 What requests do to the stored one-time tokens (the `verification_token` and `reset_token` columns of
 app/models/user.py:19-53), without any assumption on how requests interleave.
 */
module TokenColumns {
  import opened Prelude
  import opened Text
  import opened PasswordPolicy
  import opened AuthState
  import opened AuthSpec
  import opened Accounts

  /** A token already drawn that no user has stored. */
  ghost predicate Spent(w: World, kind: MailKind, token: Uuid) {
    token < w.nextId && forall u | u in w.db.users :: Stored(w.db.users[u], kind) != Some(Sha256(token))
  }

  /** No other user has stored this token, which has been drawn. */
  ghost predicate HeldBy(w: World, kind: MailKind, token: Uuid, user: Uuid) {
    && token < w.nextId && user in w.db.users
    && forall v | v in w.db.users && v != user :: Stored(w.db.users[v], kind) != Some(Sha256(token))
  }

  /** Stored tokens of a kind are drawn and distinct. */
  ghost predicate ColumnSound(w: World, kind: MailKind) {
    && (forall u | u in w.db.users && Stored(w.db.users[u], kind).Some? ::
          Stored(w.db.users[u], kind).value.preimage < w.nextId)
    && (forall u, v | u in w.db.users && v in w.db.users && u != v && Stored(w.db.users[u], kind).Some? ::
          Stored(w.db.users[u], kind) != Stored(w.db.users[v], kind))
  }

  /** A stored token was there before, or is fresh and stored once. */
  ghost predicate ColumnFrom(w: World, w': World, kind: MailKind) {
    && w.nextId <= w'.nextId && w.db.users.Keys <= w'.db.users.Keys
    && (forall u | u in w'.db.users && Stored(w'.db.users[u], kind).Some? ::
          || (u in w.db.users && Stored(w'.db.users[u], kind) == Stored(w.db.users[u], kind))
          || w.nextId <= Stored(w'.db.users[u], kind).value.preimage < w'.nextId)
    && (forall u, v | u in w'.db.users && v in w'.db.users && u != v && Stored(w'.db.users[u], kind).Some?
                      && w.nextId <= Stored(w'.db.users[u], kind).value.preimage ::
          Stored(w'.db.users[u], kind) != Stored(w'.db.users[v], kind))
  }

  // ---- Every request ----

  lemma SameColumn(w: World, w': World, kind: MailKind)
    requires ColumnSound(w, kind) && w'.db.users == w.db.users && w.nextId <= w'.nextId
    ensures ColumnFrom(w, w', kind)
  {
  }

  /** One user's row changes: to no token, the same token, or a fresh one. */
  lemma RowChanged(w: World, w': World, kind: MailKind, u: Uuid)
    requires ColumnSound(w, kind) && w.nextId <= w'.nextId
    requires u in w'.db.users && w'.db.users == w.db.users[u := w'.db.users[u]]
    requires Stored(w'.db.users[u], kind).Some? ==>
               || (u in w.db.users && Stored(w'.db.users[u], kind) == Stored(w.db.users[u], kind))
               || w.nextId <= Stored(w'.db.users[u], kind).value.preimage < w'.nextId
    ensures ColumnFrom(w, w', kind)
  {
  }

  lemma MailColumn(cfg: Settings, w: World, req: Request, kind: MailKind)
    requires ColumnSound(w, kind) && (req.ResendVerification? || req.ForgotPassword?)
    ensures ColumnFrom(w, Handle(cfg, w, req).world, kind)
  {
    hide ByEmail;
    hide ColumnSound;
    hide ColumnFrom;
    var w' := Handle(cfg, w, req).world;
    if ByEmail(w.db, req.email).OneRow? {
      RowChanged(w, w', kind, ByEmail(w.db, req.email).id);
    } else {
      SameColumn(w, w', kind);
    }
  }

  lemma VerifyColumn(w: World, token: Uuid, kind: MailKind)
    requires ColumnSound(w, kind)
    ensures ColumnFrom(w, Verify(w, token).world, kind)
  {
    hide ByVerification;
    hide ColumnSound;
    hide ColumnFrom;
    if ByVerification(w.db, token).OneRow? {
      RowChanged(w, Verify(w, token).world, kind, ByVerification(w.db, token).id);
    } else {
      SameColumn(w, Verify(w, token).world, kind);
    }
  }

  lemma ResetColumn(w: World, token: Uuid, password: string, breached: bool, kind: MailKind)
    requires ColumnSound(w, kind)
    ensures ColumnFrom(w, Reset(w, token, password, breached).world, kind)
  {
    hide ByReset;
    hide Acceptable;
    hide RevokeFamiliesOf;
    hide ColumnSound;
    hide ColumnFrom;
    var w' := Reset(w, token, password, breached).world;
    if Reset(w, token, password, breached).reply.Returned? {
      RowChanged(w, w', kind, ByReset(w.db, token).id);
    } else {
      SameColumn(w, w', kind);
    }
  }

  lemma RegisterColumn(cfg: Settings, w: World, req: Request, kind: MailKind)
    requires ColumnSound(w, kind) && req.RegisterUser?
    ensures ColumnFrom(w, Handle(cfg, w, req).world, kind)
  {
    hide Acceptable;
    hide ByEmail;
    hide SignIn;
    hide ColumnSound;
    hide ColumnFrom;
    var w' := Handle(cfg, w, req).world;
    SignInFrame(cfg, WithNewUser(w, Lower(req.email), req.password), w.nextId, Registered);
    if ByEmail(w.db, req.email).NoRow? && Acceptable(req.password, Lower(req.email), req.breached) {
      RowChanged(w, w', kind, w.nextId);
    } else {
      SameColumn(w, w', kind);
    }
  }

  lemma ActiveColumn(w: World, u: Uuid, active: bool, kind: MailKind)
    requires ColumnSound(w, kind)
    ensures ColumnFrom(w, SetActivity(w, u, active).world, kind)
  {
    hide ColumnSound;
    hide ColumnFrom;
    if u in w.db.users {
      RowChanged(w, SetActivity(w, u, active).world, kind, u);
    } else {
      SameColumn(w, w, kind);
    }
  }

  lemma QuietColumn(cfg: Settings, w: World, req: Request, kind: MailKind)
    requires ColumnSound(w, kind)
    requires req.LoginUser? || req.VerifyMfaChallenge? || req.RefreshTokens?
             || req.SetupMfa? || req.VerifyMfaSetup? || req.DisableMfa? || req.DeleteSession?
    ensures ColumnFrom(w, Handle(cfg, w, req).world, kind)
  {
    hide Handle;
    hide ColumnSound;
    hide ColumnFrom;
    if req.LoginUser? || req.VerifyMfaChallenge? || req.RefreshTokens? {
      ExchangeFrame(cfg, w, req);
    } else {
      CallerFrame(cfg, w, req);
    }
    SameColumn(w, Handle(cfg, w, req).world, kind);
  }

  /** Every request only stores tokens that it draws, each once. */
  lemma HandleColumn(cfg: Settings, w: World, req: Request, kind: MailKind)
    requires ColumnSound(w, kind)
    ensures ColumnFrom(w, Handle(cfg, w, req).world, kind)
  {
    hide ColumnSound;
    hide ColumnFrom;
    match req
    case RegisterUser(_, _, _) => RegisterColumn(cfg, w, req, kind); hide Handle;
    case VerifyEmail(mailed) => VerifyColumn(w, mailed, kind);
    case ResendVerification(_) => MailColumn(cfg, w, req, kind); hide Handle;
    case ForgotPassword(_) => MailColumn(cfg, w, req, kind); hide Handle;
    case ResetPassword(mailed, password, breached) => ResetColumn(w, mailed, password, breached, kind);
    case SetActive(u, active) => ActiveColumn(w, u, active, kind);
    case _ => QuietColumn(cfg, w, req, kind); hide Handle;
  }

  // ---- What lasts ----

  lemma SpentStep(w: World, w': World, kind: MailKind, token: Uuid)
    requires Spent(w, kind, token) && ColumnFrom(w, w', kind)
    ensures Spent(w', kind, token)
  {
  }

  lemma ColumnSoundStep(w: World, w': World, kind: MailKind)
    requires ColumnSound(w, kind) && ColumnFrom(w, w', kind)
    ensures ColumnSound(w', kind)
  {
  }

  lemma HeldByStep(w: World, w': World, kind: MailKind, token: Uuid, user: Uuid)
    requires HeldBy(w, kind, token, user) && ColumnFrom(w, w', kind)
    ensures HeldBy(w', kind, token, user)
  {
  }

  lemma StoredIsHeld(w: World, kind: MailKind, token: Uuid, user: Uuid)
    requires ColumnSound(w, kind) && user in w.db.users && Stored(w.db.users[user], kind) == Some(Sha256(token))
    ensures HeldBy(w, kind, token, user)
  {
  }

  /** Once its holder has dropped it, a token is spent. */
  lemma DroppedIsSpent(w: World, w': World, kind: MailKind, token: Uuid, user: Uuid)
    requires HeldBy(w, kind, token, user) && w.nextId <= w'.nextId
    requires user in w'.db.users && w'.db.users == w.db.users[user := w'.db.users[user]]
    requires Stored(w'.db.users[user], kind) == None
    ensures Spent(w', kind, token)
  {
  }
}
