/**
 The audit log as a second record of the state: folding the committed rows gives back every user's MFA
 and verified flags, the number of their token families, and which families are revoked.
 */
module AuditReplay {
  import opened Prelude
  import opened Text
  import opened PasswordPolicy
  import opened AuthState
  import opened AuthSpec
  import opened FamilyMoves
  import opened Accounts
  import opened Families
  import Lockout

  // ---- Reading the log ----

  function MfaFlag(audit: seq<AuditRow>, u: Uuid): bool {
    if audit == [] then false
    else
      var row := audit[|audit| - 1];
      if row.user == Some(u) && row.event == MfaEnabled then true
      else if row.user == Some(u) && row.event == MfaDisabled then false
      else MfaFlag(audit[..|audit| - 1], u)
  }

  /** `mfa.enabled` and `mfa.disabled` rows of the user alternate, the former first. */
  predicate Alternates(audit: seq<AuditRow>, u: Uuid) {
    audit == []
    || (&& Alternates(audit[..|audit| - 1], u)
        && var row := audit[|audit| - 1];
           && (row.user == Some(u) && row.event == MfaEnabled ==> !MfaFlag(audit[..|audit| - 1], u))
           && (row.user == Some(u) && row.event == MfaDisabled ==> MfaFlag(audit[..|audit| - 1], u)))
  }

  function VerifiedFlag(audit: seq<AuditRow>, u: Uuid): bool {
    audit != []
    && ((audit[|audit| - 1].user == Some(u) && audit[|audit| - 1].event == VerificationSuccess)
        || VerifiedFlag(audit[..|audit| - 1], u))
  }

  function Openings(audit: seq<AuditRow>, u: Uuid): nat {
    if audit == [] then 0
    else Openings(audit[..|audit| - 1], u)
         + (if audit[|audit| - 1].user == Some(u) && IsOpening(audit[|audit| - 1].event) then 1 else 0)
  }

  /** A reuse row carries the family's id, or its owner reset the password after it opened. */
  predicate RevokedByLog(audit: seq<AuditRow>, f: Uuid, owner: Uuid, createdAt: Time) {
    audit != []
    && var row := audit[|audit| - 1];
       || (row.event == RefreshReuse && row.family == Some(f))
       || (row.event == ResetSuccess && row.user == Some(owner) && createdAt < row.createdAt)
       || RevokedByLog(audit[..|audit| - 1], f, owner, createdAt)
  }

  lemma Append(audit: seq<AuditRow>, row: AuditRow)
    ensures (audit + [row])[..|audit| + 1 - 1] == audit && (audit + [row])[|audit|] == row
  {
  }

  // ---- The flags ----

  ghost predicate FlagsAgree(w: World) {
    && (forall u: Uuid :: MfaFlag(w.db.audit, u) == MfaIsEnabled(w.db, u) && Alternates(w.db.audit, u))
    && (forall u | u in w.db.users :: VerifiedFlag(w.db.audit, u) == w.db.users[u].verified)
    && (forall u: Uuid :: u !in w.db.users ==> !VerifiedFlag(w.db.audit, u))
  }

  predicate IsFlagEvent(event: EventType) {
    event in {MfaEnabled, MfaDisabled, VerificationSuccess}
  }

  /** The flags stay, and at most one row that does not concern them is added. */
  ghost predicate FlagsKept(w: World, w': World) {
    && (w'.db.audit == w.db.audit
        || exists row: AuditRow :: !IsFlagEvent(row.event) && w'.db.audit == w.db.audit + [row])
    && (forall u: Uuid :: MfaIsEnabled(w'.db, u) == MfaIsEnabled(w.db, u))
    && w.db.users.Keys <= w'.db.users.Keys
    && (forall u | u in w'.db.users ::
          w'.db.users[u].verified == (u in w.db.users && w.db.users[u].verified))
  }

  /** One flag of one user is set, and the row says so. */
  ghost predicate FlagSet(w: World, w': World, u: Uuid, event: EventType) {
    && IsFlagEvent(event) && u in w.db.users
    && w'.db.audit == w.db.audit + [AuditRow(event, Some(u), None, true, w.clock)]
    && w'.db.users.Keys == w.db.users.Keys
    && (forall v: Uuid :: v != u ==> MfaIsEnabled(w'.db, v) == MfaIsEnabled(w.db, v))
    && (forall v | v in w.db.users && v != u :: w'.db.users[v].verified == w.db.users[v].verified)
    && MfaIsEnabled(w'.db, u) == (event == MfaEnabled || (event != MfaDisabled && MfaIsEnabled(w.db, u)))
    && w'.db.users[u].verified == (event == VerificationSuccess || w.db.users[u].verified)
    && (event == MfaEnabled ==> !MfaIsEnabled(w.db, u))
    && (event == MfaDisabled ==> MfaIsEnabled(w.db, u))
  }

  lemma KeptAgrees(w: World, w': World)
    requires FlagsAgree(w) && FlagsKept(w, w')
    ensures FlagsAgree(w')
  {
    if w'.db.audit != w.db.audit {
      var row: AuditRow :| !IsFlagEvent(row.event) && w'.db.audit == w.db.audit + [row];
      Append(w.db.audit, row);
    }
  }

  lemma SetAgrees(w: World, w': World, u: Uuid, event: EventType)
    requires FlagsAgree(w) && FlagSet(w, w', u, event)
    ensures FlagsAgree(w')
  {
    Append(w.db.audit, AuditRow(event, Some(u), None, true, w.clock));
  }

  lemma RefuseKept(w: World, w1: World, status: nat, event: EventType, user: Option<Uuid>, family: Option<Uuid>)
    requires w1 == w.(redis := w1.redis) && !IsFlagEvent(event)
    ensures FlagsKept(w, Refuse(w1, status, event, user, family).world)
  {
    var row := AuditRow(event, user, family, false, w.clock);
    assert !IsFlagEvent(row.event);
  }

  lemma SignInKept(cfg: Settings, w: World, w1: World, u: Uuid, event: EventType)
    requires FlagsKept(w, w1) && w1.db.audit == w.db.audit && !IsFlagEvent(event)
    ensures FlagsKept(w, SignIn(cfg, w1, u, event).world)
  {
    SignInFrame(cfg, w1, u, event);
    var row := AuditRow(event, Some(u), None, true, w1.clock);
    assert SignIn(cfg, w1, u, event).world.db.audit == w.db.audit + [row];
  }

  lemma RegisterKept(cfg: Settings, w: World, email: string, password: string, breached: bool)
    requires UsersSound(w.db.users, w.nextId)
    ensures FlagsKept(w, Register(cfg, w, email, password, breached).world)
  {
    hide SignIn;
    hide ByEmail;
    hide Acceptable;
    hide UserSound;
    SignInKept(cfg, w, WithNewUser(w, Lower(email), password), w.nextId, Registered);
  }

  lemma LoginKept(cfg: Settings, w: World, email: string, password: string, ip: Option<string>)
    ensures FlagsKept(w, Login(cfg, w, email, password, ip).world)
  {
    hide SignIn;
    hide Refuse;
    hide ByEmail;
    hide VerifyPassword;
    hide FlagsKept;
    hide Lockout.Locked;
    hide Lockout.Record;
    hide Lockout.Clear;
    RefuseKept(w, w, 423, LoginLocked, None, None);
    RefuseKept(w, Failed(cfg, w, email, ip), 401, LoginFailure, None, None);
    SameKept(w, w);
    if ByEmail(w.db, email).OneRow? {
      var u := ByEmail(w.db, email).id;
      RefuseKept(w, Failed(cfg, w, email, ip), 401, LoginFailure, Some(u), None);
      RefuseKept(w, w, 403, LoginInactive, Some(u), None);
      var w1 := w.(redis := Lockout.Clear(w.redis, email, ip));
      SameKept(w, w1);
      SignInKept(cfg, w, w1, u, LoginSuccess);
      ChallengeKept(cfg, w, w1, u);
    }
  }

  lemma SameKept(w: World, w': World)
    requires w'.db == w.db
    ensures FlagsKept(w, w')
  {
  }

  lemma ChallengeKept(cfg: Settings, w: World, w1: World, u: Uuid)
    requires w1.db == w.db
    ensures var challenge := ChallengeFor(cfg, w1.clock, u, w1.nextId);
            FlagsKept(w, Success(w1.(minted := w1.minted + {challenge}, nextId := w1.nextId + 1), ChallengeIssued, u,
              None))
  {
    var row := AuditRow(ChallengeIssued, Some(u), None, true, w1.clock);
    assert !IsFlagEvent(row.event);
  }

  lemma ExchangeKept(cfg: Settings, w: World, token: Claims, code: string)
    ensures FlagsKept(w, Challenge(cfg, w, token, code).world)
  {
    hide SignIn;
    hide Refuse;
    hide FlagsKept;
    SameKept(w, w);
    RefuseKept(w, w, 401, ChallengeFailure, None, None);
    RefuseKept(w, w, 401, ChallengeFailure, token.sub, None);
    RefuseKept(w, w, 400, ChallengeFailure, token.sub, None);
    if token.sub.Some? {
      SignInKept(cfg, w, w, token.sub.value, ChallengeSuccess);
    }
  }

  lemma RefreshKept(cfg: Settings, w: World, token: Claims)
    ensures FlagsKept(w, Refresh(cfg, w, token).world)
  {
    hide Refuse;
    hide FlagsKept;
    SameKept(w, w);
    RefuseKept(w, w, 401, RefreshFailure, None, None);
    RefuseKept(w, w, 401, RefreshFailure, token.sub, None);
    RefuseKept(w, w, 401, RefreshFailure, token.sub, token.family);
    if token.sub.Some? && token.family.Some? && token.family.value in w.db.families {
      RotateKept(cfg, w, token.sub.value, token.family.value);
    }
  }

  lemma RotateKept(cfg: Settings, w: World, u: Uuid, f: Uuid)
    requires f in w.db.families
    ensures FlagsKept(w, Rotate(cfg, w, u, f).world) && FlagsKept(w, Reused(w, u, f).world)
  {
    var row := AuditRow(RefreshSuccess, Some(u), Some(f), true, w.clock);
    assert Rotate(cfg, w, u, f).world.db.audit == w.db.audit + [row];
    var row' := AuditRow(RefreshReuse, Some(u), Some(f), false, w.clock);
    assert Reused(w, u, f).world.db.audit == w.db.audit + [row'];
  }

  lemma ResetKept(w: World, token: Uuid, password: string, breached: bool)
    ensures FlagsKept(w, Reset(w, token, password, breached).world)
  {
    hide ByReset;
    hide Acceptable;
    hide Refuse;
    hide RevokeFamiliesOf;
    RefuseKept(w, w, 400, ResetFailure, None, None);
    if ByReset(w.db, token).OneRow? {
      var u := ByReset(w.db, token).id;
      RefuseKept(w, w, 400, ResetFailure, Some(u), None);
      var row := AuditRow(ResetSuccess, Some(u), None, true, w.clock);
      assert !IsFlagEvent(row.event);
    }
  }

  lemma MailKept(cfg: Settings, w: World, req: Request)
    requires req.ResendVerification? || req.ForgotPassword? || req.SetActive?
    ensures FlagsKept(w, Handle(cfg, w, req).world)
  {
    hide ByEmail;
    match req
    case ResendVerification(email) =>
      if ByEmail(w.db, email).OneRow? {
        var row := AuditRow(VerificationResent, Some(ByEmail(w.db, email).id), None, true, w.clock);
        assert !IsFlagEvent(row.event);
      }
    case ForgotPassword(email) =>
      if ByEmail(w.db, email).OneRow? {
        var row := AuditRow(ResetRequested, Some(ByEmail(w.db, email).id), None, true, w.clock);
        assert !IsFlagEvent(row.event);
      }
    case SetActive(_, _) =>
  }

  lemma VerifyFlags(w: World, token: Uuid)
    requires FlagsAgree(w)
    ensures FlagsAgree(Verify(w, token).world)
  {
    hide ByVerification;
    hide Refuse;
    hide FlagsAgree;
    match ByVerification(w.db, token)
    case ManyRows => SameKept(w, w); KeptAgrees(w, w);
    case NoRow =>
      RefuseKept(w, w, 400, VerificationFailure, None, None);
      KeptAgrees(w, Refuse(w, 400, VerificationFailure, None, None).world);
    case OneRow(u) => SetAgrees(w, Verify(w, token).world, u, VerificationSuccess);
  }

  lemma SetupFlags(w: World, token: Claims)
    requires FlagsAgree(w)
    ensures FlagsAgree(MfaSetup(w, token).world)
  {
    hide CurrentActiveUser;
    hide FlagsAgree;
    var caller := CurrentActiveUser(w, token);
    if caller.Active? {
      var row := AuditRow(MfaSetupStarted, Some(caller.user), None, true, w.clock);
      assert !IsFlagEvent(row.event);
    }
    KeptAgrees(w, MfaSetup(w, token).world);
  }

  lemma EnableFlags(cfg: Settings, w: World, token: Claims, code: string)
    requires FlagsAgree(w)
    ensures FlagsAgree(MfaVerify(cfg, w, token, code).world)
  {
    hide Refuse;
    hide CurrentActiveUser;
    hide FlagsAgree;
    var caller := CurrentActiveUser(w, token);
    SameKept(w, w);
    KeptAgrees(w, w);
    if caller.Active? {
      var u := caller.user;
      RefuseKept(w, w, 400, MfaVerifyFailure, Some(u), None);
      KeptAgrees(w, Refuse(w, 400, MfaVerifyFailure, Some(u), None).world);
      if u in w.db.mfa && !w.db.mfa[u].enabled && cfg.totp(w.db.mfa[u].secret, code, w.clock) {
        SetAgrees(w, MfaVerify(cfg, w, token, code).world, u, MfaEnabled);
      }
    }
  }

  lemma DisableFlags(cfg: Settings, w: World, token: Claims, code: string)
    requires FlagsAgree(w)
    ensures FlagsAgree(MfaDisable(cfg, w, token, code).world)
  {
    hide Refuse;
    hide CurrentActiveUser;
    hide FlagsAgree;
    var caller := CurrentActiveUser(w, token);
    SameKept(w, w);
    KeptAgrees(w, w);
    if caller.Active? {
      var u := caller.user;
      RefuseKept(w, w, 400, MfaDisableFailure, Some(u), None);
      KeptAgrees(w, Refuse(w, 400, MfaDisableFailure, Some(u), None).world);
      if u in w.db.mfa && w.db.mfa[u].enabled && cfg.totp(w.db.mfa[u].secret, code, w.clock) {
        SetAgrees(w, MfaDisable(cfg, w, token, code).world, u, MfaDisabled);
      }
    }
  }

  lemma RevokeSessionFlags(w: World, token: Claims, session: Uuid)
    requires FlagsAgree(w)
    ensures FlagsAgree(RevokeSession(w, token, session).world)
  {
    hide CurrentActiveUser;
    hide FlagsAgree;
    var caller := CurrentActiveUser(w, token);
    if caller.Active? {
      var row := AuditRow(SessionRevoked, Some(caller.user), None, true, w.clock);
      assert !IsFlagEvent(row.event);
    }
    KeptAgrees(w, RevokeSession(w, token, session).world);
  }

  lemma FlagsStep(cfg: Settings, w: World, req: Request)
    requires FlagsAgree(w) && AccountsSound(w)
    ensures FlagsAgree(Handle(cfg, w, req).world)
  {
    hide FlagsAgree;
    hide FlagsKept;
    hide UsersSound;
    hide ReferencesSound;
    match req
    case RegisterUser(email, password, breached) =>
      RegisterKept(cfg, w, email, password, breached);
      KeptAgrees(w, Register(cfg, w, email, password, breached).world);
    case LoginUser(email, password, ip) =>
      LoginKept(cfg, w, email, password, ip);
      KeptAgrees(w, Login(cfg, w, email, password, ip).world);
    case VerifyMfaChallenge(token, code) =>
      ExchangeKept(cfg, w, token, code);
      KeptAgrees(w, Challenge(cfg, w, token, code).world);
    case RefreshTokens(token) =>
      RefreshKept(cfg, w, token);
      KeptAgrees(w, Refresh(cfg, w, token).world);
    case ResetPassword(mailed, password, breached) =>
      ResetKept(w, mailed, password, breached);
      KeptAgrees(w, Reset(w, mailed, password, breached).world);
    case VerifyEmail(mailed) => VerifyFlags(w, mailed);
    case ResendVerification(_) => MailKept(cfg, w, req); KeptAgrees(w, Handle(cfg, w, req).world);
    case ForgotPassword(_) => MailKept(cfg, w, req); KeptAgrees(w, Handle(cfg, w, req).world);
    case SetActive(_, _) => MailKept(cfg, w, req); KeptAgrees(w, Handle(cfg, w, req).world);
    case SetupMfa(token) => SetupFlags(w, token);
    case VerifyMfaSetup(token, code) => EnableFlags(cfg, w, token, code);
    case DisableMfa(token, code) => DisableFlags(cfg, w, token, code);
    case DeleteSession(token, session) => RevokeSessionFlags(w, token, session);
  }

  // ---- The families ----

  function FamiliesOf(families: map<Uuid, Family>, u: Uuid): set<Uuid> {
    set f | f in families && families[f].owner == u
  }

  ghost predicate FamiliesAgree(w: World) {
    && (forall i | 0 <= i < |w.db.audit| ::
          && w.db.audit[i].createdAt <= w.clock
          && (w.db.audit[i].event == RefreshReuse ==>
                w.db.audit[i].family.Some? && w.db.audit[i].family.value in w.db.families))
    && (forall f | f in w.db.families ::
          var family := w.db.families[f];
          family.revoked == RevokedByLog(w.db.audit, f, family.owner, family.createdAt))
    && (forall u: Uuid :: |FamiliesOf(w.db.families, u)| == Openings(w.db.audit, u))
  }

  ghost predicate Ticked(w: World) {
    && (forall f | f in w.db.families :: w.db.families[f].createdAt < w.clock)
    && (forall i | 0 <= i < |w.db.audit| :: w.db.audit[i].createdAt < w.clock)
  }

  lemma {:induction false} NothingRevokesYet(audit: seq<AuditRow>, f: Uuid, owner: Uuid, createdAt: Time)
    requires forall i | 0 <= i < |audit| ::
               audit[i].createdAt <= createdAt && (audit[i].event == RefreshReuse ==> audit[i].family != Some(f))
    ensures !RevokedByLog(audit, f, owner, createdAt)
  {
    if audit != [] {
      NothingRevokesYet(audit[..|audit| - 1], f, owner, createdAt);
    }
  }

  lemma SameCounts(w: World, w': World)
    requires FamiliesAgree(w)
    requires w'.db.families.Keys == w.db.families.Keys
    requires forall f | f in w.db.families :: w'.db.families[f].owner == w.db.families[f].owner
    requires forall u: Uuid :: Openings(w'.db.audit, u) == Openings(w.db.audit, u)
    ensures forall u: Uuid :: |FamiliesOf(w'.db.families, u)| == Openings(w'.db.audit, u)
  {
    forall u: Uuid ensures |FamiliesOf(w'.db.families, u)| == Openings(w'.db.audit, u) {
      assert FamiliesOf(w'.db.families, u) == FamiliesOf(w.db.families, u);
    }
  }

  lemma KeptFamilies(cfg: Settings, w: World, req: Request, r: Result)
    requires FamiliesAgree(w) && Moves(cfg, w, req, r, Kept)
    ensures FamiliesAgree(r.world)
  {
    var w' := r.world;
    if w'.db.audit != w.db.audit {
      var row := w'.db.audit[|w.db.audit|];
      assert w'.db.audit == w.db.audit + [row];
      Append(w.db.audit, row);
    }
    SameCounts(w, w');
  }

  lemma OpenedFamilies(cfg: Settings, w: World, req: Request, r: Result, m: Move)
    requires FamiliesAgree(w) && FamiliesSound(w) && Ticked(w) && Moves(cfg, w, req, r, m) && m.Opened?
    ensures FamiliesAgree(r.world)
  {
    var w', row := r.world, AuditRow(m.event, Some(m.owner), None, true, w.clock);
    Append(w.db.audit, row);
    NothingRevokesYet(w.db.audit, m.family, m.owner, w.clock);
    forall u: Uuid ensures |FamiliesOf(w'.db.families, u)| == Openings(w'.db.audit, u) {
      OneMoreFamily(w.db.families, m.family, w'.db.families[m.family], u);
    }
  }

  lemma OneMoreFamily(families: map<Uuid, Family>, f: Uuid, family: Family, u: Uuid)
    requires f !in families
    ensures |FamiliesOf(families[f := family], u)| == |FamiliesOf(families, u)| + if family.owner == u then 1 else 0
  {
    if family.owner == u {
      assert FamiliesOf(families[f := family], u) == FamiliesOf(families, u) + {f};
    } else {
      assert FamiliesOf(families[f := family], u) == FamiliesOf(families, u);
    }
  }

  lemma ChangedFamilies(cfg: Settings, w: World, req: Request, r: Result, m: Move, row: AuditRow)
    requires FamiliesAgree(w) && Ticked(w) && Moves(cfg, w, req, r, m) && (m.Turned? || m.ReuseCaught? || m.OwnerReset?)
    requires r.world.db.audit == w.db.audit + [row]
    requires row.createdAt == w.clock && !IsOpening(row.event)
    requires match m
             case Turned(_, _, _) => row.event == RefreshSuccess
             case ReuseCaught(f) => row.event == RefreshReuse && row.family == Some(f)
             case OwnerReset(u) => row.event == ResetSuccess && row.user == Some(u)
    ensures FamiliesAgree(r.world)
  {
    Append(w.db.audit, row);
    SameCounts(w, r.world);
  }

  lemma FamiliesAgreeStep(cfg: Settings, w: World, req: Request, r: Result, m: Move)
    requires FamiliesAgree(w) && FamiliesSound(w) && Ticked(w) && Moves(cfg, w, req, r, m)
    ensures FamiliesAgree(r.world)
  {
    hide FamiliesAgree;
    hide FamiliesSound;
    hide Ticked;
    match m
    case Kept => KeptFamilies(cfg, w, req, r);
    case Opened(_, _, _, _) => OpenedFamilies(cfg, w, req, r, m);
    case Turned(f, spent, _) => ChangedFamilies(cfg, w, req, r, m,
      AuditRow(RefreshSuccess, spent.sub, Some(f), true, w.clock));
    case ReuseCaught(f) => ChangedFamilies(cfg, w, req, r, m,
      AuditRow(RefreshReuse, req.token.sub, Some(f), false, w.clock));
    case OwnerReset(u) => ChangedFamilies(cfg, w, req, r, m, AuditRow(ResetSuccess, Some(u), None, true, w.clock));
  }

  // ---- Main result ----

  ghost predicate Replays(w: World) {
    FlagsAgree(w) && FamiliesAgree(w)
  }

  lemma TickReplays(w: World, delay: nat)
    requires Replays(w) && FamiliesSound(w)
    ensures Replays(Tick(w, delay)) && Ticked(Tick(w, delay))
  {
  }

  lemma BootReplays()
    ensures Replays(START)
  {
    forall u: Uuid ensures |FamiliesOf(START.db.families, u)| == 0 {
      assert FamiliesOf(START.db.families, u) == {};
    }
  }

  /** The committed audit log replays to the state, in every run. */
  lemma {:induction false} AuditLogReplays(cfg: Settings, events: seq<Event>)
    ensures Replays(Run(cfg, BOOT, events).world)
  {
    hide FlagsAgree;
    hide FamiliesAgree;
    hide FamiliesSound;
    hide AccountsSound;
    hide Handle;
    hide Moves;
    if events == [] {
      BootReplays();
    } else {
      var before, e := events[..|events| - 1], events[|events| - 1];
      var t := Run(cfg, BOOT, before);
      AuditLogReplays(cfg, before);
      NoServerError(cfg, before);
      BootChains(cfg);
      RunChains(cfg, BOOT, before);
      TickReplays(t.world, e.delay);
      TickSound(t.world, e.delay);
      SoundTick(t.world, e.delay);
      var w := Tick(t.world, e.delay);
      FlagsStep(cfg, w, e.request);
      var m := Classify(cfg, w, e.request);
      FamiliesAgreeStep(cfg, w, e.request, Handle(cfg, w, e.request), m);
    }
  }
}
