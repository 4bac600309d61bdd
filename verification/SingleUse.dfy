/**
 When a refresh token, a mailed reset token or a mailed verification token is used more than once although each
 is meant for one use (app/services/auth_service.py:120-149, 309-358 and 524-574): under every schedule, exactly
 when a request decides to use it while another request that has decided so has yet to write.
 */
module SingleUse {
  import opened Prelude
  import opened PasswordPolicy
  import opened AuthState
  import opened AuthSpec
  import opened FamilyMoves
  import opened RefreshRace
  import opened RaceSafety
  import opened TokenColumns

  /** What a request uses up. */
  datatype Secret = RefreshSecret(token: Claims) | MailedSecret(kind: MailKind, mailed: Uuid)

  function Presented(req: Request): Option<Secret> {
    match req
    case RefreshTokens(token) => Some(RefreshSecret(token))
    case ResetPassword(mailed, _, _) => Some(MailedSecret(ResetMail, mailed))
    case VerifyEmail(mailed) => Some(MailedSecret(VerifyMail, mailed))
    case _ => None
  }

  /** What a move presents to a new request. */
  function PresentedBy(m: RefreshRace.Move): Option<Secret> {
    match m
    case Whole(e) => Presented(e.request)
    case ReadRefresh(_, _, token) => Some(RefreshSecret(token))
    case ReadReset(_, _, mailed, _, _) => Some(MailedSecret(ResetMail, mailed))
    case ReadVerify(_, _, mailed) => Some(MailedSecret(VerifyMail, mailed))
    case Write(_, _) => None
  }

  /** The secret that a job will use up; a revocation uses none. */
  function JobSecret(job: Job): Option<Secret> {
    match job
    case RotateJob(_, _, spent, _, _, _) => Some(RefreshSecret(spent))
    case ResetJob(_, mailed, _, _, _) => Some(MailedSecret(ResetMail, mailed))
    case VerifyJob(_, mailed, _) => Some(MailedSecret(VerifyMail, mailed))
    case RevokeJob(_, _, _, _) => None
  }

  /** The exchange accepted the secret. */
  predicate UsedIn(x: Exchange, s: Secret) {
    x.reply.Returned? && Presented(x.request) == Some(s)
  }

  /** How many exchanges accepted the secret, as clients saw them. */
  function Uses(log: seq<Exchange>, s: Secret): nat {
    if log == [] then 0
    else
      Uses(log[..|log| - 1], s) + (if UsedIn(log[|log| - 1], s) then 1 else 0)
  }

  /** The requests that have decided to use the secret and have yet to write. */
  function Pending(r: Race, s: Secret): set<nat> {
    set id | id in r.jobs && JobSecret(r.jobs[id]) == Some(s)
  }

  predicate InFlight(r: Race, s: Secret) {
    Pending(r, s) != {}
  }

  function DecidedSecret(d: Decision): Option<Secret> {
    match d
    case AtOnce(_) => None
    case Later(job) => JobSecret(job)
  }

  /** The secret that a move decides to use. */
  function Decides(cfg: Settings, r: Race, m: RefreshRace.Move): Option<Secret> {
    match m
    case Whole(e) => if Step(cfg, r.world, e).reply.Returned? then Presented(e.request) else None
    case ReadRefresh(id, delay, token) =>
      if id in r.jobs then None else DecidedSecret(DecideRefresh(cfg, Tick(r.world, delay), token))
    case ReadReset(id, delay, mailed, password, breached) =>
      if id in r.jobs then None else DecidedSecret(DecideReset(Tick(r.world, delay), mailed, password, breached))
    case ReadVerify(id, delay, mailed) =>
      if id in r.jobs then None else DecidedSecret(DecideVerify(Tick(r.world, delay), mailed))
    case Write(_, _) => None
  }

  /** Some request decided to use the secret while another one's use of it was in flight. */
  ghost predicate Overlapped(cfg: Settings, moves: seq<RefreshRace.Move>, s: Secret) {
    exists k | 0 <= k < |moves| :: OverlapAt(cfg, moves, s, k)
  }

  ghost predicate OverlapAt(cfg: Settings, moves: seq<RefreshRace.Move>, s: Secret, k: nat)
    requires k < |moves|
  {
    var r := Play(cfg, IDLE, moves[..k]);
    Decides(cfg, r, moves[k]) == Some(s) && InFlight(r, s)
  }

  // ---- Every decision is pending or used ----

  function Started(r: Race, s: Secret): nat {
    Uses(r.log, s) + |Pending(r, s)|
  }

  lemma UsesAppend(log: seq<Exchange>, x: Exchange, s: Secret)
    ensures Uses(log + [x], s) == Uses(log, s) + (if UsedIn(x, s) then 1 else 0)
  {
    assert (log + [x])[..|log|] == log;
  }

  lemma {:induction false} UsesOnce(log: seq<Exchange>, s: Secret)
    ensures Uses(log, s) > 0 <==> exists i :: 0 <= i < |log| && UsedIn(log[i], s)
  {
    hide UsedIn;
    if log != [] {
      var n := |log| - 1;
      UsesOnce(log[..n], s);
      if Uses(log[..n], s) > 0 {
        var i :| 0 <= i < n && UsedIn(log[..n][i], s);
        assert log[i] == log[..n][i];
      }
      if i :| 0 <= i < n && UsedIn(log[i], s) {
        assert log[..n][i] == log[i];
      }
    }
  }

  /** Two uses are two entries of the transcript. */
  lemma {:induction false} UsesTwice(log: seq<Exchange>, s: Secret)
    ensures Uses(log, s) >= 2 <==> exists i, j :: 0 <= i < j < |log| && UsedIn(log[i], s) && UsedIn(log[j], s)
  {
    hide UsedIn;
    if log != [] {
      var n := |log| - 1;
      UsesTwice(log[..n], s);
      UsesOnce(log[..n], s);
      if Uses(log[..n], s) >= 2 {
        var i, j :| 0 <= i < j < n && UsedIn(log[..n][i], s) && UsedIn(log[..n][j], s);
        assert log[i] == log[..n][i] && log[j] == log[..n][j];
      } else if Uses(log, s) >= 2 {
        var i :| 0 <= i < n && UsedIn(log[..n][i], s);
        assert log[i] == log[..n][i];
      }
      if i, j :| 0 <= i < j < |log| && UsedIn(log[i], s) && UsedIn(log[j], s) {
        assert log[..n][i] == log[i];
        if j < n {
          assert log[..n][j] == log[j];
        }
      }
    }
  }

  lemma PendingAdded(r: Race, w: World, id: nat, job: Job, s: Secret)
    requires id !in r.jobs
    ensures Started(Race(w, r.jobs[id := job], r.log), s) == Started(r, s)
            + (if JobSecret(job) == Some(s) then 1 else 0)
  {
    hide JobSecret;
    hide Uses;
    var r' := Race(w, r.jobs[id := job], r.log);
    if JobSecret(job) == Some(s) {
      assert Pending(r', s) == Pending(r, s) + {id};
    } else {
      assert Pending(r', s) == Pending(r, s);
    }
  }

  lemma PendingRemoved(r: Race, w: World, id: nat, x: Exchange, s: Secret)
    requires id in r.jobs
    requires UsedIn(x, s) <==> JobSecret(r.jobs[id]) == Some(s)
    ensures Started(Race(w, r.jobs - {id}, r.log + [x]), s) == Started(r, s)
  {
    hide JobSecret;
    hide UsedIn;
    hide Uses;
    var r' := Race(w, r.jobs - {id}, r.log + [x]);
    UsesAppend(r.log, x, s);
    if JobSecret(r.jobs[id]) == Some(s) {
      assert Pending(r, s) == Pending(r', s) + {id};
    } else {
      assert Pending(r', s) == Pending(r, s);
    }
  }

  lemma FinishedAtOnce(r: Race, w: World, req: Request, result: Result, s: Secret)
    ensures Started(Finish(r, w, req, result), s)
            == Started(r, s) + (if result.reply.Returned? && Presented(req) == Some(s) then 1 else 0)
  {
    hide JobSecret;
    hide Presented;
    hide Uses;
    UsesAppend(r.log, Exchange(w.clock, req, result.reply), s);
    assert Pending(Finish(r, w, req, result), s) == Pending(r, s);
  }

  lemma ResetReads(w: World, mailed: Uuid, password: string, breached: bool)
    ensures match DecideReset(w, mailed, password, breached)
            case AtOnce(result) => result.reply.Raised?
            case Later(job) => job.ResetJob? && job.mailed == mailed
                               && job.user in w.db.users && w.db.users[job.user].reset == Some(Sha256(mailed))
  {
    hide ByReset;
    hide Acceptable;
    hide Refuse;
  }

  lemma VerifyReads(w: World, mailed: Uuid)
    ensures match DecideVerify(w, mailed)
            case AtOnce(result) => result.reply.Raised?
            case Later(job) => job.VerifyJob? && job.mailed == mailed
                               && job.user in w.db.users && w.db.users[job.user].verification == Some(Sha256(mailed))
  {
    hide ByVerification;
    hide Refuse;
  }

  /** A move starts a use of the secret exactly when it decides to; a write turns a pending use into an exchange. */
  lemma StartedStep(cfg: Settings, r: Race, m: RefreshRace.Move, s: Secret)
    ensures Started(Next(cfg, r, m), s) == Started(r, s) + (if Decides(cfg, r, m) == Some(s) then 1 else 0)
  {
    hide Started;
    hide Step;
    hide DecideRefresh;
    hide DecideReset;
    hide DecideVerify;
    match m
    case Whole(e) => FinishedAtOnce(r, Tick(r.world, e.delay), e.request, Step(cfg, r.world, e), s);
    case ReadRefresh(id, delay, token) =>
      if id !in r.jobs {
        var w := Tick(r.world, delay);
        DecidedRefresh(cfg, w, token);
        ReadStarts(r, w, id, RefreshTokens(token), DecideRefresh(cfg, w, token), s);
      }
    case ReadReset(id, delay, mailed, password, breached) =>
      if id !in r.jobs {
        var w := Tick(r.world, delay);
        ResetReads(w, mailed, password, breached);
        ReadStarts(r, w, id, ResetPassword(mailed, password, breached), DecideReset(w, mailed, password, breached), s);
      }
    case ReadVerify(id, delay, mailed) =>
      if id !in r.jobs {
        var w := Tick(r.world, delay);
        VerifyReads(w, mailed);
        ReadStarts(r, w, id, VerifyEmail(mailed), DecideVerify(w, mailed), s);
      }
    case Write(id, pause) =>
      if id in r.jobs && Writable(r.world, r.jobs[id]) {
        hide Apply;
        var w := r.world.(clock := r.world.clock + pause);
        var (req, reply) := Answer(r.jobs[id]);
        PendingRemoved(r, Apply(w, r.jobs[id]), id, Exchange(w.clock, req, reply), s);
      }
  }

  lemma ReadStarts(r: Race, w: World, id: nat, req: Request, d: Decision, s: Secret)
    requires id !in r.jobs && (d.AtOnce? ==> d.result.reply.Raised?)
    ensures Started(Start(r, w, id, req, d), s) == Started(r, s) + (if DecidedSecret(d) == Some(s) then 1 else 0)
  {
    hide Started;
    match d
    case AtOnce(result) => FinishedAtOnce(r, w, req, result, s);
    case Later(job) => PendingAdded(r, if job.RotateJob? then w.(nextId := w.nextId + 1) else w, id, job, s);
  }

  // ---- What has been used cannot be decided on again ----

  ghost predicate Gone(w: World, s: Secret) {
    match s
    case RefreshSecret(token) => Overwritten(w, token)
    case MailedSecret(kind, mailed) => Spent(w, kind, mailed)
  }

  /** What a pending job will use up has been handed out, a mailed token to its user alone. */
  ghost predicate JobBacked(w: World, job: Job) {
    match job
    case RotateJob(_, _, spent, _, _, _) => spent in w.minted && spent.kind == RefreshToken
    case ResetJob(user, mailed, _, _, _) => HeldBy(w, ResetMail, mailed, user)
    case VerifyJob(user, mailed, _) => HeldBy(w, VerifyMail, mailed, user)
    case RevokeJob(_, _, _, _) => true
  }

  ghost predicate Backed(r: Race) {
    && RaceSound(r) && ColumnSound(r.world, ResetMail) && ColumnSound(r.world, VerifyMail)
    && forall id | id in r.jobs :: JobBacked(r.world, r.jobs[id])
  }

  lemma KindSound(r: Race, kind: MailKind)
    requires Backed(r)
    ensures ColumnSound(r.world, kind)
  {
    match kind
    case ResetMail =>
    case VerifyMail =>
  }

  lemma ReadsKeepUsers(cfg: Settings, r: Race, m: RefreshRace.Move)
    requires m.ReadRefresh? || m.ReadReset? || m.ReadVerify?
    ensures var w' := Next(cfg, r, m).world; w'.db.users == r.world.db.users && r.world.nextId <= w'.nextId
  {
    hide DecideRefresh;
    hide DecideReset;
    hide DecideVerify;
    match m
    case ReadRefresh(_, delay, token) => DecidedRefresh(cfg, Tick(r.world, delay), token);
    case ReadReset(_, delay, mailed, password, breached) =>
      RefusedReset(Tick(r.world, delay), mailed, password, breached);
    case ReadVerify(_, delay, mailed) => RefusedVerify(Tick(r.world, delay), mailed);
  }

  lemma RefusedReset(w: World, mailed: Uuid, password: string, breached: bool)
    ensures match DecideReset(w, mailed, password, breached)
            case AtOnce(result) => result.world == w.(db := w.db.(audit := result.world.db.audit))
            case Later(job) => job.ResetJob?
  {
    hide ByReset;
    hide Acceptable;
    hide Refuse;
    RefuseShape(w, 400, ResetFailure, None, None);
    if ByReset(w.db, mailed).OneRow? {
      RefuseShape(w, 400, ResetFailure, Some(ByReset(w.db, mailed).id), None);
    }
  }

  lemma RefusedVerify(w: World, mailed: Uuid)
    ensures match DecideVerify(w, mailed)
            case AtOnce(result) => result.world == w.(db := w.db.(audit := result.world.db.audit))
            case Later(job) => job.VerifyJob?
  {
    hide ByVerification;
    hide Refuse;
    RefuseShape(w, 400, VerificationFailure, None, None);
  }

  lemma WriteColumn(r: Race, id: nat, pause: nat, kind: MailKind)
    requires ColumnSound(r.world, kind) && id in r.jobs && Writable(r.world, r.jobs[id])
    ensures ColumnFrom(r.world, Apply(r.world.(clock := r.world.clock + pause), r.jobs[id]), kind)
  {
    hide ColumnSound;
    hide ColumnFrom;
    hide RevokeFamiliesOf;
    var job, w' := r.jobs[id], Apply(r.world.(clock := r.world.clock + pause), r.jobs[id]);
    if job.ResetJob? || job.VerifyJob? {
      RowChanged(r.world, w', kind, job.user);
    } else {
      SameColumn(r.world, w', kind);
    }
  }

  lemma TickColumn(w: World, delay: nat, w': World, kind: MailKind)
    requires ColumnSound(w, kind)
    ensures ColumnSound(Tick(w, delay), kind)
    ensures ColumnFrom(Tick(w, delay), w', kind) ==> ColumnFrom(w, w', kind)
  {
  }

  /** What every move does to the stored tokens of a kind. */
  lemma NextColumn(cfg: Settings, r: Race, m: RefreshRace.Move, kind: MailKind)
    requires ColumnSound(r.world, kind)
    ensures ColumnFrom(r.world, Next(cfg, r, m).world, kind)
  {
    hide ColumnSound;
    hide ColumnFrom;
    hide Handle;
    hide Apply;
    hide Start;
    hide DecideRefresh;
    hide DecideReset;
    hide DecideVerify;
    var w' := Next(cfg, r, m).world;
    match m
    case Whole(e) =>
      TickColumn(r.world, e.delay, w', kind);
      HandleColumn(cfg, Tick(r.world, e.delay), e.request, kind);
    case Write(id, pause) =>
      if id in r.jobs && Writable(r.world, r.jobs[id]) {
        WriteColumn(r, id, pause, kind);
      } else {
        SameColumn(r.world, w', kind);
      }
    case _ =>
      ReadsKeepUsers(cfg, r, m);
      SameColumn(r.world, w', kind);
  }

  /** A job that a read leaves behind is backed. */
  lemma ReadBacked(cfg: Settings, r: Race, m: RefreshRace.Move, id: nat)
    requires Backed(r) && id !in r.jobs && id in Next(cfg, r, m).jobs
    ensures var r' := Next(cfg, r, m); JobBacked(r'.world, r'.jobs[id])
  {
    hide RaceSound;
    hide ColumnSound;
    hide Step;
    hide HeldBy;
    hide Refuse;
    hide ByReset;
    hide ByVerification;
    hide Acceptable;
    match m
    case ReadReset(_, delay, mailed, password, breached) =>
      ResetReads(Tick(r.world, delay), mailed, password, breached);
      TickColumn(r.world, delay, r.world, ResetMail);
      var u := ByReset(Tick(r.world, delay).db, mailed).id;
      StoredIsHeld(Tick(r.world, delay), ResetMail, mailed, u);
    case ReadVerify(_, delay, mailed) =>
      VerifyReads(Tick(r.world, delay), mailed);
      TickColumn(r.world, delay, r.world, VerifyMail);
      var u := ByVerification(Tick(r.world, delay).db, mailed).id;
      StoredIsHeld(Tick(r.world, delay), VerifyMail, mailed, u);
    case _ =>
  }

  lemma JobBackedStep(w: World, w': World, job: Job)
    requires JobBacked(w, job) && w.minted <= w'.minted
    requires ColumnFrom(w, w', ResetMail) && ColumnFrom(w, w', VerifyMail)
    ensures JobBacked(w', job)
  {
    hide HeldBy;
    hide ColumnFrom;
    match job
    case ResetJob(user, mailed, _, _, _) => HeldByStep(w, w', ResetMail, mailed, user);
    case VerifyJob(user, mailed, _) => HeldByStep(w, w', VerifyMail, mailed, user);
    case _ =>
  }

  lemma OldJobs(cfg: Settings, r: Race, m: RefreshRace.Move, id: nat)
    requires id in r.jobs && id in Next(cfg, r, m).jobs
    ensures Next(cfg, r, m).jobs[id] == r.jobs[id]
  {
    hide Step;
    hide Apply;
    hide DecideRefresh;
    hide DecideReset;
    hide DecideVerify;
  }

  lemma BackedStep(cfg: Settings, r: Race, m: RefreshRace.Move)
    requires Backed(r)
    ensures Backed(Next(cfg, r, m))
  {
    hide Next;
    hide RaceSound;
    hide ColumnSound;
    hide ColumnFrom;
    hide JobBacked;
    hide TokenStep;
    var r' := Next(cfg, r, m);
    NextTransition(cfg, r, m);
    NextColumn(cfg, r, m, ResetMail);
    NextColumn(cfg, r, m, VerifyMail);
    ColumnSoundStep(r.world, r'.world, ResetMail);
    ColumnSoundStep(r.world, r'.world, VerifyMail);
    forall id | id in r'.jobs ensures JobBacked(r'.world, r'.jobs[id]) {
      if id in r.jobs {
        OldJobs(cfg, r, m, id);
        JobBackedStep(r.world, r'.world, r.jobs[id]);
      } else {
        ReadBacked(cfg, r, m, id);
      }
    }
  }

  // ---- At most one use until two are in flight ----

  lemma GoneStep(cfg: Settings, r: Race, m: RefreshRace.Move, s: Secret)
    requires Backed(r) && Gone(r.world, s)
    ensures Gone(Next(cfg, r, m).world, s)
  {
    hide Next;
    hide RaceSound;
    hide ColumnFrom;
    var r' := Next(cfg, r, m);
    match s
    case RefreshSecret(token) =>
      NextTransition(cfg, r, m);
      OverwrittenStep(r.world, r'.world, Given(r, r'), token);
    case MailedSecret(kind, mailed) =>
      KindSound(r, kind);
      NextColumn(cfg, r, m, kind);
      SpentStep(r.world, r'.world, kind, mailed);
  }

  lemma GoneRefuses(cfg: Settings, r: Race, m: RefreshRace.Move, s: Secret)
    requires Gone(r.world, s)
    ensures Decides(cfg, r, m) != Some(s)
  {
    match m
    case Whole(e) =>
      if Presented(e.request) == Some(s) {
        GoneAnswer(cfg, Tick(r.world, e.delay), e.request, s);
      }
    case ReadRefresh(id, delay, token) =>
      hide Refuse;
    case ReadReset(id, delay, mailed, password, breached) =>
      hide Refuse;
      hide Acceptable;
    case ReadVerify(id, delay, mailed) =>
      hide Refuse;
    case Write(_, _) =>
  }

  lemma GoneAnswer(cfg: Settings, w: World, req: Request, s: Secret)
    requires Gone(w, s) && Presented(req) == Some(s)
    ensures Handle(cfg, w, req).reply.Raised?
  {
    hide Refuse;
    hide Acceptable;
    match req
    case RefreshTokens(token) => RefuseRaises(w, token.sub, token.family);
    case ResetPassword(_, _, _) =>
    case VerifyEmail(_) =>
  }

  lemma RefuseRaises(w: World, user: Option<Uuid>, family: Option<Uuid>)
    ensures Refuse(w, 401, RefreshFailure, user, family).reply.Raised?
  {
  }

  lemma RotatedGone(cfg: Settings, r: Race, e: Event, token: Claims)
    requires RaceSound(r) && e.request == RefreshTokens(token) && Step(cfg, r.world, e).reply.Returned?
    ensures Overwritten(Step(cfg, r.world, e).world, token)
  {
    hide Handle;
    var w := Tick(r.world, e.delay);
    var m := Classify(cfg, w, e.request);
    assert m.Turned?;
    assert Known(r.world, token);
  }

  lemma ResetGone(w: World, mailed: Uuid, password: string, breached: bool)
    requires ColumnSound(w, ResetMail) && Reset(w, mailed, password, breached).reply.Returned?
    ensures Spent(Reset(w, mailed, password, breached).world, ResetMail, mailed)
  {
    hide ByReset;
    hide Acceptable;
    hide RevokeFamiliesOf;
    hide ColumnSound;
    hide HeldBy;
    hide Spent;
    var u := ByReset(w.db, mailed).id;
    StoredIsHeld(w, ResetMail, mailed, u);
    DroppedIsSpent(w, Reset(w, mailed, password, breached).world, ResetMail, mailed, u);
  }

  lemma VerifyGone(w: World, mailed: Uuid)
    requires ColumnSound(w, VerifyMail) && Verify(w, mailed).reply.Returned?
    ensures Spent(Verify(w, mailed).world, VerifyMail, mailed)
  {
    hide ByVerification;
    hide ColumnSound;
    hide HeldBy;
    hide Spent;
    var u := ByVerification(w.db, mailed).id;
    StoredIsHeld(w, VerifyMail, mailed, u);
    DroppedIsSpent(w, Verify(w, mailed).world, VerifyMail, mailed, u);
  }

  lemma WrittenGone(r: Race, id: nat, pause: nat, s: Secret)
    requires Backed(r) && id in r.jobs && Writable(r.world, r.jobs[id]) && JobSecret(r.jobs[id]) == Some(s)
    ensures Gone(Apply(r.world.(clock := r.world.clock + pause), r.jobs[id]), s)
  {
    hide RevokeFamiliesOf;
    hide ColumnSound;
    hide Spent;
    hide HeldBy;
    var job, w' := r.jobs[id], Apply(r.world.(clock := r.world.clock + pause), r.jobs[id]);
    assert JobBacked(r.world, job) && JobSound(r.world, job);
    match job
    case RotateJob(f, _, spent, _, _, _) => assert Known(r.world, spent);
    case ResetJob(user, mailed, _, _, _) => DroppedIsSpent(r.world, w', ResetMail, mailed, user);
    case VerifyJob(user, mailed, _) => DroppedIsSpent(r.world, w', VerifyMail, mailed, user);
  }

  /** A use that has just been answered leaves the secret gone. */
  lemma UsedGone(cfg: Settings, r: Race, m: RefreshRace.Move, s: Secret)
    requires Backed(r) && Uses(Next(cfg, r, m).log, s) != Uses(r.log, s)
    ensures Gone(Next(cfg, r, m).world, s)
  {
    hide RaceSound;
    hide ColumnSound;
    hide JobBacked;
    hide Handle;
    hide DecideRefresh;
    hide DecideReset;
    hide DecideVerify;
    hide Apply;
    hide Gone;
    hide Uses;
    match m
    case Whole(e) => WholeGone(cfg, r, e, s);
    case ReadRefresh(id, delay, token) =>
      if id !in r.jobs {
        DecidedRefresh(cfg, Tick(r.world, delay), token);
        RaisedUnused(r, Tick(r.world, delay), RefreshTokens(token), DecideRefresh(cfg, Tick(r.world, delay), token), s);
      }
    case ReadReset(id, delay, mailed, password, breached) =>
      if id !in r.jobs {
        var w := Tick(r.world, delay);
        ResetReads(w, mailed, password, breached);
        RaisedUnused(r, w, ResetPassword(mailed, password, breached), DecideReset(w, mailed, password, breached), s);
      }
    case ReadVerify(id, delay, mailed) =>
      if id !in r.jobs {
        var w := Tick(r.world, delay);
        VerifyReads(w, mailed);
        RaisedUnused(r, w, VerifyEmail(mailed), DecideVerify(w, mailed), s);
      }
    case Write(id, pause) =>
      if id in r.jobs && Writable(r.world, r.jobs[id]) {
        var (req, reply) := Answer(r.jobs[id]);
        UsesAppend(r.log, Exchange(r.world.clock + pause, req, reply), s);
        WrittenGone(r, id, pause, s);
      }
  }

  lemma RaisedUnused(r: Race, w: World, req: Request, d: Decision, s: Secret)
    requires d.AtOnce? ==> d.result.reply.Raised?
    ensures d.AtOnce? ==> Uses(Finish(r, w, req, d.result).log, s) == Uses(r.log, s)
  {
    if d.AtOnce? {
      UsesAppend(r.log, Exchange(w.clock, req, d.result.reply), s);
    }
  }

  lemma WholeGone(cfg: Settings, r: Race, e: Event, s: Secret)
    requires Backed(r) && Uses(Next(cfg, r, Whole(e)).log, s) != Uses(r.log, s)
    ensures Gone(Next(cfg, r, Whole(e)).world, s)
  {
    hide RaceSound;
    hide ColumnSound;
    hide JobBacked;
    hide Reset;
    hide Verify;
    hide Refresh;
    hide Uses;
    hide Spent;
    hide Overwritten;
    var w := Tick(r.world, e.delay);
    UsesAppend(r.log, Exchange(w.clock, e.request, Step(cfg, r.world, e).reply), s);
    match s
    case RefreshSecret(token) => RotatedGone(cfg, r, e, token);
    case MailedSecret(kind, mailed) =>
      KindSound(r, kind);
      TickColumn(r.world, e.delay, w, kind);
      match kind
      case ResetMail => ResetGone(w, mailed, e.request.password, e.request.breached);
      case VerifyMail => VerifyGone(w, mailed);
  }

  lemma IdleBacked()
    ensures Backed(IDLE)
  {
  }

  /** Under every schedule, what has been used is gone. */
  lemma {:induction false} PlayGone(cfg: Settings, moves: seq<RefreshRace.Move>, s: Secret)
    ensures var r := Play(cfg, IDLE, moves);
            Backed(r) && (Uses(r.log, s) > 0 ==> Gone(r.world, s))
  {
    hide Next;
    hide Backed;
    hide Gone;
    hide Uses;
    if moves == [] {
      IdleBacked();
      NoUses(s);
    } else {
      var n := |moves| - 1;
      var r := Play(cfg, IDLE, moves[..n]);
      PlayGone(cfg, moves[..n], s);
      BackedStep(cfg, r, moves[n]);
      if Uses(Next(cfg, r, moves[n]).log, s) != Uses(r.log, s) {
        UsedGone(cfg, r, moves[n], s);
      } else if Uses(r.log, s) > 0 {
        GoneStep(cfg, r, moves[n], s);
      }
    }
  }

  lemma NoUses(s: Secret)
    ensures Uses([], s) == 0 && Pending(IDLE, s) == {}
  {
  }

  /** More than one use is answered or in flight exactly when two overlapped. */
  lemma {:induction false} StartedIff(cfg: Settings, moves: seq<RefreshRace.Move>, s: Secret)
    ensures Started(Play(cfg, IDLE, moves), s) >= 2 <==> Overlapped(cfg, moves, s)
  {
    hide Next;
    hide Decides;
    hide Pending;
    hide Uses;
    hide Gone;
    hide Backed;
    if moves == [] {
      NoUses(s);
    } else {
      var n := |moves| - 1;
      var before, r := moves[..n], Play(cfg, IDLE, moves[..n]);
      StartedIff(cfg, before, s);
      StartedStep(cfg, r, moves[n], s);
      OverlappedStep(cfg, moves, s);
      if Decides(cfg, r, moves[n]) == Some(s) {
        PlayGone(cfg, before, s);
        if Uses(r.log, s) > 0 {
          GoneRefuses(cfg, r, moves[n], s);
        }
        assert Pending(r, s) == {} <==> |Pending(r, s)| == 0;
      }
    }
  }

  lemma OverlappedStep(cfg: Settings, moves: seq<RefreshRace.Move>, s: Secret)
    requires moves != []
    ensures Overlapped(cfg, moves, s)
            <==> Overlapped(cfg, moves[..|moves| - 1], s) || OverlapAt(cfg, moves, s, |moves| - 1)
  {
    hide Decides;
    hide InFlight;
    hide Play;
    var n := |moves| - 1;
    forall k | 0 <= k < n ensures OverlapAt(cfg, moves, s, k) <==> OverlapAt(cfg, moves[..n], s, k) {
      assert moves[..n][..k] == moves[..k];
    }
  }

  // ---- Letting the pending writes happen ----

  predicate AllWrites(moves: seq<RefreshRace.Move>) {
    forall m | m in moves :: m.Write?
  }

  lemma {:induction false} WritesStartNothing(cfg: Settings, r: Race, writes: seq<RefreshRace.Move>, s: Secret)
    requires AllWrites(writes)
    ensures Started(Play(cfg, r, writes), s) == Started(r, s)
  {
    hide Next;
    hide Started;
    if writes != [] {
      var n := |writes| - 1;
      assert writes[n] in writes && forall m | m in writes[..n] :: m in writes;
      WritesStartNothing(cfg, r, writes[..n], s);
      StartedStep(cfg, Play(cfg, r, writes[..n]), writes[n], s);
    }
  }

  /** From any state, letting every pending use of the token happen adds exactly that many accepted uses. */
  lemma {:induction false} WritesUseUp(cfg: Settings, r: Race, writes: seq<RefreshRace.Move>, s: Secret)
    requires AllWrites(writes) && Pending(Play(cfg, r, writes), s) == {}
    ensures Uses(Play(cfg, r, writes).log, s) == Uses(r.log, s) + |Pending(r, s)|
  {
    hide Play;
    hide Uses;
    hide Pending;
    WritesStartNothing(cfg, r, writes, s);
  }

  lemma BackedWritable(r: Race, id: nat)
    requires Backed(r) && id in r.jobs
    ensures Writable(r.world, r.jobs[id])
  {
    assert JobSound(r.world, r.jobs[id]) && JobBacked(r.world, r.jobs[id]);
  }

  /** Whatever is pending can be written. */
  lemma {:induction false} FinishWrites(cfg: Settings, r: Race, s: Secret) returns (writes: seq<RefreshRace.Move>)
    requires Backed(r)
    ensures AllWrites(writes) && Pending(Play(cfg, r, writes), s) == {}
    decreases |Pending(r, s)|
  {
    hide Backed;
    if Pending(r, s) == {} {
      writes := [];
    } else {
      var id :| id in Pending(r, s);
      var m := Write(id, 0);
      var r1 := Next(cfg, r, m);
      BackedWritable(r, id);
      assert Pending(r1, s) == Pending(r, s) - {id};
      BackedStep(cfg, r, m);
      var rest := FinishWrites(cfg, r1, s);
      writes := [m] + rest;
      PlayConcat(cfg, r, [m], rest);
      PlayTwo(cfg, r, m, m);
    }
  }

  // ---- Main results ----

  /**
   When a token is used more than once. After every schedule, letting the pending writes happen - with any
   pauses, in any order - leaves more than one accepted use exactly when some request decided to use the token
   while another one's use of it was in flight; and there always are such writes.
   */
  lemma {:induction false} SingleUseIff(cfg: Settings, moves: seq<RefreshRace.Move>, s: Secret)
    ensures var r := Play(cfg, IDLE, moves);
            && (exists writes :: AllWrites(writes) && Pending(Play(cfg, r, writes), s) == {})
            && forall writes | AllWrites(writes) && Pending(Play(cfg, r, writes), s) == {} ::
                 Uses(Play(cfg, r, writes).log, s) >= 2 <==> Overlapped(cfg, moves, s)
  {
    hide Play;
    hide Backed;
    hide Gone;
    hide Pending;
    hide Uses;
    hide Overlapped;
    var r := Play(cfg, IDLE, moves);
    PlayGone(cfg, moves, s);
    StartedIff(cfg, moves, s);
    var finish := FinishWrites(cfg, r, s);
    forall writes | AllWrites(writes) && Pending(Play(cfg, r, writes), s) == {}
      ensures Uses(Play(cfg, r, writes).log, s) >= 2 <==> Overlapped(cfg, moves, s)
    {
      WritesStartNothing(cfg, r, writes, s);
    }
  }

  /**
   The guard on one request. As long as no uses of the token have overlapped, a request that decides to use it
   makes two accepted uses possible exactly when another one's use of it is in flight.
   */
  lemma {:induction false} GuardIff(cfg: Settings, moves: seq<RefreshRace.Move>, m: RefreshRace.Move, s: Secret)
    requires !Overlapped(cfg, moves, s) && Decides(cfg, Play(cfg, IDLE, moves), m) == Some(s)
    ensures var r := Play(cfg, IDLE, moves);
            InFlight(r, s) <==>
              exists writes :: AllWrites(writes) && Uses(Play(cfg, Next(cfg, r, m), writes).log, s) >= 2
  {
    hide Next;
    hide Backed;
    hide Gone;
    hide Decides;
    hide Uses;
    hide Pending;
    hide Overlapped;
    hide OverlapAt;
    var all, r := moves + [m], Play(cfg, IDLE, moves);
    assert all[..|all| - 1] == moves;
    OverlappedStep(cfg, all, s);
    assert OverlapAt(cfg, all, s, |moves|) <==> InFlight(r, s) by {
      OverlapAtLast(cfg, moves, m, s);
    }
    SingleUseIff(cfg, all, s);
    StartedIff(cfg, all, s);
    forall writes | AllWrites(writes) && Uses(Play(cfg, Next(cfg, r, m), writes).log, s) >= 2
      ensures Overlapped(cfg, all, s)
    {
      WritesStartNothing(cfg, Next(cfg, r, m), writes, s);
    }
  }

  lemma OverlapAtLast(cfg: Settings, moves: seq<RefreshRace.Move>, m: RefreshRace.Move, s: Secret)
    ensures OverlapAt(cfg, moves + [m], s, |moves|)
            <==> Decides(cfg, Play(cfg, IDLE, moves), m) == Some(s) && InFlight(Play(cfg, IDLE, moves), s)
  {
    hide Play;
    hide Decides;
    hide InFlight;
    assert (moves + [m])[..|moves|] == moves;
  }

  /**
   What a client can do about it: a token that is never presented while a use of it is in flight is used at
   most once, under every schedule of everything else.
   */
  lemma {:induction false} OneAtATime(cfg: Settings, moves: seq<RefreshRace.Move>, s: Secret)
    requires forall k | 0 <= k < |moves| && PresentedBy(moves[k]) == Some(s) ::
               !InFlight(Play(cfg, IDLE, moves[..k]), s)
    ensures Uses(Play(cfg, IDLE, moves).log, s) <= 1
  {
    hide Play;
    hide Uses;
    hide InFlight;
    StartedIff(cfg, moves, s);
    forall k | 0 <= k < |moves| ensures !OverlapAt(cfg, moves, s, k) {
      DecidesPresented(cfg, Play(cfg, IDLE, moves[..k]), moves[k], s);
    }
  }

  lemma DecidesPresented(cfg: Settings, r: Race, m: RefreshRace.Move, s: Secret)
    ensures Decides(cfg, r, m) == Some(s) ==> PresentedBy(m) == Some(s)
  {
    hide Step;
    hide DecideRefresh;
    hide DecideReset;
    hide DecideVerify;
    match m
    case ReadRefresh(id, delay, token) => DecidedRefresh(cfg, Tick(r.world, delay), token);
    case ReadReset(id, delay, mailed, password, breached) =>
      ResetReads(Tick(r.world, delay), mailed, password, breached);
    case ReadVerify(id, delay, mailed) => VerifyReads(Tick(r.world, delay), mailed);
    case _ =>
  }
}
