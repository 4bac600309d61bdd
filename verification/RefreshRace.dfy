/**
 `refresh_tokens`, `reset_password` and `verify_email` as concurrent transactions at Read Committed: each
 reads the committed rows and decides, and writes later. The ORM writes only the columns that changed: a
 rotation writes `last_token_hash`, reuse and reset write `is_revoked`, a verification its two columns
 (app/services/auth_service.py:120-149, 309-358 and 524-574, app/db/database.py:4-16).
 A new token can be presented once the transaction that issued it has committed. Every other request
 is one step.
 */
module RefreshRace {
  import opened Prelude
  import opened PasswordPolicy
  import opened AuthState
  import opened AuthSpec

  /** What a transaction has decided to write. `at` is when it began, which dates its audit row. */
  datatype Job =
    | RotateJob(family: Uuid, user: Uuid, spent: Claims, access: Claims, refresh: Claims, at: Time)
    | RevokeJob(family: Uuid, user: Uuid, presented: Claims, at: Time)
    | ResetJob(user: Uuid, mailed: Uuid, password: string, breached: bool, at: Time)
    | VerifyJob(user: Uuid, mailed: Uuid, at: Time)

  datatype Race = Race(world: World, jobs: map<nat, Job>, log: seq<Exchange>)

  const IDLE: Race := Race(START, map[], [])

  datatype Move =
    | Whole(event: Event)
    | ReadRefresh(id: nat, delay: nat, token: Claims)
    | ReadReset(id: nat, delay: nat, mailed: Uuid, password: string, breached: bool)
    | ReadVerify(id: nat, delay: nat, mailed: Uuid)
    | Write(id: nat, pause: nat)

  // ---- Reading: decide on the committed rows ----

  /** Refused requests commit their failure row at once; the others leave a write for later. */
  datatype Decision = AtOnce(result: Result) | Later(job: Job)

  function DecideRefresh(cfg: Settings, w: World, token: Claims): Decision {
    if !Decodes(w, token) || token.kind != RefreshToken then AtOnce(Refuse(w, 401, RefreshFailure, None, None))
    else if token.sub.None? then AtOnce(Raise(w, 401))
    else
      var u := token.sub.value;
      if token.family.None? then AtOnce(Refuse(w, 401, RefreshFailure, Some(u), None))
      else if u !in w.db.users || !w.db.users[u].active then AtOnce(Refuse(w, 401, RefreshFailure, Some(u), None))
      else
        var f := token.family.value;
        if f !in w.db.families || w.db.families[f].owner != u || w.db.families[f].revoked
        then AtOnce(Refuse(w, 401, RefreshFailure, Some(u), Some(f)))
        else if w.db.families[f].last != Sha256(token) then Later(RevokeJob(f, u, token, w.clock))
        else Later(RotateJob(f, u, token, AccessFor(cfg, w.clock, u), RefreshFor(cfg, w.clock, u, f, w.nextId),
          w.clock))
  }

  function DecideReset(w: World, mailed: Uuid, password: string, breached: bool): Decision {
    match ByReset(w.db, mailed)
    case ManyRows => AtOnce(Raise(w, SERVER_ERROR))
    case NoRow => AtOnce(Refuse(w, 400, ResetFailure, None, None))
    case OneRow(u) =>
      if ResetExpired(w.db.users[u], w.clock) then AtOnce(Refuse(w, 400, ResetFailure, Some(u), None))
      else if !Acceptable(password, w.db.users[u].email, breached) then AtOnce(Raise(w, 422))
      else Later(ResetJob(u, mailed, password, breached, w.clock))
  }

  function DecideVerify(w: World, mailed: Uuid): Decision {
    match ByVerification(w.db, mailed)
    case ManyRows => AtOnce(Raise(w, SERVER_ERROR))
    case NoRow => AtOnce(Refuse(w, 400, VerificationFailure, None, None))
    case OneRow(u) => Later(VerifyJob(u, mailed, w.clock))
  }

  // ---- Writing: only the changed columns of the rows as they are now ----

  function Row(job: Job): AuditRow {
    match job
    case RotateJob(f, u, _, _, _, at) => AuditRow(RefreshSuccess, Some(u), Some(f), true, at)
    case RevokeJob(f, u, _, at) => AuditRow(RefreshReuse, Some(u), Some(f), false, at)
    case ResetJob(u, _, _, _, at) => AuditRow(ResetSuccess, Some(u), None, true, at)
    case VerifyJob(u, _, at) => AuditRow(VerificationSuccess, Some(u), None, true, at)
  }

  predicate Writable(w: World, job: Job) {
    match job
    case RotateJob(f, _, _, _, _, _) => f in w.db.families
    case RevokeJob(f, _, _, _) => f in w.db.families
    case ResetJob(u, _, _, _, _) => u in w.db.users
    case VerifyJob(u, _, _) => u in w.db.users
  }

  function Apply(w: World, job: Job): World
    requires Writable(w, job)
  {
    var db := match job
      case RotateJob(f, _, _, _, refresh, _) =>
        w.db.(families := w.db.families[f := w.db.families[f].(last := Sha256(refresh))])
      case RevokeJob(f, _, _, _) =>
        w.db.(families := w.db.families[f := w.db.families[f].(revoked := true)])
      case ResetJob(u, _, password, _, _) =>
        w.db.(users := w.db.users[u := w.db.users[u].(password := Bcrypt(password), reset := None,
          resetExpires := None)],
              families := RevokeFamiliesOf(w.db.families, u))
      case VerifyJob(u, _, _) =>
        w.db.(users := w.db.users[u := w.db.users[u].(verified := true, verification := None)]);
    var minted := if job.RotateJob? then w.minted + {job.access, job.refresh} else w.minted;
    w.(db := db.Log(Row(job)), minted := minted)
  }

  function Answer(job: Job): (Request, Reply) {
    match job
    case RotateJob(_, _, spent, access, refresh, _) => (RefreshTokens(spent), Returned(Rotated(access, refresh)))
    case RevokeJob(_, _, presented, _) => (RefreshTokens(presented), Raised(401))
    case ResetJob(_, mailed, password, breached, _) => (ResetPassword(mailed, password, breached), Returned(Done))
    case VerifyJob(_, mailed, _) => (VerifyEmail(mailed), Returned(Done))
  }

  function Finish(r: Race, w: World, req: Request, result: Result): Race {
    Race(result.world, r.jobs, r.log + [Exchange(w.clock, req, result.reply)])
  }

  function Start(r: Race, w: World, id: nat, req: Request, d: Decision): Race {
    match d
    case AtOnce(result) => Finish(r, w, req, result)
    case Later(job) =>
      Race(if job.RotateJob? then w.(nextId := w.nextId + 1) else w, r.jobs[id := job], r.log)
  }

  /** One transition; a read under a busy id and a write with nothing to do are no transitions. */
  function Next(cfg: Settings, r: Race, m: Move): Race {
    match m
    case Whole(e) => Finish(r, Tick(r.world, e.delay), e.request, Step(cfg, r.world, e))
    case ReadRefresh(id, delay, token) =>
      if id in r.jobs then r
      else var w := Tick(r.world, delay); Start(r, w, id, RefreshTokens(token), DecideRefresh(cfg, w, token))
    case ReadReset(id, delay, mailed, password, breached) =>
      if id in r.jobs then r
      else
        var w := Tick(r.world, delay);
        Start(r, w, id, ResetPassword(mailed, password, breached), DecideReset(w, mailed, password, breached))
    case ReadVerify(id, delay, mailed) =>
      if id in r.jobs then r
      else var w := Tick(r.world, delay); Start(r, w, id, VerifyEmail(mailed), DecideVerify(w, mailed))
    case Write(id, pause) =>
      if id !in r.jobs || !Writable(r.world, r.jobs[id]) then r
      else
        var w := r.world.(clock := r.world.clock + pause);
        var (req, reply) := Answer(r.jobs[id]);
        Race(Apply(w, r.jobs[id]), r.jobs - {id}, r.log + [Exchange(w.clock, req, reply)])
  }

  function Play(cfg: Settings, r: Race, moves: seq<Move>): Race {
    if moves == [] then r
    else Next(cfg, Play(cfg, r, moves[..|moves| - 1]), moves[|moves| - 1])
  }

  // ---- A read followed at once by its write is the atomic request ----

  /** Each request as a serial pair of moves, or as one. */
  function Serially(e: Event): seq<Move> {
    match e.request
    case RefreshTokens(token) => [ReadRefresh(0, e.delay, token), Write(0, 0)]
    case ResetPassword(mailed, password, breached) => [ReadReset(0, e.delay, mailed, password, breached), Write(0, 0)]
    case VerifyEmail(mailed) => [ReadVerify(0, e.delay, mailed), Write(0, 0)]
    case _ => [Whole(e)]
  }

  function Serial(events: seq<Event>): seq<Move> {
    if events == [] then [] else Serial(events[..|events| - 1]) + Serially(events[|events| - 1])
  }

  lemma SerialRefresh(cfg: Settings, r: Race, e: Event)
    requires e.request.RefreshTokens? && r.jobs == map[]
    ensures var t := Extend(cfg, Trace(r.world, r.log), e);
            Next(cfg, Next(cfg, r, ReadRefresh(0, e.delay, e.request.token)), Write(0, 0))
              == Race(t.world, map[], t.log)
  {
    hide Refuse;
    var w := Tick(r.world, e.delay);
    var mid := Next(cfg, r, ReadRefresh(0, e.delay, e.request.token));
    match DecideRefresh(cfg, w, e.request.token)
    case AtOnce(result) =>
    case Later(job) =>
      assert mid.jobs - {0} == map[];
  }

  lemma SerialReset(cfg: Settings, r: Race, e: Event)
    requires e.request.ResetPassword? && r.jobs == map[]
    ensures var t := Extend(cfg, Trace(r.world, r.log), e);
            Next(cfg, Next(cfg, r, ReadReset(0, e.delay, e.request.mailed, e.request.password, e.request.breached)),
              Write(0, 0))
            == Race(t.world, map[], t.log)
  {
    hide Refuse;
    hide ByReset;
    hide Acceptable;
    hide RevokeFamiliesOf;
    var w := Tick(r.world, e.delay);
    var mid := Next(cfg, r, ReadReset(0, e.delay, e.request.mailed, e.request.password, e.request.breached));
    match DecideReset(w, e.request.mailed, e.request.password, e.request.breached)
    case AtOnce(result) =>
    case Later(job) =>
      assert mid.jobs - {0} == map[];
  }

  lemma SerialVerify(cfg: Settings, r: Race, e: Event)
    requires e.request.VerifyEmail? && r.jobs == map[]
    ensures var t := Extend(cfg, Trace(r.world, r.log), e);
            Next(cfg, Next(cfg, r, ReadVerify(0, e.delay, e.request.mailed)), Write(0, 0))
            == Race(t.world, map[], t.log)
  {
    hide Refuse;
    hide ByVerification;
    var w := Tick(r.world, e.delay);
    var mid := Next(cfg, r, ReadVerify(0, e.delay, e.request.mailed));
    match DecideVerify(w, e.request.mailed)
    case AtOnce(result) =>
    case Later(job) =>
      assert mid.jobs - {0} == map[];
  }

  lemma {:induction false} PlayConcat(cfg: Settings, r: Race, first: seq<Move>, second: seq<Move>)
    ensures Play(cfg, r, first + second) == Play(cfg, Play(cfg, r, first), second)
  {
    hide Next;
    if second == [] {
      assert first + second == first;
    } else {
      var n := |second| - 1;
      assert (first + second)[..|first + second| - 1] == first + second[..n];
      PlayConcat(cfg, r, first, second[..n]);
    }
  }

  lemma PlayTwo(cfg: Settings, r: Race, a: Move, b: Move)
    ensures Play(cfg, r, [a]) == Next(cfg, r, a)
    ensures Play(cfg, r, [a, b]) == Next(cfg, Next(cfg, r, a), b)
  {
    hide Next;
    assert [a][..0] == [] && [a, b][..1] == [a];
  }

  /** Schedules in which every read is followed at once by its write refine the atomic model. */
  lemma {:induction false} SerialSchedulesAreAtomic(cfg: Settings, events: seq<Event>)
    ensures var t := Run(cfg, BOOT, events);
            Play(cfg, IDLE, Serial(events)) == Race(t.world, map[], t.log)
  {
    hide Next;
    hide Step;
    if events != [] {
      var before, e := events[..|events| - 1], events[|events| - 1];
      SerialSchedulesAreAtomic(cfg, before);
      var t := Run(cfg, BOOT, before);
      var r := Race(t.world, map[], t.log);
      PlayConcat(cfg, IDLE, Serial(before), Serially(e));
      match e.request
      case RefreshTokens(token) =>
        PlayTwo(cfg, r, ReadRefresh(0, e.delay, token), Write(0, 0));
        SerialRefresh(cfg, r, e);
      case ResetPassword(mailed, password, breached) =>
        PlayTwo(cfg, r, ReadReset(0, e.delay, mailed, password, breached), Write(0, 0));
        SerialReset(cfg, r, e);
      case VerifyEmail(mailed) =>
        PlayTwo(cfg, r, ReadVerify(0, e.delay, mailed), Write(0, 0));
        SerialVerify(cfg, r, e);
      case _ =>
        PlayTwo(cfg, r, Whole(e), Whole(e));
        WholeIsStep(cfg, t, r, e);
    }
  }

  lemma WholeIsStep(cfg: Settings, t: Trace, r: Race, e: Event)
    requires r == Race(t.world, map[], t.log)
    ensures Next(cfg, r, Whole(e)) == Race(Extend(cfg, t, e).world, map[], Extend(cfg, t, e).log)
  {
    hide Step;
  }
}
