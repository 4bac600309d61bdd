/**
 What survives any interleaving of reads and writes of refreshes, resets and verifications with each other
 and with the other requests.
 */
module RaceSafety {
  import opened Prelude
  import opened PasswordPolicy
  import opened AuthState
  import opened AuthSpec
  import opened FamilyMoves
  import opened RefreshRace

  // ---- The invariant ----

  /** A signed or pending refresh token of a known family, under an id already drawn. */
  ghost predicate Known(w: World, t: Claims) {
    && t.kind == RefreshToken && t.family.Some? && t.family.value in w.db.families
    && t.sub == Some(w.db.families[t.family.value].owner)
    && t.jti.Some? && t.jti.value < w.nextId
  }

  ghost predicate JobSound(w: World, job: Job) {
    match job
    case RotateJob(f, u, spent, access, refresh, _) =>
      Known(w, refresh) && refresh.family == Some(f) && spent.family == Some(f) && refresh !in w.minted
        && access.kind != RefreshToken
    case RevokeJob(f, _, _, _) => f in w.db.families
    case ResetJob(_, _, _, _, _) => true
    case VerifyJob(_, _, _) => true
  }

  ghost predicate RaceSound(r: Race) {
    && (forall f | f in r.world.db.families :: f < r.world.nextId)
    && (forall t | t in r.world.minted && t.kind == RefreshToken :: Known(r.world, t))
    && (forall id | id in r.jobs :: JobSound(r.world, r.jobs[id]))
    && (forall a, b | a in r.jobs && b in r.jobs && a != b && r.jobs[a].RotateJob? && r.jobs[b].RotateJob? ::
          r.jobs[a].refresh != r.jobs[b].refresh)
  }

  /** Every refresh token in the transcript is signed, and none was handed out twice. */
  ghost predicate LogSound(r: Race) {
    && (forall i | 0 <= i < |r.log| && RefreshOf(r.log[i].reply).Some? ::
          var t := RefreshOf(r.log[i].reply).value; t in r.world.minted && t.kind == RefreshToken)
    && (forall i, j | 0 <= i < j < |r.log| && RefreshOf(r.log[i].reply).Some? ::
          RefreshOf(r.log[i].reply) != RefreshOf(r.log[j].reply))
    && (forall i | 0 <= i < |r.log| :: SameFamily(r.log[i]))
  }

  /** A token is exchanged for one of the same family. */
  ghost predicate SameFamily(x: Exchange) {
    x.request.RefreshTokens? && RefreshOf(x.reply).Some? ==> RefreshOf(x.reply).value.family == x.request.token.family
  }

  /** Families are only added, keep their owners, and are never un-revoked; ids only grow. */
  ghost predicate Onward(w: World, w': World) {
    && w.nextId <= w'.nextId && w.minted <= w'.minted
    && forall f | f in w.db.families ::
         && f in w'.db.families && w'.db.families[f].owner == w.db.families[f].owner
         && (w.db.families[f].revoked ==> w'.db.families[f].revoked)
  }

  // ---- One transition ----

  /** The refresh token that a transition hands out. */
  function Given(r: Race, r': Race): Option<Claims> {
    if |r'.log| > |r.log| then RefreshOf(r'.log[|r'.log| - 1].reply) else None
  }

  ghost predicate LogStep(r: Race, r': Race) {
    r'.log == r.log || (|r'.log| == |r.log| + 1 && r'.log[..|r.log|] == r.log && SameFamily(r'.log[|r.log|]))
  }

  /** Only the token handed out is newly signed, and only it becomes the last of its family. */
  ghost predicate TokenStep(w: World, w': World, given: Option<Claims>) {
    && (given.Some? ==> given.value.kind == RefreshToken && given.value !in w.minted && given.value in w'.minted)
    && (forall t | t in w'.minted && t !in w.minted && t.kind == RefreshToken :: given == Some(t) && Known(w', t))
    && (forall f | f in w.db.families && f in w'.db.families && w'.db.families[f].last != w.db.families[f].last ::
          given.Some? && w'.db.families[f].last == Sha256(given.value))
    && (forall f | f in w'.db.families && f !in w.db.families :: w.nextId <= f < w'.nextId)
  }

  ghost predicate Transition(r: Race, r': Race) {
    LogStep(r, r') && Onward(r.world, r'.world) && TokenStep(r.world, r'.world, Given(r, r'))
  }

  lemma WholeTransition(cfg: Settings, r: Race, e: Event)
    requires RaceSound(r)
    ensures var r' := Next(cfg, r, Whole(e)); Transition(r, r') && RaceSound(r')
  {
    hide Handle;
    var w := Tick(r.world, e.delay);
    var result := Handle(cfg, w, e.request);
    var m := Classify(cfg, w, e.request);
    MoveTransition(cfg, w, e.request, result, m);
    JobsKept(r, result.world, r.jobs);
  }

  lemma MoveTransition(cfg: Settings, w: World, req: Request, result: Result, m: FamilyMoves.Move)
    requires Moves(cfg, w, req, result, m)
    requires forall f | f in w.db.families :: f < w.nextId
    requires forall t | t in w.minted && t.kind == RefreshToken :: Known(w, t)
    ensures Onward(w, result.world) && TokenStep(w, result.world, RefreshOf(result.reply))
    ensures forall t | t in result.world.minted && t !in w.minted && t.kind == RefreshToken :: w.nextId <= t.jti.value
  {
  }

  /** What is known stays known when families are only added. */
  lemma JobsKept(r: Race, w': World, jobs: map<nat, Job>)
    requires RaceSound(r) && Onward(r.world, w') && jobs.Keys <= r.jobs.Keys
    requires forall id | id in jobs :: jobs[id] == r.jobs[id]
    requires forall t | t in w'.minted && t !in r.world.minted && t.kind == RefreshToken ::
               Known(w', t) && forall id | id in jobs && jobs[id].RotateJob? :: jobs[id].refresh != t
    requires forall f | f in w'.db.families && f !in r.world.db.families :: f < w'.nextId
    ensures RaceSound(Race(w', jobs, r.log))
  {
    forall id | id in jobs ensures JobSound(w', jobs[id]) {
      assert JobSound(r.world, r.jobs[id]);
    }
  }

  /** A request refused while reading. */
  lemma RefusedTransition(r: Race, w: World, req: Request, result: Result)
    requires RaceSound(r) && w == r.world.(clock := w.clock)
    requires result.reply.Raised? && result.world == w.(db := w.db.(audit := result.world.db.audit))
    ensures var r' := Finish(r, w, req, result); Transition(r, r') && RaceSound(r')
  {
    JobsKept(r, result.world, r.jobs);
  }

  lemma RefuseShape(w: World, status: nat, event: EventType, user: Option<Uuid>, family: Option<Uuid>)
    ensures var result := Refuse(w, status, event, user, family);
            result.reply.Raised? && result.world == w.(db := w.db.(audit := result.world.db.audit))
  {
  }

  lemma DecidedRefresh(cfg: Settings, w: World, token: Claims)
    ensures match DecideRefresh(cfg, w, token)
            case AtOnce(result) =>
              result.reply.Raised? && result.world == w.(db := w.db.(audit := result.world.db.audit))
            case Later(job) =>
              && (job.RotateJob? || job.RevokeJob?)
              && job.family in w.db.families && token.family == Some(job.family)
              && w.db.families[job.family].owner == job.user && !w.db.families[job.family].revoked
              && (job.RotateJob? ==>
                    && job.spent == token && w.db.families[job.family].last == Sha256(token)
                    && job.refresh == RefreshFor(cfg, w.clock, job.user, job.family, w.nextId)
                    && job.access.kind == AccessToken)
  {
    hide Refuse;
    RefuseShape(w, 401, RefreshFailure, None, None);
    RefuseShape(w, 401, RefreshFailure, token.sub, None);
    RefuseShape(w, 401, RefreshFailure, token.sub, token.family);
  }

  lemma ReadTransition(cfg: Settings, r: Race, id: nat, delay: nat, token: Claims)
    requires RaceSound(r)
    ensures var r' := Next(cfg, r, ReadRefresh(id, delay, token)); Transition(r, r') && RaceSound(r')
  {
    hide DecideRefresh;
    if id !in r.jobs {
      var w := Tick(r.world, delay);
      DecidedRefresh(cfg, w, token);
      match DecideRefresh(cfg, w, token)
      case AtOnce(result) => RefusedTransition(r, w, RefreshTokens(token), result);
      case Later(job) => NewJob(r, if job.RotateJob? then w.(nextId := w.nextId + 1) else w, id, job);
    }
  }

  lemma NewJob(r: Race, w': World, id: nat, job: Job)
    requires RaceSound(r) && id !in r.jobs
    requires w' == r.world.(clock := w'.clock, nextId := w'.nextId) && r.world.nextId <= w'.nextId
    requires JobSound(w', job)
    requires job.RotateJob? ==> r.world.nextId <= job.refresh.jti.value
    ensures var r' := Race(w', r.jobs[id := job], r.log); Transition(r, r') && RaceSound(r')
  {
    forall a | a in r.jobs ensures JobSound(w', r.jobs[a]) {
      assert JobSound(r.world, r.jobs[a]);
    }
  }

  lemma ReadResetTransition(cfg: Settings, r: Race, id: nat, delay: nat, mailed: Uuid, password: string, breached: bool)
    requires RaceSound(r)
    ensures var r' := Next(cfg, r, ReadReset(id, delay, mailed, password, breached)); Transition(r, r') && RaceSound(r')
  {
    hide ByReset;
    hide Acceptable;
    hide Refuse;
    hide RaceSound;
    hide Transition;
    if id !in r.jobs {
      var w := Tick(r.world, delay);
      RefuseShape(w, 400, ResetFailure, None, None);
      match DecideReset(w, mailed, password, breached)
      case AtOnce(result) =>
        if ByReset(w.db, mailed).OneRow? {
          RefuseShape(w, 400, ResetFailure, Some(ByReset(w.db, mailed).id), None);
        }
        RefusedTransition(r, w, ResetPassword(mailed, password, breached), result);
      case Later(job) => NewJob(r, w, id, job);
    } else {
      Stays(r);
    }
  }

  lemma ReadVerifyTransition(cfg: Settings, r: Race, id: nat, delay: nat, mailed: Uuid)
    requires RaceSound(r)
    ensures var r' := Next(cfg, r, ReadVerify(id, delay, mailed)); Transition(r, r') && RaceSound(r')
  {
    hide ByVerification;
    hide Refuse;
    hide RaceSound;
    hide Transition;
    if id !in r.jobs {
      var w := Tick(r.world, delay);
      RefuseShape(w, 400, VerificationFailure, None, None);
      match DecideVerify(w, mailed)
      case AtOnce(result) => RefusedTransition(r, w, VerifyEmail(mailed), result);
      case Later(job) => NewJob(r, w, id, job);
    } else {
      Stays(r);
    }
  }

  lemma Stays(r: Race)
    ensures Transition(r, r)
  {
  }

  /** What a decided job writes. */
  lemma Applied(w: World, job: Job)
    requires Writable(w, job) && JobSound(w, job)
    ensures var w' := Apply(w, job);
            && Onward(w, w') && TokenStep(w, w', RefreshOf(Answer(job).1))
            && w'.db.families.Keys == w.db.families.Keys
            && forall t | t in w'.minted && t !in w.minted && t.kind == RefreshToken ::
                 job.RotateJob? && t == job.refresh && Known(w', t)
  {
    match job
    case RotateJob(f, _, _, _, _, _) =>
    case RevokeJob(f, _, _, _) =>
    case ResetJob(_, _, _, _, _) =>
    case VerifyJob(_, _, _) =>
  }

  lemma WriteSound(cfg: Settings, r: Race, id: nat, pause: nat)
    requires RaceSound(r)
    ensures RaceSound(Next(cfg, r, Write(id, pause)))
  {
    hide Apply;
    if id in r.jobs && Writable(r.world, r.jobs[id]) {
      var w := r.world.(clock := r.world.clock + pause);
      assert JobSound(r.world, r.jobs[id]);
      Applied(w, r.jobs[id]);
      JobsKept(r, Apply(w, r.jobs[id]), r.jobs - {id});
    }
  }

  lemma WriteTransition(cfg: Settings, r: Race, id: nat, pause: nat)
    requires RaceSound(r)
    ensures var r' := Next(cfg, r, Write(id, pause)); Transition(r, r') && RaceSound(r')
  {
    hide Apply;
    WriteSound(cfg, r, id, pause);
    if id in r.jobs && Writable(r.world, r.jobs[id]) {
      assert JobSound(r.world, r.jobs[id]);
      hide RaceSound;
      Applied(r.world.(clock := r.world.clock + pause), r.jobs[id]);
    }
  }

  lemma NextTransition(cfg: Settings, r: Race, m: RefreshRace.Move)
    requires RaceSound(r)
    ensures var r' := Next(cfg, r, m); Transition(r, r') && RaceSound(r')
  {
    hide Next;
    hide RaceSound;
    hide Transition;
    match m
    case Whole(e) => WholeTransition(cfg, r, e);
    case ReadRefresh(id, delay, token) => ReadTransition(cfg, r, id, delay, token);
    case ReadReset(id, delay, mailed, password, breached) =>
      ReadResetTransition(cfg, r, id, delay, mailed, password, breached);
    case ReadVerify(id, delay, mailed) => ReadVerifyTransition(cfg, r, id, delay, mailed);
    case Write(id, pause) => WriteTransition(cfg, r, id, pause);
  }

  lemma LogSoundStep(r: Race, r': Race)
    requires LogSound(r) && Transition(r, r')
    ensures LogSound(r')
  {
    if |r'.log| > |r.log| {
      forall i | 0 <= i < |r.log| ensures r'.log[i] == r.log[i] {
        assert r'.log[..|r.log|][i] == r.log[i];
      }
    }
  }

  /** Every schedule keeps the invariants. */
  lemma {:induction false} PlaySound(cfg: Settings, r: Race, moves: seq<RefreshRace.Move>)
    requires RaceSound(r) && LogSound(r)
    ensures RaceSound(Play(cfg, r, moves)) && LogSound(Play(cfg, r, moves))
  {
    hide Next;
    hide RaceSound;
    hide LogSound;
    hide Transition;
    if moves != [] {
      var n := |moves| - 1;
      var mid := Play(cfg, r, moves[..n]);
      PlaySound(cfg, r, moves[..n]);
      NextTransition(cfg, mid, moves[n]);
      LogSoundStep(mid, Next(cfg, mid, moves[n]));
    }
  }

  lemma IdleSound()
    ensures RaceSound(IDLE) && LogSound(IDLE)
  {
  }

  // ---- Main results ----

  lemma OnwardTransitive(a: World, b: World, c: World)
    requires Onward(a, b) && Onward(b, c)
    ensures Onward(a, c)
  {
  }

  /** Under every schedule families never lose their revocation, their owner, or themselves. */
  lemma {:induction false} RevocationIsFinal(cfg: Settings, r: Race, moves: seq<RefreshRace.Move>)
    requires RaceSound(r)
    ensures Onward(r.world, Play(cfg, r, moves).world) && RaceSound(Play(cfg, r, moves))
  {
    hide Next;
    hide RaceSound;
    hide Onward;
    if moves == [] {
      OnwardReflexive(r.world);
    } else {
      var n := |moves| - 1;
      var mid := Play(cfg, r, moves[..n]);
      RevocationIsFinal(cfg, r, moves[..n]);
      NextTransition(cfg, mid, moves[n]);
      OnwardTransitive(r.world, mid.world, Next(cfg, mid, moves[n]).world);
    }
  }

  lemma OnwardReflexive(w: World)
    ensures Onward(w, w)
  {
  }

  /**
   A rotation may commit after a revocation, but to no avail: once a family is revoked, under every
   schedule, every read of any token of it - also one issued by a rotation still in flight - is refused.
   */
  lemma RevokedFamilyUnusable(cfg: Settings, r: Race, moves: seq<RefreshRace.Move>, f: Uuid, delay: nat, token: Claims)
    requires RaceSound(r) && f in r.world.db.families && r.world.db.families[f].revoked && token.family == Some(f)
    ensures var later := Play(cfg, r, moves);
            DecideRefresh(cfg, Tick(later.world, delay), token).AtOnce?
  {
    hide Play;
    hide RaceSound;
    RevocationIsFinal(cfg, r, moves);
  }

  /** A token that was handed out and is not the last of its family. */
  ghost predicate Overwritten(w: World, t: Claims) {
    t in w.minted && Known(w, t) && w.db.families[t.family.value].last != Sha256(t)
  }

  lemma OverwrittenStep(w: World, w': World, given: Option<Claims>, t: Claims)
    requires Overwritten(w, t) && Onward(w, w') && TokenStep(w, w', given)
    ensures Overwritten(w', t)
  {
  }

  lemma {:induction false} OverwrittenForever(cfg: Settings, r: Race, moves: seq<RefreshRace.Move>, t: Claims)
    requires RaceSound(r) && Overwritten(r.world, t)
    ensures Overwritten(Play(cfg, r, moves).world, t)
  {
    hide Next;
    hide RaceSound;
    hide Overwritten;
    if moves != [] {
      var n := |moves| - 1;
      var mid := Play(cfg, r, moves[..n]);
      OverwrittenForever(cfg, r, moves[..n], t);
      RevocationIsFinal(cfg, r, moves[..n]);
      NextTransition(cfg, mid, moves[n]);
      OverwrittenStep(mid.world, Next(cfg, mid, moves[n]).world, Given(mid, Next(cfg, mid, moves[n])), t);
    }
  }

  /**
   An overwritten token is never accepted by a later read, under any schedule; a read of it while it is
   unexpired, its family live and its owner active decides to revoke the family.
   */
  lemma OverwrittenNeverAccepted(cfg: Settings, r: Race, moves: seq<RefreshRace.Move>, t: Claims, delay: nat)
    requires RaceSound(r) && Overwritten(r.world, t)
    ensures var w := Tick(Play(cfg, r, moves).world, delay);
            var f := t.family.value;
            && f in w.db.families
            && (if Unexpired(t, w.clock) && !w.db.families[f].revoked && w.db.families[f].owner in w.db.users
                   && w.db.users[w.db.families[f].owner].active
                then DecideRefresh(cfg, w, t) == Later(RevokeJob(f, w.db.families[f].owner, t, w.clock))
                else DecideRefresh(cfg, w, t).AtOnce?)
  {
    hide Play;
    hide RaceSound;
    OverwrittenForever(cfg, r, moves, t);
  }

  /** Writing the revocation that a read decided on revokes the family, whatever happened in between. */
  lemma RevokeJobRevokes(cfg: Settings, r: Race, id: nat, pause: nat)
    requires RaceSound(r) && id in r.jobs && r.jobs[id].RevokeJob?
    ensures var f := r.jobs[id].family;
            var r' := Next(cfg, r, Write(id, pause));
            f in r'.world.db.families && r'.world.db.families[f].revoked
  {
    assert JobSound(r.world, r.jobs[id]);
  }

  /**
   The write of a reset revokes every family its user has by then, also those opened after its read; from
   then on, under every schedule, every read of a token of one of them is refused.
   */
  lemma ResetWriteRevokesAll(cfg: Settings, r: Race, id: nat, pause: nat, moves: seq<RefreshRace.Move>, f: Uuid,
          delay: nat, token: Claims)
    requires RaceSound(r) && id in r.jobs && r.jobs[id].ResetJob? && r.jobs[id].user in r.world.db.users
    requires f in r.world.db.families && r.world.db.families[f].owner == r.jobs[id].user && token.family == Some(f)
    ensures var written := Next(cfg, r, Write(id, pause));
            && f in written.world.db.families && written.world.db.families[f].revoked
            && DecideRefresh(cfg, Tick(Play(cfg, written, moves).world, delay), token).AtOnce?
  {
    hide Play;
    hide RaceSound;
    hide DecideRefresh;
    var written := Next(cfg, r, Write(id, pause));
    assert f in written.world.db.families && written.world.db.families[f].revoked;
    WriteTransition(cfg, r, id, pause);
    RevokedFamilyUnusable(cfg, written, moves, f, delay, token);
  }

  /** A rotation of this token that has committed. */
  predicate RotatedFrom(x: Exchange, spent: Claims) {
    x.request == RefreshTokens(spent) && x.reply.Returned? && RefreshOf(x.reply).Some?
  }

  /**
   If two rotations of one token both commit, the children differ and at most one of them is current.
   The other is overwritten for good, so that presenting it revokes the family.
   */
  lemma TwoRotations(cfg: Settings, moves: seq<RefreshRace.Move>, spent: Claims, i: nat, j: nat)
    requires var log := Play(cfg, IDLE, moves).log;
             i < j < |log| && RotatedFrom(log[i], spent) && RotatedFrom(log[j], spent)
    ensures var r := Play(cfg, IDLE, moves);
            var c1, c2 := RefreshOf(r.log[i].reply).value, RefreshOf(r.log[j].reply).value;
            RaceSound(r) && c1 != c2 && (Overwritten(r.world, c1) || Overwritten(r.world, c2))
  {
    hide Play;
    IdleSound();
    PlaySound(cfg, IDLE, moves);
    var r := Play(cfg, IDLE, moves);
    var c1, c2 := RefreshOf(r.log[i].reply).value, RefreshOf(r.log[j].reply).value;
    assert c1 in r.world.minted && c2 in r.world.minted;
    assert SameFamily(r.log[i]) && SameFamily(r.log[j]);
    assert RefreshOf(r.log[i].reply) != RefreshOf(r.log[j].reply);
    HandedOut(r, i);
    HandedOut(r, j);
  }

  lemma HandedOut(r: Race, i: nat)
    requires RaceSound(r) && LogSound(r) && i < |r.log| && r.log[i].request.RefreshTokens?
             && RefreshOf(r.log[i].reply).Some?
    ensures var c := RefreshOf(r.log[i].reply).value; c in r.world.minted && Known(r.world, c)
  {
    var c := RefreshOf(r.log[i].reply).value;
    assert c in r.world.minted;
    assert SameFamily(r.log[i]);
  }

  /** Two requests that present the same token, both reading before either writes. */
  function Overlap(a: nat, b: nat, token: Claims): seq<RefreshRace.Move> {
    [ReadRefresh(a, 0, token), ReadRefresh(b, 0, token), Write(a, 0), Write(b, 0)]
  }

  /**
   Single use does not survive interleaving: from any state in which a token would be accepted by each of
   two overlapping requests, both are answered with a new token. The first of the two new tokens is
   overwritten at once.
   */
  lemma SingleUseFails(cfg: Settings, r: Race, a: nat, b: nat, token: Claims)
    requires RaceSound(r) && a != b && a !in r.jobs && b !in r.jobs
    requires DecideRefresh(cfg, Tick(r.world, 0), token).Later?
             && DecideRefresh(cfg, Tick(r.world, 0), token).job.RotateJob?
    requires Unexpired(token, r.world.clock + 2)
    ensures var r' := Play(cfg, r, Overlap(a, b, token));
            && |r'.log| == |r.log| + 2
            && RotatedFrom(r'.log[|r.log|], token) && RotatedFrom(r'.log[|r.log| + 1], token)
            && Overwritten(r'.world, RefreshOf(r'.log[|r.log|].reply).value)
  {
    hide Next;
    hide Play;
    hide DecideRefresh;
    hide RaceSound;
    hide Transition;
    var r1 := Next(cfg, r, ReadRefresh(a, 0, token));
    var r2 := Next(cfg, r1, ReadRefresh(b, 0, token));
    var r3 := Next(cfg, r2, Write(a, 0));
    PlayFour(cfg, r, ReadRefresh(a, 0, token), ReadRefresh(b, 0, token), Write(a, 0), Write(b, 0));
    SecondRead(cfg, r, token);
    var one := ReadRotates(cfg, r, a, token);
    var two := ReadRotates(cfg, r1, b, token);
    NextTransition(cfg, r, ReadRefresh(a, 0, token));
    NextTransition(cfg, r1, ReadRefresh(b, 0, token));
    WriteRotates(cfg, r2, a);
    NextTransition(cfg, r2, Write(a, 0));
    WriteRotates(cfg, r3, b);
    PendingKnown(r2, a);
  }

  lemma PendingKnown(r: Race, id: nat)
    requires RaceSound(r) && id in r.jobs && r.jobs[id].RotateJob?
    ensures Known(r.world, r.jobs[id].refresh) && r.jobs[id].refresh.family == Some(r.jobs[id].family)
  {
    assert JobSound(r.world, r.jobs[id]);
  }

  lemma ReadRotates(cfg: Settings, r: Race, id: nat, token: Claims) returns (job: Job)
    requires id !in r.jobs
    requires DecideRefresh(cfg, Tick(r.world, 0), token).Later?
             && DecideRefresh(cfg, Tick(r.world, 0), token).job.RotateJob?
    ensures Next(cfg, r, ReadRefresh(id, 0, token))
            == Race(Tick(r.world, 0).(nextId := r.world.nextId + 1), r.jobs[id := job], r.log)
    ensures job.RotateJob? && job.spent == token && job.family in r.world.db.families
            && token.family == Some(job.family)
    ensures job.refresh == RefreshFor(cfg, r.world.clock + 1, job.user, job.family, r.world.nextId)
  {
    hide DecideRefresh;
    DecidedRefresh(cfg, Tick(r.world, 0), token);
    job := DecideRefresh(cfg, Tick(r.world, 0), token).job;
  }

  lemma WriteRotates(cfg: Settings, r: Race, id: nat)
    requires id in r.jobs && r.jobs[id].RotateJob? && r.jobs[id].family in r.world.db.families
    ensures var job := r.jobs[id];
            var r' := Next(cfg, r, Write(id, 0));
            && r'.log == r.log + [Exchange(r.world.clock, RefreshTokens(job.spent),
                 Returned(Rotated(job.access, job.refresh)))]
            && r'.jobs == r.jobs - {id}
            && r'.world.db.families
               == r.world.db.families[job.family := r.world.db.families[job.family].(last := Sha256(job.refresh))]
            && r'.world.minted == r.world.minted + {job.access, job.refresh} && r'.world.nextId == r.world.nextId
  {
  }

  lemma SecondRead(cfg: Settings, r: Race, token: Claims)
    requires DecideRefresh(cfg, Tick(r.world, 0), token).Later?
             && DecideRefresh(cfg, Tick(r.world, 0), token).job.RotateJob?
    requires Unexpired(token, r.world.clock + 2)
    ensures var w := Tick(r.world, 0).(nextId := r.world.nextId + 1);
            DecideRefresh(cfg, Tick(w, 0), token).Later? && DecideRefresh(cfg, Tick(w, 0), token).job.RotateJob?
  {
  }

  lemma PlayFour(cfg: Settings, r: Race, a: RefreshRace.Move, b: RefreshRace.Move, c: RefreshRace.Move,
          d: RefreshRace.Move)
    ensures Play(cfg, r, [a, b, c, d]) == Next(cfg, Next(cfg, Next(cfg, Next(cfg, r, a), b), c), d)
  {
    hide Next;
    PlayTwo(cfg, r, a, b);
    PlayTwo(cfg, Play(cfg, r, [a, b]), c, d);
    PlayConcat(cfg, r, [a, b], [c, d]);
    assert [a, b] + [c, d] == [a, b, c, d];
  }
}
