/**
 Refresh-token families over every run of the service: the rotation chain, the finality of reuse
 detection, and the cut-off that a password reset makes.
 */
module Families {
  import opened Prelude
  import opened AuthState
  import opened AuthSpec
  import opened FamilyMoves
  import Accounts

  // ---- What clients saw ----

  datatype Stamp = Stamp(token: Claims, at: Time)

  /** The refresh tokens of a family that replies handed out, in order. */
  function Issued(log: seq<Exchange>, f: Uuid): seq<Stamp> {
    if log == [] then []
    else
      var x, t := log[|log| - 1], RefreshOf(log[|log| - 1].reply);
      Issued(log[..|log| - 1], f)
      + (if t.Some? && t.value.family == Some(f) then [Stamp(t.value, x.at)] else [])
  }

  /** The refresh tokens of a family that were exchanged for new ones, in order. */
  function Accepted(log: seq<Exchange>, f: Uuid): seq<Stamp> {
    if log == [] then []
    else
      var x := log[|log| - 1];
      Accepted(log[..|log| - 1], f)
      + (if Accepts(x.request, x.reply) && x.request.token.family == Some(f) then [Stamp(x.request.token, x.at)]
        else [])
  }

  /** The `auth.refresh.success` rows of a family. */
  function Rotations(audit: seq<AuditRow>, f: Uuid): nat {
    if audit == [] then 0
    else Rotations(audit[..|audit| - 1], f)
         + (if audit[|audit| - 1].event == RefreshSuccess && audit[|audit| - 1].family == Some(f) then 1 else 0)
  }

  // ---- Invariants ----

  /** Families belong to users, ids are fresh, and signed refresh tokens belong to families. */
  ghost predicate FamiliesSound(w: World) {
    && (forall f | f in w.db.families ::
          f < w.nextId && w.db.families[f].owner in w.db.users && w.db.families[f].createdAt <= w.clock)
    && (forall t | t in w.minted && t.kind == RefreshToken ::
          && t.family.Some? && t.family.value in w.db.families
          && t.sub == Some(w.db.families[t.family.value].owner)
          && t.jti.Some? && t.jti.value < w.nextId)
  }

  predicate Stamped(issued: seq<Stamp>, t: Claims) {
    exists s | s in issued :: s.token == t
  }

  /** Each issued token but the last was exchanged once, in order, unexpired, when the next was issued. */
  ghost predicate Linked(issued: seq<Stamp>, accepted: seq<Stamp>) {
    && |issued| == |accepted| + 1
    && forall i | 0 <= i < |accepted| ::
         && accepted[i] == Stamp(issued[i].token, issued[i + 1].at)
         && Unexpired(issued[i].token, accepted[i].at)
  }

  /** The issued tokens are distinct, well formed, and all the refresh tokens signed for the family. */
  ghost predicate TokensOf(cfg: Settings, minted: set<Claims>, nextId: Uuid, owner: Uuid, f: Uuid, issued: seq<Stamp>) {
    && (forall s | s in issued ::
          && s.token in minted && s.token.jti.Some? && s.token.jti.value < nextId
          && s.token == RefreshFor(cfg, s.at, owner, f, s.token.jti.value))
    && (forall i, j | 0 <= i < j < |issued| :: issued[i].token != issued[j].token)
    && (forall t | t in minted && t.kind == RefreshToken && t.family == Some(f) :: Stamped(issued, t))
  }

  /** The rotation chain of a family: what is stored, what was issued and what was accepted agree. */
  ghost predicate Chain(cfg: Settings, w: World, log: seq<Exchange>, f: Uuid) {
    var issued, accepted := Issued(log, f), Accepted(log, f);
    if f in w.db.families then
      && Linked(issued, accepted)
      && w.db.families[f].last == Sha256(issued[|accepted|].token)
      && issued[0].at == w.db.families[f].createdAt
      && TokensOf(cfg, w.minted, w.nextId, w.db.families[f].owner, f, issued)
      && Rotations(w.db.audit, f) == |accepted|
    else
      issued == [] && accepted == [] && Rotations(w.db.audit, f) == 0
  }

  ghost predicate AllChains(cfg: Settings, t: Trace) {
    FamiliesSound(t.world) && forall f: Uuid :: Chain(cfg, t.world, t.log, f)
  }

  lemma SoundStep(cfg: Settings, w: World, req: Request, r: Result, m: Move)
    requires FamiliesSound(w) && Moves(cfg, w, req, r, m)
    ensures FamiliesSound(r.world)
  {
  }

  lemma SoundTick(w: World, delay: nat)
    requires FamiliesSound(w)
    ensures FamiliesSound(Tick(w, delay))
  {
  }

  lemma LogStep(log: seq<Exchange>, x: Exchange, f: Uuid)
    ensures var t := RefreshOf(x.reply);
            Issued(log + [x], f) == Issued(log, f)
              + (if t.Some? && t.value.family == Some(f) then [Stamp(t.value, x.at)] else [])
    ensures Accepted(log + [x], f) == Accepted(log, f)
              + (if Accepts(x.request, x.reply) && x.request.token.family == Some(f)
                 then [Stamp(x.request.token, x.at)] else [])
  {
    assert (log + [x])[..|log|] == log;
  }

  lemma AuditStep(audit: seq<AuditRow>, row: AuditRow, f: Uuid)
    ensures Rotations(audit + [row], f)
            == Rotations(audit, f) + (if row.event == RefreshSuccess && row.family == Some(f) then 1 else 0)
  {
    assert (audit + [row])[..|audit|] == audit;
  }

  lemma QuietRotations(w: World, w': World, f: Uuid)
    requires QuietLog(w, w')
    ensures Rotations(w'.db.audit, f) == Rotations(w.db.audit, f)
  {
    if w'.db.audit != w.db.audit {
      var n := |w.db.audit|;
      assert w'.db.audit == w.db.audit + [w'.db.audit[n]];
      AuditStep(w.db.audit, w'.db.audit[n], f);
    }
  }

  lemma TokensFrame(cfg: Settings, w: World, w': World, owner: Uuid, f: Uuid, issued: seq<Stamp>)
    requires TokensOf(cfg, w.minted, w.nextId, owner, f, issued) && Grows(w, w')
    requires forall t | t in w'.minted && t !in w.minted :: t.kind != RefreshToken || t.family != Some(f)
    ensures TokensOf(cfg, w'.minted, w'.nextId, owner, f, issued)
  {
    hide Stamped;
  }

  /** A step that does not concern the family keeps its chain. */
  lemma ChainFrame(cfg: Settings, w: World, req: Request, r: Result, log: seq<Exchange>, f: Uuid)
    requires Chain(cfg, w, log, f) && Grows(w, r.world)
    requires forall t | t in r.world.minted && t !in w.minted :: t.kind != RefreshToken || t.family != Some(f)
    requires f in r.world.db.families <==> f in w.db.families
    requires f in w.db.families ==>
               r.world.db.families[f] == w.db.families[f].(revoked := r.world.db.families[f].revoked)
    requires RefreshOf(r.reply) == None || RefreshOf(r.reply).value.family != Some(f)
    requires !Accepts(req, r.reply) || req.token.family != Some(f)
    requires Rotations(r.world.db.audit, f) == Rotations(w.db.audit, f)
    ensures Chain(cfg, r.world, log + [Exchange(w.clock, req, r.reply)], f)
  {
    hide TokensOf;
    var log' := log + [Exchange(w.clock, req, r.reply)];
    LogStep(log, Exchange(w.clock, req, r.reply), f);
    assert Issued(log', f) == Issued(log, f) && Accepted(log', f) == Accepted(log, f);
    if f in w.db.families {
      TokensFrame(cfg, w, r.world, w.db.families[f].owner, f, Issued(log, f));
    }
  }

  lemma AppendedRotations(w: World, w': World, row: AuditRow, f: Uuid)
    requires w'.db.audit == w.db.audit + [row]
    ensures Rotations(w'.db.audit, f)
            == Rotations(w.db.audit, f) + (if row.event == RefreshSuccess && row.family == Some(f) then 1 else 0)
  {
    AuditStep(w.db.audit, row, f);
  }

  lemma ChainOpened(cfg: Settings, w: World, req: Request, r: Result, m: Move, log: seq<Exchange>, f: Uuid)
    requires FamiliesSound(w) && Chain(cfg, w, log, f) && Moves(cfg, w, req, r, m) && m.Opened?
    ensures Chain(cfg, r.world, log + [Exchange(w.clock, req, r.reply)], f)
  {
    hide Chain;
    AppendedRotations(w, r.world, AuditRow(m.event, Some(m.owner), None, true, w.clock), f);
    if f == m.family {
      FirstLink(cfg, w, req, r, m, log);
    } else {
      ChainFrame(cfg, w, req, r, log, f);
    }
  }

  lemma FirstLink(cfg: Settings, w: World, req: Request, r: Result, m: Move, log: seq<Exchange>)
    requires FamiliesSound(w) && m.Opened? && Chain(cfg, w, log, m.family) && Moves(cfg, w, req, r, m)
    requires Rotations(r.world.db.audit, m.family) == Rotations(w.db.audit, m.family)
    ensures Chain(cfg, r.world, log + [Exchange(w.clock, req, r.reply)], m.family)
  {
    var f, s := m.family, Stamp(m.token, w.clock);
    LogStep(log, Exchange(w.clock, req, r.reply), f);
    assert f !in w.db.families;
    assert Issued(log + [Exchange(w.clock, req, r.reply)], f) == [s];
    forall t | t in r.world.minted && t.kind == RefreshToken && t.family == Some(f) ensures Stamped([s], t) {
      assert t == m.token;
      assert s in [s];
    }
  }

  lemma ChainTurned(cfg: Settings, w: World, req: Request, r: Result, m: Move, log: seq<Exchange>, f: Uuid)
    requires FamiliesSound(w) && Chain(cfg, w, log, f) && Moves(cfg, w, req, r, m) && m.Turned?
    ensures Chain(cfg, r.world, log + [Exchange(w.clock, req, r.reply)], f)
  {
    hide Chain;
    AppendedRotations(w, r.world, AuditRow(RefreshSuccess, m.spent.sub, Some(m.family), true, w.clock), f);
    if f == m.family {
      NextLink(cfg, w, req, r, m, log);
    } else {
      ChainFrame(cfg, w, req, r, log, f);
    }
  }

  lemma LinkedNext(issued: seq<Stamp>, accepted: seq<Stamp>, s: Stamp, spent: Claims)
    requires Linked(issued, accepted)
    ensures |issued| == |accepted| + 1
    ensures issued[|accepted|].token == spent && Unexpired(spent, s.at) ==>
              Linked(issued + [s], accepted + [Stamp(spent, s.at)]) && (issued + [s])[0] == issued[0]
  {
  }

  lemma NextLink(cfg: Settings, w: World, req: Request, r: Result, m: Move, log: seq<Exchange>)
    requires FamiliesSound(w) && m.Turned? && Chain(cfg, w, log, m.family) && Moves(cfg, w, req, r, m)
    requires Rotations(r.world.db.audit, m.family) == Rotations(w.db.audit, m.family) + 1
    ensures Chain(cfg, r.world, log + [Exchange(w.clock, req, r.reply)], m.family)
  {
    hide TokensOf;
    hide Linked;
    hide FamiliesSound;
    var f := m.family;
    LogStep(log, Exchange(w.clock, req, r.reply), f);
    LinkedNext(Issued(log, f), Accepted(log, f), Stamp(m.token, w.clock), m.spent);
    TokensNext(cfg, w, r.world, w.db.families[f].owner, f, Issued(log, f), Stamp(m.token, w.clock), w.nextId);
  }

  lemma TokensNext(cfg: Settings, w: World, w': World, owner: Uuid, f: Uuid, issued: seq<Stamp>, s: Stamp, jti: Uuid)
    requires TokensOf(cfg, w.minted, w.nextId, owner, f, issued) && Grows(w, w') && jti == w.nextId < w'.nextId
    requires s.token == RefreshFor(cfg, s.at, owner, f, jti) && s.token in w'.minted
    requires forall t | t in w'.minted && t !in w.minted && t != s.token :: t.kind != RefreshToken
    ensures TokensOf(cfg, w'.minted, w'.nextId, owner, f, issued + [s])
  {
    var issued' := issued + [s];
    forall i | 0 <= i < |issued| ensures issued[i].token != s.token {
      assert issued[i] in issued;
    }
    forall t | t in w'.minted && t.kind == RefreshToken && t.family == Some(f) ensures Stamped(issued', t) {
      if t == s.token {
        assert s in issued';
      } else {
        var o :| o in issued && o.token == t;
        assert o in issued';
      }
    }
  }

  lemma ChainReused(cfg: Settings, w: World, req: Request, r: Result, m: Move, log: seq<Exchange>, f: Uuid)
    requires Chain(cfg, w, log, f) && Moves(cfg, w, req, r, m) && m.ReuseCaught?
    ensures Chain(cfg, r.world, log + [Exchange(w.clock, req, r.reply)], f)
  {
    hide Chain;
    hide Rotations;
    AppendedRotations(w, r.world, AuditRow(RefreshReuse, req.token.sub, Some(m.family), false, w.clock), f);
    ChainFrame(cfg, w, req, r, log, f);
  }

  lemma RevokedRow(families: map<Uuid, Family>, owner: Uuid, f: Uuid)
    ensures var after := RevokeFamiliesOf(families, owner);
            && (f in after <==> f in families)
            && (f in families ==> after[f] == families[f].(revoked := after[f].revoked))
  {
  }

  lemma ChainReset(cfg: Settings, w: World, req: Request, r: Result, m: Move, log: seq<Exchange>, f: Uuid)
    requires Chain(cfg, w, log, f) && Moves(cfg, w, req, r, m) && m.OwnerReset?
    ensures Chain(cfg, r.world, log + [Exchange(w.clock, req, r.reply)], f)
  {
    hide Chain;
    hide Rotations;
    hide RevokeFamiliesOf;
    RevokedRow(w.db.families, m.owner, f);
    AppendedRotations(w, r.world, AuditRow(ResetSuccess, Some(m.owner), None, true, w.clock), f);
    ChainFrame(cfg, w, req, r, log, f);
  }

  lemma ChainKept(cfg: Settings, w: World, req: Request, r: Result, log: seq<Exchange>, f: Uuid)
    requires Chain(cfg, w, log, f) && Moves(cfg, w, req, r, Kept)
    ensures Chain(cfg, r.world, log + [Exchange(w.clock, req, r.reply)], f)
  {
    hide Chain;
    QuietRotations(w, r.world, f);
    ChainFrame(cfg, w, req, r, log, f);
  }

  lemma ChainStep(cfg: Settings, w: World, req: Request, r: Result, m: Move, log: seq<Exchange>, f: Uuid)
    requires FamiliesSound(w) && Chain(cfg, w, log, f) && Moves(cfg, w, req, r, m)
    ensures Chain(cfg, r.world, log + [Exchange(w.clock, req, r.reply)], f)
  {
    hide Chain;
    hide Moves;
    hide FamiliesSound;
    match m
    case Kept => ChainKept(cfg, w, req, r, log, f);
    case Opened(_, _, _, _) => ChainOpened(cfg, w, req, r, m, log, f);
    case Turned(_, _, _) => ChainTurned(cfg, w, req, r, m, log, f);
    case ReuseCaught(_) => ChainReused(cfg, w, req, r, m, log, f);
    case OwnerReset(_) => ChainReset(cfg, w, req, r, m, log, f);
  }

  lemma ChainTick(cfg: Settings, w: World, delay: nat, log: seq<Exchange>, f: Uuid)
    requires Chain(cfg, w, log, f)
    ensures Chain(cfg, Tick(w, delay), log, f)
  {
  }

  lemma ExtendChains(cfg: Settings, t: Trace, e: Event)
    requires AllChains(cfg, t)
    ensures AllChains(cfg, Extend(cfg, t, e))
  {
    hide Handle;
    hide Chain;
    hide Moves;
    hide FamiliesSound;
    var w := Tick(t.world, e.delay);
    var m := Classify(cfg, w, e.request);
    var r := Handle(cfg, w, e.request);
    SoundTick(t.world, e.delay);
    SoundStep(cfg, w, e.request, r, m);
    forall f: Uuid ensures Chain(cfg, r.world, t.log + [Exchange(w.clock, e.request, r.reply)], f) {
      ChainTick(cfg, t.world, e.delay, t.log, f);
      ChainStep(cfg, w, e.request, r, m, t.log, f);
    }
  }

  lemma {:induction false} RunChains(cfg: Settings, t: Trace, events: seq<Event>)
    requires AllChains(cfg, t)
    ensures AllChains(cfg, Run(cfg, t, events))
  {
    hide AllChains;
    hide Extend;
    if events != [] {
      RunChains(cfg, t, events[..|events| - 1]);
      ExtendChains(cfg, Run(cfg, t, events[..|events| - 1]), events[|events| - 1]);
    }
  }

  lemma BootChains(cfg: Settings)
    ensures AllChains(cfg, BOOT)
  {
  }

  // ---- Main results about one family ----

  /**
   The rotation chain, in every run: the tokens a family exchanged are exactly all but the last of
   those it was issued, in order and once each; the stored hash is that of the last.
   */
  lemma {:induction false} RotationChain(cfg: Settings, events: seq<Event>, f: Uuid)
    ensures var t := Run(cfg, BOOT, events); Chain(cfg, t.world, t.log, f)
  {
    hide Chain;
    BootChains(cfg);
    RunChains(cfg, BOOT, events);
  }

  /** Two exchanges of a family in a row are less than one refresh lifetime apart. */
  lemma ExchangesWithinLifetime(cfg: Settings, events: seq<Event>, f: Uuid, i: nat)
    requires var accepted := Accepted(Run(cfg, BOOT, events).log, f); i + 1 < |accepted|
    ensures var accepted := Accepted(Run(cfg, BOOT, events).log, f);
            accepted[i + 1].at < accepted[i].at + cfg.refreshDays * 86400 * 1_000_000
  {
    hide Run;
    var t := Run(cfg, BOOT, events);
    RotationChain(cfg, events, f);
    var issued := Issued(t.log, f);
    assert issued[i + 1] in issued;
    ExpiryBound(issued[i + 1].at, cfg.Lifetime(RefreshToken), issued[i + 1].token, Accepted(t.log, f)[i + 1].at);
  }

  /**
   What a refresh request needs, on any reachable state: it succeeds exactly for the last token issued
   to a live family with an active owner, until the refresh lifetime, rounded down to a second, has passed
   since it was issued. Otherwise it is answered 401.
   */
  lemma {:induction false} AcceptedIff(cfg: Settings, events: seq<Event>, delay: nat, token: Claims)
    ensures var t := Run(cfg, BOOT, events);
            var w := Tick(t.world, delay);
            var f := token.family;
            Step(cfg, t.world, Event(delay, RefreshTokens(token))).reply.Returned?
            <==> && f.Some? && f.value in w.db.families && !w.db.families[f.value].revoked
                 && w.db.families[f.value].owner in w.db.users && w.db.users[w.db.families[f.value].owner].active
                 && Issued(t.log, f.value) != []
                 && var last := Issued(t.log, f.value)[|Issued(t.log, f.value)| - 1];
                    token == last.token
                    && w.clock < (last.at + cfg.refreshDays * 86400 * 1_000_000) / 1_000_000 * 1_000_000
    ensures var reply := Step(cfg, Run(cfg, BOOT, events).world, Event(delay, RefreshTokens(token))).reply;
            reply.Returned? || reply == Raised(401)
  {
    hide Run;
    hide Accounts.AccountsSound;
    hide Refresh;
    var t := Run(cfg, BOOT, events);
    BootChains(cfg);
    RunChains(cfg, BOOT, events);
    Accounts.NoServerError(cfg, events);
    Accounts.TickSound(t.world, delay);
    RefreshRefusal(cfg, Tick(t.world, delay), token);
    AcceptedHere(cfg, t, Tick(t.world, delay), token);
    if token.family.Some? && Issued(t.log, token.family.value) != [] {
      LastLives(cfg, t, token.family.value, t.world.clock + 1 + delay);
    }
  }

  lemma RefreshRefusal(cfg: Settings, w: World, token: Claims)
    requires Accounts.AccountsSound(w)
    ensures var reply := Refresh(cfg, w, token).reply; reply.Returned? || reply == Raised(401)
  {
    hide Refuse;
    hide Accounts.UsersSound;
    Accounts.RefuseStatus(w, 401, RefreshFailure, None, None);
    if token in w.minted {
      Accounts.SubjectExists(w, token);
      Accounts.RefuseStatus(w, 401, RefreshFailure, token.sub, None);
      Accounts.RefuseStatus(w, 401, RefreshFailure, token.sub, token.family);
    }
  }

  lemma LastLives(cfg: Settings, t: Trace, f: Uuid, now: Time)
    requires AllChains(cfg, t) && Issued(t.log, f) != []
    ensures var last := Issued(t.log, f)[|Issued(t.log, f)| - 1];
            Unexpired(last.token, now)
            <==> now < (last.at + cfg.refreshDays * 86400 * 1_000_000) / 1_000_000 * 1_000_000
  {
    hide Unexpired;
    assert Chain(cfg, t.world, t.log, f);
    var issued := Issued(t.log, f);
    var last := issued[|issued| - 1];
    assert last in issued;
    UnexpiredIff(last.at, cfg.Lifetime(RefreshToken), last.token, now);
  }

  lemma AcceptedHere(cfg: Settings, t: Trace, w: World, token: Claims)
    requires AllChains(cfg, t) && w == t.world.(clock := w.clock)
    ensures var f := token.family;
            Refresh(cfg, w, token).reply.Returned?
            <==> && f.Some? && f.value in w.db.families && !w.db.families[f.value].revoked
                 && w.db.families[f.value].owner in w.db.users && w.db.users[w.db.families[f.value].owner].active
                 && Issued(t.log, f.value) != []
                 && token == Issued(t.log, f.value)[|Issued(t.log, f.value)| - 1].token
                 && Unexpired(token, w.clock)
  {
    if token.family.Some? {
      var f := token.family.value;
      assert Chain(cfg, t.world, t.log, f);
      if f in w.db.families {
        var issued := Issued(t.log, f);
        assert issued[|issued| - 1] in issued;
      }
    }
  }

  // ---- Revocation ----

  lemma RevokedStep(cfg: Settings, t: Trace, e: Event, f: Uuid)
    requires AllChains(cfg, t) && f in t.world.db.families && t.world.db.families[f].revoked
    ensures var t' := Extend(cfg, t, e);
            && f in t'.world.db.families && t'.world.db.families[f].revoked
            && Accepted(t'.log, f) == Accepted(t.log, f)
  {
    hide Handle;
    hide Chain;
    hide Accepted;
    hide Issued;
    var w := Tick(t.world, e.delay);
    var m := Classify(cfg, w, e.request);
    LogStep(t.log, Exchange(w.clock, e.request, Handle(cfg, w, e.request).reply), f);
  }

  /** A revoked family stays revoked, and none of its tokens is ever exchanged again. */
  lemma {:induction false} RevokedForever(cfg: Settings, t: Trace, more: seq<Event>, f: Uuid)
    requires AllChains(cfg, t) && f in t.world.db.families && t.world.db.families[f].revoked
    ensures var t' := Run(cfg, t, more);
            && f in t'.world.db.families && t'.world.db.families[f].revoked
            && Accepted(t'.log, f) == Accepted(t.log, f)
  {
    hide AllChains;
    hide Extend;
    if more != [] {
      var before := more[..|more| - 1];
      RevokedForever(cfg, t, before, f);
      RunChains(cfg, t, before);
      RevokedStep(cfg, Run(cfg, t, before), more[|more| - 1], f);
    }
  }

  /**
   Reuse is final. Presenting an issued, unexpired token that is not the last of a live family with an
   active owner raises, and yet commits the revocation of that one family and of nothing else; no
   continuation ever accepts a token of the family.
   */
  lemma {:induction false} ReuseIsFinal(cfg: Settings, events: seq<Event>, delay: nat, f: Uuid, k: nat,
          more: seq<Event>)
    requires var t := Run(cfg, BOOT, events); var issued := Issued(t.log, f);
             && k + 1 < |issued| && Unexpired(issued[k].token, t.world.clock + 1 + delay)
             && f in t.world.db.families && !t.world.db.families[f].revoked
             && t.world.db.families[f].owner in t.world.db.users
             && t.world.db.users[t.world.db.families[f].owner].active
    ensures var t := Run(cfg, BOOT, events);
            var token := Issued(t.log, f)[k].token;
            var e := Event(delay, RefreshTokens(token));
            var caught := Extend(cfg, t, e);
            && Step(cfg, t.world, e).reply == Raised(401)
            && caught.world.db.families == t.world.db.families[f := t.world.db.families[f].(revoked := true)]
            && Accepted(Run(cfg, caught, more).log, f) == Accepted(t.log, f)
  {
    hide Run;
    hide Chain;
    var t := Run(cfg, BOOT, events);
    BootChains(cfg);
    RunChains(cfg, BOOT, events);
    var token := Issued(t.log, f)[k].token;
    var e := Event(delay, RefreshTokens(token));
    ReuseRaises(cfg, t, delay, f, k);
    ExtendChains(cfg, t, e);
    RevokedForever(cfg, Extend(cfg, t, e), more, f);
    LogStep(t.log, Exchange(t.world.clock + 1 + delay, e.request, Raised(401)), f);
  }

  lemma ReuseRaises(cfg: Settings, t: Trace, delay: nat, f: Uuid, k: nat)
    requires AllChains(cfg, t)
    requires k + 1 < |Issued(t.log, f)| && Unexpired(Issued(t.log, f)[k].token, t.world.clock + 1 + delay)
    requires f in t.world.db.families && !t.world.db.families[f].revoked
    requires t.world.db.families[f].owner in t.world.db.users && t.world.db.users[t.world.db.families[f].owner].active
    ensures var r := Step(cfg, t.world, Event(delay, RefreshTokens(Issued(t.log, f)[k].token)));
            && r.reply == Raised(401)
            && r.world.db.families == t.world.db.families[f := t.world.db.families[f].(revoked := true)]
  {
    hide Refuse;
    hide Issued;
    hide Accepted;
    hide Rotations;
    var issued := Issued(t.log, f);
    assert Chain(cfg, t.world, t.log, f);
    assert issued[k] in issued;
    assert issued[k].token != issued[|issued| - 1].token;
  }

  // ---- Password reset ----

  /** Families opened by a step are dated by that step. */
  lemma NewFamiliesDated(cfg: Settings, t: Trace, e: Event, f: Uuid)
    requires AllChains(cfg, t)
    ensures f in t.world.db.families ==> f in Extend(cfg, t, e).world.db.families
    ensures f in t.world.db.families ==>
              Extend(cfg, t, e).world.db.families[f].owner == t.world.db.families[f].owner
              && Extend(cfg, t, e).world.db.families[f].createdAt == t.world.db.families[f].createdAt
    ensures f in Extend(cfg, t, e).world.db.families && f !in t.world.db.families ==>
              Extend(cfg, t, e).world.db.families[f].createdAt == t.world.clock + 1 + e.delay
    ensures Extend(cfg, t, e).world.clock == t.world.clock + 1 + e.delay
  {
    hide Handle;
    hide Chain;
    var m := Classify(cfg, Tick(t.world, e.delay), e.request);
  }

  lemma {:induction false} LaterFamilies(cfg: Settings, t: Trace, more: seq<Event>, f: Uuid)
    requires AllChains(cfg, t)
    ensures var t' := Run(cfg, t, more);
            && t.world.clock <= t'.world.clock
            && (f in t.world.db.families ==> f in t'.world.db.families
                                             && t'.world.db.families[f].owner == t.world.db.families[f].owner)
            && (f in t'.world.db.families && f !in t.world.db.families ==>
                  t.world.clock < t'.world.db.families[f].createdAt)
  {
    hide AllChains;
    hide Extend;
    if more != [] {
      var before := more[..|more| - 1];
      LaterFamilies(cfg, t, before, f);
      RunChains(cfg, t, before);
      NewFamiliesDated(cfg, Run(cfg, t, before), more[|more| - 1], f);
    }
  }

  /**
   The reset cut-off. A successful reset leaves other users' families alone; after it, whatever
   happens, no token of a family its owner already had is accepted, and every family of the owner
   that is still live was opened later than the reset.
   */
  lemma {:induction false} ResetCutOff(cfg: Settings, events: seq<Event>, e: Event, more: seq<Event>, f: Uuid)
    requires e.request.ResetPassword? && Step(cfg, Run(cfg, BOOT, events).world, e).reply.Returned?
    ensures var t := Run(cfg, BOOT, events);
            var reset := Extend(cfg, t, e);
            var later := Run(cfg, reset, more);
            exists u | u in t.world.db.users ::
              && ByReset(t.world.db, e.request.mailed) == OneRow(u)
              && (f in t.world.db.families && t.world.db.families[f].owner != u ==>
                    f in reset.world.db.families && reset.world.db.families[f] == t.world.db.families[f])
              && (f in t.world.db.families && t.world.db.families[f].owner == u ==>
                    Accepted(later.log, f) == Accepted(t.log, f))
              && (f in later.world.db.families && later.world.db.families[f].owner == u
                   && !later.world.db.families[f].revoked ==>
                    reset.world.clock < later.world.db.families[f].createdAt)
  {
    hide Run;
    hide Chain;
    var t := Run(cfg, BOOT, events);
    BootChains(cfg);
    RunChains(cfg, BOOT, events);
    var reset := Extend(cfg, t, e);
    ExtendChains(cfg, t, e);
    var u := ResetHere(cfg, t, e);
    LaterFamilies(cfg, reset, more, f);
    if f in reset.world.db.families && reset.world.db.families[f].revoked {
      RevokedForever(cfg, reset, more, f);
    }
    LogStep(t.log, Exchange(t.world.clock + 1 + e.delay, e.request, Step(cfg, t.world, e).reply), f);
  }

  lemma ResetHere(cfg: Settings, t: Trace, e: Event) returns (u: Uuid)
    requires e.request.ResetPassword? && Step(cfg, t.world, e).reply.Returned?
    ensures u in t.world.db.users && ByReset(t.world.db, e.request.mailed) == OneRow(u)
    ensures Extend(cfg, t, e).world.db.families == RevokeFamiliesOf(t.world.db.families, u)
  {
    hide ByReset;
    hide Refuse;
    var w := Tick(t.world, e.delay);
    u := ByReset(w.db, e.request.mailed).id;
  }
}
