/**
 What a permission check means over every run, in terms of the requests that were answered
 (app/services/rbac_service.py:12-164), and what the audit log says about the tables.
 */
module RbacClosure {
  import opened Prelude
  import opened Text
  import opened Rbac

  // ---- What the transcript says ----

  /** The exchange made permission `p` under this lower-case name. */
  predicate Makes(x: Exchange, p: Uuid, name: string) {
    x.request.CreatePermission? && Lower(x.request.name) == name && x.reply == MadePermission(p)
  }

  predicate Links(x: Exchange, role: Uuid, p: Uuid) {
    x.request.AssignPermissionToRole? && x.request.role == role && x.request.permission == p && x.reply == Done
  }

  predicate Grants(x: Exchange, user: Uuid, role: Uuid) {
    x.request.AssignRoleToUser? && x.request.user == user && x.request.role == role && x.reply == Done
  }

  /** Answered requests that lead from the user through a role to a permission of that name. */
  ghost predicate Path(log: seq<Exchange>, user: Uuid, name: string) {
    exists made, link, given | made in log && link in log && given in log ::
      && made.reply.MadePermission? && Makes(made, made.reply.permission, Lower(name))
      && link.request.AssignPermissionToRole? && Links(link, link.request.role, made.reply.permission)
      && Grants(given, user, link.request.role)
  }

  // ---- Invariants ----

  predicate Named(permissions: map<Uuid, Permission>, p: Uuid, name: string) {
    p in permissions && permissions[p].name == name
  }

  ghost predicate PermissionsLogged(log: seq<Exchange>, permissions: map<Uuid, Permission>) {
    forall p, name :: Named(permissions, p, name) <==> (exists x | x in log :: Makes(x, p, name))
  }

  ghost predicate LinksLogged(log: seq<Exchange>, edges: set<RoleEdge>) {
    forall role, p :: RoleEdge(role, p) in edges <==> (exists x | x in log :: Links(x, role, p))
  }

  ghost predicate GrantsLogged(log: seq<Exchange>, edges: set<UserEdge>) {
    forall user, role :: UserEdge(user, role) in edges <==> (exists x | x in log :: Grants(x, user, role))
  }

  /** The tables hold exactly what was answered. */
  ghost predicate Logged(t: Trace) {
    && PermissionsLogged(t.log, t.world.db.permissions)
    && LinksLogged(t.log, t.world.db.rolePermissions)
    && GrantsLogged(t.log, t.world.db.userRoles)
  }

  ghost predicate DbSound(db: Db, nextId: Uuid) {
    && (forall r | r in db.roles :: r < nextId && db.roles[r] == Lower(db.roles[r]))
    && (forall p | p in db.permissions :: p < nextId && db.permissions[p].name == Lower(db.permissions[p].name))
    && (forall r, s | r in db.roles && s in db.roles && r != s :: db.roles[r] != db.roles[s])
    && (forall p, q | p in db.permissions && q in db.permissions && p != q ::
          db.permissions[p].name != db.permissions[q].name)
    && (forall e | e in db.rolePermissions :: e.role in db.roles && e.permission in db.permissions)
    && (forall e | e in db.userRoles :: e.user in db.superusers && e.role in db.roles)
  }

  lemma MadeRoleSound(w: World, actor: Option<Uuid>, name: string)
    requires DbSound(w.db, w.nextId)
    ensures var r := MakeRole(w, actor, name); DbSound(r.world.db, r.world.nextId)
  {
    hide RoleByName;
    LowerIdempotent(name);
  }

  lemma MadePermissionSound(w: World, req: Request)
    requires DbSound(w.db, w.nextId) && req.CreatePermission?
    ensures var r := Handle(w, req); DbSound(r.world.db, r.world.nextId)
  {
    hide PermissionByName;
    LowerIdempotent(req.name);
  }

  lemma SoundStep(w: World, req: Request)
    requires DbSound(w.db, w.nextId)
    ensures var r := Handle(w, req); DbSound(r.world.db, r.world.nextId)
  {
    hide HasPermission;
    if req.CreateRole? {
      hide MakeRole;
      hide DbSound;
      MadeRoleSound(w, req.actor, req.name);
    } else if req.CreatePermission? {
      hide Handle;
      hide DbSound;
      MadePermissionSound(w, req);
    }
  }

  lemma PermissionLogged(log: seq<Exchange>, permissions: map<Uuid, Permission>, x: Exchange,
          after: map<Uuid, Permission>)
    requires PermissionsLogged(log, permissions)
    requires if x.reply.MadePermission? && x.request.CreatePermission?
             then x.reply.permission !in permissions
                  && exists row :: after == permissions[x.reply.permission := row] && row.name == Lower(x.request.name)
             else after == permissions
    ensures PermissionsLogged(log + [x], after)
  {
    forall p, name
      ensures Named(after, p, name) <==> (exists y | y in log + [x] :: Makes(y, p, name))
    {
      assert Named(permissions, p, name) <==> (exists y | y in log :: Makes(y, p, name));
      if y :| y in log && Makes(y, p, name) {
        assert y in log + [x];
      }
      assert x in log + [x];
    }
  }

  lemma LinkLogged(log: seq<Exchange>, edges: set<RoleEdge>, x: Exchange)
    requires LinksLogged(log, edges)
    ensures LinksLogged(log + [x], edges + Linked(x))
  {
    forall role, p
      ensures RoleEdge(role, p) in edges + Linked(x) <==> (exists y | y in log + [x] :: Links(y, role, p))
    {
      assert RoleEdge(role, p) in edges <==> (exists y | y in log :: Links(y, role, p));
      if y :| y in log && Links(y, role, p) {
        assert y in log + [x];
      }
      assert x in log + [x];
    }
  }

  /** The edges that an exchange accounts for. */
  function Linked(x: Exchange): set<RoleEdge> {
    if x.request.AssignPermissionToRole? && x.reply == Done then {RoleEdge(x.request.role, x.request.permission)}
      else {}
  }

  function Granted(x: Exchange): set<UserEdge> {
    if x.request.AssignRoleToUser? && x.reply == Done then {UserEdge(x.request.user, x.request.role)} else {}
  }

  lemma GrantLogged(log: seq<Exchange>, edges: set<UserEdge>, x: Exchange)
    requires GrantsLogged(log, edges)
    ensures GrantsLogged(log + [x], edges + Granted(x))
  {
    forall user, role
      ensures UserEdge(user, role) in edges + Granted(x) <==> (exists y | y in log + [x] :: Grants(y, user, role))
    {
      assert UserEdge(user, role) in edges <==> (exists y | y in log :: Grants(y, user, role));
      if y :| y in log && Grants(y, user, role) {
        assert y in log + [x];
      }
      assert x in log + [x];
    }
  }

  lemma TablesStep(w: World, req: Request)
    requires DbSound(w.db, w.nextId)
    ensures var r := Handle(w, req);
            var x := Exchange(req, r.reply);
            && r.world.db.rolePermissions == w.db.rolePermissions + Linked(x)
            && r.world.db.userRoles == w.db.userRoles + Granted(x)
            && (if r.reply.MadePermission?
                then && req.CreatePermission? && r.reply.permission == w.nextId
                     && r.world.db.permissions[w.nextId].name == Lower(req.name)
                     && r.world.db.permissions == w.db.permissions[w.nextId := r.world.db.permissions[w.nextId]]
                else r.world.db.permissions == w.db.permissions)
  {
    hide RoleByName;
    hide PermissionByName;
    hide HasPermission;
    hide DbSound;
  }

  lemma LoggedStep(t: Trace, req: Request)
    requires Logged(t) && DbSound(t.world.db, t.world.nextId)
    ensures Logged(Extend(t, req))
  {
    hide Handle;
    hide PermissionsLogged;
    hide LinksLogged;
    hide GrantsLogged;
    var r := Handle(t.world, req);
    var x := Exchange(req, r.reply);
    TablesStep(t.world, req);
    PermissionLogged(t.log, t.world.db.permissions, x, r.world.db.permissions);
    LinkLogged(t.log, t.world.db.rolePermissions, x);
    GrantLogged(t.log, t.world.db.userRoles, x);
  }

  /** In every run the tables are sound and hold exactly what was answered. */
  lemma {:induction false} RunLogged(reqs: seq<Request>)
    ensures Logged(Run(BOOT, reqs))
    ensures var w := Run(BOOT, reqs).world; DbSound(w.db, w.nextId)
  {
    hide Handle;
    hide Logged;
    hide DbSound;
    if reqs == [] {
      BootLogged();
    } else {
      RunLogged(reqs[..|reqs| - 1]);
      var t := Run(BOOT, reqs[..|reqs| - 1]);
      SoundStep(t.world, reqs[|reqs| - 1]);
      LoggedStep(t, reqs[|reqs| - 1]);
    }
  }

  lemma BootLogged()
    ensures Logged(BOOT) && DbSound(BOOT.world.db, BOOT.world.nextId)
  {
  }

  // ---- Permission checks ----

  lemma JoinIsPath(t: Trace, user: Uuid, name: string)
    requires Logged(t) && DbSound(t.world.db, t.world.nextId)
    ensures Lower(name) in UserPermissions(t.world.db, user) <==> Path(t.log, user, name)
  {
    var db := t.world.db;
    if Lower(name) in UserPermissions(db, user) {
      var grant, edge :| grant in db.userRoles && edge in db.rolePermissions && grant.user == user
        && grant.role == edge.role && edge.permission in db.permissions
        && db.permissions[edge.permission].name == Lower(name);
      JoinToPath(t, grant, edge, name);
    }
    if Path(t.log, user, name) {
      PathToJoin(t, user, name);
    }
  }

  lemma JoinToPath(t: Trace, grant: UserEdge, edge: RoleEdge, name: string)
    requires Logged(t) && grant in t.world.db.userRoles && edge in t.world.db.rolePermissions && grant.role == edge.role
    requires Named(t.world.db.permissions, edge.permission, Lower(name))
    ensures Path(t.log, grant.user, name)
  {
    assert UserEdge(grant.user, grant.role) in t.world.db.userRoles;
    assert RoleEdge(edge.role, edge.permission) in t.world.db.rolePermissions;
    var made :| made in t.log && Makes(made, edge.permission, Lower(name));
    var link :| link in t.log && Links(link, edge.role, edge.permission);
    var given :| given in t.log && Grants(given, grant.user, grant.role);
  }

  lemma PathToJoin(t: Trace, user: Uuid, name: string)
    requires Logged(t) && Path(t.log, user, name)
    ensures Lower(name) in UserPermissions(t.world.db, user)
  {
    var made, link, given :| made in t.log && link in t.log && given in t.log
      && made.reply.MadePermission? && Makes(made, made.reply.permission, Lower(name))
      && link.request.AssignPermissionToRole? && Links(link, link.request.role, made.reply.permission)
      && Grants(given, user, link.request.role);
    var p, role := made.reply.permission, link.request.role;
    assert Named(t.world.db.permissions, p, Lower(name));
    assert RoleEdge(role, p) in t.world.db.rolePermissions;
    assert UserEdge(user, role) in t.world.db.userRoles;
  }

  /**
   In every run a permission check succeeds exactly when the user is a superuser or answered requests made a
   permission of that name, up to case, put it in a role, and gave the user that role. It is refused with 401 for
   an unknown user and 403 otherwise, and changes nothing.
   */
  lemma CheckIsPath(reqs: seq<Request>, user: Uuid, name: string)
    ensures var t := Run(BOOT, reqs);
            Handle(t.world, RequirePermission(user, name))
            == Result(t.world, if user !in t.world.db.superusers then Raised(401)
                               else if t.world.db.superusers[user] || Path(t.log, user, name) then Done
                               else Raised(403))
  {
    hide Run;
    hide Path;
    hide UserPermissions;
    RunLogged(reqs);
    JoinIsPath(Run(BOOT, reqs), user, name);
  }

  // ---- Nothing is taken back ----

  ghost predicate Grows(t: Trace, later: Trace) {
    && (forall x | x in t.log :: x in later.log)
    && t.world.db.superusers.Keys <= later.world.db.superusers.Keys
    && t.world.db.rolePermissions <= later.world.db.rolePermissions
    && t.world.db.userRoles <= later.world.db.userRoles
    && (forall r | r in t.world.db.roles :: r in later.world.db.roles && later.world.db.roles[r] == t.world.db.roles[r])
    && (forall p | p in t.world.db.permissions ::
          p in later.world.db.permissions && later.world.db.permissions[p] == t.world.db.permissions[p])
  }

  lemma MakingGrows(t: Trace, req: Request)
    requires DbSound(t.world.db, t.world.nextId) && (req.CreateRole? || req.CreatePermission?)
    ensures Grows(t, Extend(t, req))
  {
    hide RoleByName;
    hide PermissionByName;
    assert t.world.nextId !in t.world.db.roles && t.world.nextId !in t.world.db.permissions;
    hide DbSound;
  }

  lemma GrowsStep(t: Trace, req: Request)
    requires DbSound(t.world.db, t.world.nextId)
    ensures Grows(t, Extend(t, req))
  {
    hide HasPermission;
    if req.CreateRole? || req.CreatePermission? {
      hide Extend;
      MakingGrows(t, req);
    } else {
      hide DbSound;
    }
  }

  lemma GrowsTransitive(a: Trace, b: Trace, c: Trace)
    requires Grows(a, b) && Grows(b, c)
    ensures Grows(a, c)
  {
  }

  /** No request removes a row of these tables or renames anything. */
  lemma {:induction false} RunGrows(t: Trace, more: seq<Request>)
    requires DbSound(t.world.db, t.world.nextId)
    ensures Grows(t, Run(t, more))
    ensures DbSound(Run(t, more).world.db, Run(t, more).world.nextId)
  {
    hide Handle;
    hide DbSound;
    if more == [] {
    } else {
      hide Grows;
      var mid := Run(t, more[..|more| - 1]);
      RunGrows(t, more[..|more| - 1]);
      GrowsStep(mid, more[|more| - 1]);
      SoundStep(mid.world, more[|more| - 1]);
      GrowsTransitive(t, mid, Run(t, more));
    }
  }

  lemma PathGrows(t: Trace, later: Trace, user: Uuid, name: string)
    requires Grows(t, later) && Path(t.log, user, name)
    ensures Path(later.log, user, name)
  {
    var made, link, given :| made in t.log && link in t.log && given in t.log
      && made.reply.MadePermission? && Makes(made, made.reply.permission, Lower(name))
      && link.request.AssignPermissionToRole? && Links(link, link.request.role, made.reply.permission)
      && Grants(given, user, link.request.role);
    assert made in later.log && link in later.log && given in later.log;
  }

  lemma GrowsKeepsUser(t: Trace, later: Trace, user: Uuid)
    requires Grows(t, later) && user in t.world.db.superusers
    ensures user in later.world.db.superusers
  {
  }

  /** What a user who is not a superuser may do, they may do for good. */
  lemma {:induction false} GrantedForever(reqs: seq<Request>, more: seq<Request>, user: Uuid, name: string)
    requires var w := Run(BOOT, reqs).world;
             user in w.db.superusers && !w.db.superusers[user] && Handle(w, RequirePermission(user, name)).reply == Done
    ensures Handle(Run(BOOT, reqs + more).world, RequirePermission(user, name)).reply == Done
  {
    hide Run;
    hide Path;
    hide Grows;
    hide DbSound;
    hide Handle;
    var t, later := Run(BOOT, reqs), Run(BOOT, reqs + more);
    CheckIsPath(reqs, user, name);
    RunLogged(reqs);
    RunGrows(t, more);
    RunConcat(BOOT, reqs, more);
    PathGrows(t, later, user, name);
    GrowsKeepsUser(t, later, user);
    CheckIsPath(reqs + more, user, name);
  }

  /** Assigning again what was assigned answers as before and writes nothing, not even an audit row. */
  lemma {:induction false} RepeatedAssignmentAddsNothing(reqs: seq<Request>, first: Request, more: seq<Request>,
          again: Request)
    requires Handle(Run(BOOT, reqs).world, first).reply == Done
    requires first.AssignPermissionToRole? || first.AssignRoleToUser?
    requires first.AssignPermissionToRole? ==>
               again.AssignPermissionToRole? && again.role == first.role && again.permission == first.permission
    requires first.AssignRoleToUser? ==>
               again.AssignRoleToUser? && again.role == first.role && again.user == first.user
    ensures var w := Run(Extend(Run(BOOT, reqs), first), more).world; Handle(w, again) == Result(w, Done)
  {
    hide Run;
    hide DbSound;
    var t := Run(BOOT, reqs);
    RunLogged(reqs);
    TablesStep(t.world, first);
    SoundStep(t.world, first);
    RunGrows(Extend(t, first), more);
    AssignedAgain(Extend(t, first), Run(Extend(t, first), more), again);
  }

  lemma AssignedAgain(t: Trace, later: Trace, again: Request)
    requires Grows(t, later) && DbSound(later.world.db, later.world.nextId)
    requires (again.AssignPermissionToRole? && RoleEdge(again.role, again.permission) in t.world.db.rolePermissions)
             || (again.AssignRoleToUser? && UserEdge(again.user, again.role) in t.world.db.userRoles)
    ensures Handle(later.world, again) == Result(later.world, Done)
  {
  }

  /** A name once given to a role or a permission is taken for good, in any case. */
  lemma NamesAreTaken(reqs: seq<Request>, first: Request, more: seq<Request>, again: Request)
    requires Handle(Run(BOOT, reqs).world, first).reply.MadeRole?
             || Handle(Run(BOOT, reqs).world, first).reply.MadePermission?
    requires first.CreateRole? || first.CreatePermission?
    requires if first.CreateRole? then again.CreateRole? && Lower(again.name) == Lower(first.name)
             else again.CreatePermission? && Lower(again.name) == Lower(first.name)
    ensures var w := Run(Extend(Run(BOOT, reqs), first), more).world; Handle(w, again) == Result(w, Raised(409))
  {
    hide Run;
    hide DbSound;
    hide Grows;
    hide Handle;
    var t := Run(BOOT, reqs);
    RunLogged(reqs);
    SoundStep(t.world, first);
    var id := Created(t.world, first);
    RunGrows(Extend(t, first), more);
    NameTaken(Extend(t, first), Run(Extend(t, first), more), id, again);
  }

  lemma Created(w: World, first: Request) returns (id: Uuid)
    requires Handle(w, first).reply.MadeRole? || Handle(w, first).reply.MadePermission?
    ensures var db := Handle(w, first).world.db;
            if first.CreateRole? then id in db.roles && db.roles[id] == Lower(first.name)
            else first.CreatePermission? && Named(db.permissions, id, Lower(first.name))
  {
    hide RoleByName;
    hide PermissionByName;
    hide HasPermission;
    id := w.nextId;
  }

  lemma NameTaken(t: Trace, later: Trace, id: Uuid, again: Request)
    requires Grows(t, later) && DbSound(later.world.db, later.world.nextId)
    requires (again.CreateRole? && id in t.world.db.roles && t.world.db.roles[id] == Lower(again.name))
             || (again.CreatePermission? && Named(t.world.db.permissions, id, Lower(again.name)))
    ensures Handle(later.world, again) == Result(later.world, Raised(409))
  {
    var db := later.world.db;
    if again.CreateRole? {
      var ids := set x | x in db.roles && db.roles[x] == Lower(again.name);
      assert ids == {id};
    } else {
      var ids := set x | x in db.permissions && db.permissions[x].name == Lower(again.name);
      assert ids == {id};
    }
  }

  // ---- The audit log ----

  /** The tables that a sequence of audit rows accounts for. */
  function Replay(audit: seq<AuditRow>): Db {
    if audit == [] then EMPTY else Replayed(Replay(audit[..|audit| - 1]), audit[|audit| - 1].event)
  }

  function Replayed(db: Db, event: AuditEvent): Db {
    match event
    case RoleCreated(role, name) => db.(roles := db.roles[role := name])
    case PermissionCreated(p, made) => db.(permissions := db.permissions[p := made])
    case PermissionAssigned(edge, _, _) => db.(rolePermissions := db.rolePermissions + {edge})
    case RoleAssigned(grant, _) => db.(userRoles := db.userRoles + {grant})
  }

  ghost predicate Replays(db: Db) {
    && db.(superusers := map[], audit := []) == Replay(db.audit)
    && forall i | 0 <= i < |db.audit| :: Replay(db.audit[..i + 1]) != Replay(db.audit[..i])
  }

  lemma ReplayAppend(audit: seq<AuditRow>, row: AuditRow)
    ensures Replay(audit + [row]) == Replayed(Replay(audit), row.event)
  {
    assert (audit + [row])[..|audit|] == audit;
  }

  lemma ReplaysRow(db: Db, row: AuditRow, after: Db)
    requires Replays(db)
    requires after.audit == db.audit + [row]
    requires after.(superusers := map[], audit := []) == Replayed(db.(superusers := map[], audit := []), row.event)
    requires after.(superusers := map[], audit := []) != db.(superusers := map[], audit := [])
    ensures Replays(after)
  {
    hide Replayed;
    ReplayAppend(db.audit, row);
    forall i | 0 <= i < |after.audit| ensures Replay(after.audit[..i + 1]) != Replay(after.audit[..i]) {
      assert after.audit[..i] == db.audit[..i];
      if i < |db.audit| {
        assert after.audit[..i + 1] == db.audit[..i + 1];
      } else {
        assert after.audit[..i + 1] == after.audit && db.audit[..i] == db.audit;
      }
    }
  }

  lemma RowChanges(w: World, req: Request)
    requires DbSound(w.db, w.nextId) && Handle(w, req).world.db.audit != w.db.audit
    ensures Handle(w, req).world.db.(superusers := map[], audit := []) != w.db.(superusers := map[], audit := [])
  {
    hide RoleByName;
    hide PermissionByName;
    hide HasPermission;
    var db := Handle(w, req).world.db;
    assert w.nextId !in w.db.roles && w.nextId !in w.db.permissions;
    match req
    case CreateRole(_, _) => assert w.nextId in db.roles;
    case CreatePermission(_, _, _, _) => assert w.nextId in db.permissions;
    case AssignPermissionToRole(_, role, p) => assert RoleEdge(role, p) in db.rolePermissions;
    case AssignRoleToUser(_, user, role) => assert UserEdge(user, role) in db.userRoles;
    case _ =>
  }

  lemma ReplaysStep(w: World, req: Request)
    requires Replays(w.db) && DbSound(w.db, w.nextId)
    ensures Replays(Handle(w, req).world.db)
  {
    hide RoleByName;
    hide PermissionByName;
    hide HasPermission;
    hide Replays;
    var db := Handle(w, req).world.db;
    if db.audit != w.db.audit {
      RowChanges(w, req);
      ReplaysRow(w.db, db.audit[|w.db.audit|], db);
    } else {
      ReplaysSame(w.db, db);
    }
  }

  lemma ReplaysSame(db: Db, after: Db)
    requires Replays(db) && after.(superusers := db.superusers) == db
    ensures Replays(after)
  {
  }

  /**
   In every run the audit rows replay to exactly the role, permission and edge tables, and every row
   records a real change: no assignment is audited twice.
   */
  lemma {:induction false} AuditReplaysTables(reqs: seq<Request>)
    ensures Replays(Run(BOOT, reqs).world.db)
  {
    hide Handle;
    hide Replays;
    hide DbSound;
    if reqs == [] {
      BootReplays();
    } else {
      AuditReplaysTables(reqs[..|reqs| - 1]);
      RunLogged(reqs[..|reqs| - 1]);
      ReplaysStep(Run(BOOT, reqs[..|reqs| - 1]).world, reqs[|reqs| - 1]);
    }
  }

  lemma BootReplays()
    ensures Replays(EMPTY)
  {
  }
}
