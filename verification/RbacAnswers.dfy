/**
 What the role and permission services answer in every run (app/services/rbac_service.py:12-142), told from what
 they answered before.
 */
module RbacAnswers {
  import opened Prelude
  import opened Text
  import opened Rbac
  import opened RbacClosure

  // ---- What the transcript says ----

  /** The exchange made this role under this lower-case name. */
  predicate MakesRole(x: Exchange, role: Uuid, name: string) {
    x.request.CreateRole? && Lower(x.request.name) == name && x.reply == MadeRole(role)
  }

  ghost predicate RoleMade(log: seq<Exchange>, role: Uuid, name: string) {
    exists x | x in log :: MakesRole(x, role, name)
  }

  ghost predicate PermissionMade(log: seq<Exchange>, p: Uuid, name: string) {
    exists x | x in log :: Makes(x, p, name)
  }

  ghost predicate LinkMade(log: seq<Exchange>, role: Uuid, p: Uuid) {
    exists x | x in log :: Links(x, role, p)
  }

  ghost predicate GrantMade(log: seq<Exchange>, user: Uuid, role: Uuid) {
    exists x | x in log :: Grants(x, user, role)
  }

  predicate Holds(roles: map<Uuid, string>, role: Uuid, name: string) {
    role in roles && roles[role] == name
  }

  ghost predicate RolesLogged(log: seq<Exchange>, roles: map<Uuid, string>) {
    forall role, name :: Holds(roles, role, name) <==> RoleMade(log, role, name)
  }

  // ---- The role table holds exactly what was answered ----

  lemma RoleAppend(log: seq<Exchange>, x: Exchange, role: Uuid, name: string)
    ensures RoleMade(log + [x], role, name) <==> RoleMade(log, role, name) || MakesRole(x, role, name)
  {
    hide MakesRole;
    if y :| y in log && MakesRole(y, role, name) {
      assert y in log + [x];
    }
    assert x in log + [x];
  }

  lemma RolesStep(w: World, req: Request)
    requires DbSound(w.db, w.nextId)
    ensures var r := Handle(w, req);
            if r.reply.MadeRole?
            then req.CreateRole? && r.reply.role !in w.db.roles
                 && r.world.db.roles == w.db.roles[r.reply.role := Lower(req.name)]
            else r.world.db.roles == w.db.roles
  {
    hide RoleByName;
    hide PermissionByName;
    hide HasPermission;
    assert w.nextId !in w.db.roles;
    hide DbSound;
  }

  lemma {:induction false} RunRoles(reqs: seq<Request>)
    ensures var t := Run(BOOT, reqs); RolesLogged(t.log, t.world.db.roles)
  {
    hide Handle;
    hide RoleMade;
    hide DbSound;
    if reqs == [] {
      forall role, name ensures !RoleMade([], role, name) {
        BootRole(role, name);
      }
    } else {
      var t, req := Run(BOOT, reqs[..|reqs| - 1]), reqs[|reqs| - 1];
      RunRoles(reqs[..|reqs| - 1]);
      RunLogged(reqs[..|reqs| - 1]);
      RolesStep(t.world, req);
      var r := Handle(t.world, req);
      forall role, name
        ensures Holds(r.world.db.roles, role, name) <==> RoleMade(t.log + [Exchange(req, r.reply)], role, name)
      {
        RoleAppend(t.log, Exchange(req, r.reply), role, name);
      }
    }
  }

  lemma BootRole(role: Uuid, name: string)
    ensures !RoleMade([], role, name)
  {
  }

  // ---- Look-ups by name ----

  lemma FindsRole(w: World, name: string)
    requires DbSound(w.db, w.nextId)
    ensures !RoleByName(w.db, name).ManyRows?
    ensures RoleByName(w.db, name).OneRow? <==> exists role :: Holds(w.db.roles, role, Lower(name))
  {
    var db := w.db;
    var ids := set x | x in db.roles && db.roles[x] == Lower(name);
    if role :| Holds(db.roles, role, Lower(name)) {
      assert ids == {role};
    } else {
      assert forall x | x in db.roles :: Holds(db.roles, x, db.roles[x]);
      assert ids == {};
    }
  }

  lemma FindsPermission(w: World, name: string)
    requires DbSound(w.db, w.nextId)
    ensures !PermissionByName(w.db, name).ManyRows?
    ensures PermissionByName(w.db, name).OneRow? <==> exists p :: Named(w.db.permissions, p, Lower(name))
  {
    var db := w.db;
    var ids := set x | x in db.permissions && db.permissions[x].name == Lower(name);
    if p :| Named(db.permissions, p, Lower(name)) {
      assert ids == {p};
    } else {
      assert forall x | x in db.permissions :: Named(db.permissions, x, db.permissions[x].name);
      assert ids == {};
    }
  }

  // ---- Main results ----

  predicate KnownActor(w: World, actor: Option<Uuid>) {
    actor.Some? ==> actor.value in w.db.superusers
  }

  /**
   In every run a role is created unless one of that name, up to case, was created before (409) or the acting user
   does not exist (500): its id is new, its name is stored in lower case, and nothing else changes but the audit.
   */
  lemma {:induction false} RoleAnswer(reqs: seq<Request>, actor: Option<Uuid>, name: string)
    ensures var t := Run(BOOT, reqs);
            var r := Handle(t.world, CreateRole(actor, name));
            var db, db' := t.world.db, r.world.db;
            if exists role :: RoleMade(t.log, role, Lower(name)) then r == Result(t.world, Raised(409))
            else if !KnownActor(t.world, actor) then r.reply == Raised(500) && db' == db
            else
              && r.reply.MadeRole? && (forall other :: !RoleMade(t.log, r.reply.role, other))
              && db' == db.(roles := db.roles[r.reply.role := Lower(name)],
                            audit := db.audit + [AuditRow(actor, RoleCreated(r.reply.role, Lower(name)))])
  {
    hide Run;
    hide RoleByName;
    hide RoleMade;
    var t := Run(BOOT, reqs);
    RunLogged(reqs);
    RunRoles(reqs);
    FindsRole(t.world, name);
    assert t.world.nextId !in t.world.db.roles;
  }

  /** The same for permissions, whose resource and action are stored in lower case too. */
  lemma {:induction false} PermissionAnswer(reqs: seq<Request>, actor: Option<Uuid>, name: string, resource: string,
          action: string)
    ensures var t := Run(BOOT, reqs);
            var r := Handle(t.world, CreatePermission(actor, name, resource, action));
            var db, db' := t.world.db, r.world.db;
            if exists p :: PermissionMade(t.log, p, Lower(name)) then r == Result(t.world, Raised(409))
            else if !KnownActor(t.world, actor) then r.reply == Raised(500) && db' == db
            else
              && r.reply.MadePermission? && (forall other :: !PermissionMade(t.log, r.reply.permission, other))
              && var row := Permission(Lower(name), Lower(resource), Lower(action));
                 db' == db.(permissions := db.permissions[r.reply.permission := row],
                            audit := db.audit + [AuditRow(actor, PermissionCreated(r.reply.permission, row))])
  {
    hide Run;
    hide PermissionByName;
    var t := Run(BOOT, reqs);
    RunLogged(reqs);
    PermissionsMade(t);
    hide PermissionMade;
    FindsPermission(t.world, name);
    assert t.world.nextId !in t.world.db.permissions;
  }

  lemma PermissionsMade(t: Trace)
    requires Logged(t)
    ensures forall p, name :: Named(t.world.db.permissions, p, name) <==> PermissionMade(t.log, p, name)
  {
  }

  lemma EdgesMade(t: Trace)
    requires Logged(t)
    ensures forall role, p :: RoleEdge(role, p) in t.world.db.rolePermissions <==> LinkMade(t.log, role, p)
    ensures forall user, role :: UserEdge(user, role) in t.world.db.userRoles <==> GrantMade(t.log, user, role)
  {
  }

  /** The role was created under some name, as told in the transcript; likewise for permissions. */
  ghost predicate RoleExists(log: seq<Exchange>, role: Uuid) {
    exists name :: RoleMade(log, role, name)
  }

  ghost predicate PermissionExists(log: seq<Exchange>, p: Uuid) {
    exists name :: PermissionMade(log, p, name)
  }

  lemma ExistsInTables(reqs: seq<Request>, role: Uuid, p: Uuid)
    ensures var t := Run(BOOT, reqs);
            && (RoleExists(t.log, role) <==> role in t.world.db.roles)
            && (PermissionExists(t.log, p) <==> p in t.world.db.permissions)
            && (forall name | RoleMade(t.log, role, name) :: Holds(t.world.db.roles, role, name))
            && (forall name | PermissionMade(t.log, p, name) :: Named(t.world.db.permissions, p, name))
  {
    hide Run;
    hide RoleMade;
    hide PermissionMade;
    var t := Run(BOOT, reqs);
    RunLogged(reqs);
    RunRoles(reqs);
    PermissionsMade(t);
    assert role in t.world.db.roles ==> Holds(t.world.db.roles, role, t.world.db.roles[role]);
    assert p in t.world.db.permissions ==> Named(t.world.db.permissions, p, t.world.db.permissions[p].name);
  }

  /**
   In every run a permission is put in a role unless one of them was never created (404): an assignment made
   before is answered again without a change, and a new one needs an acting user that exists (500).
   */
  lemma {:induction false} LinkAnswer(reqs: seq<Request>, actor: Option<Uuid>, role: Uuid, p: Uuid)
    ensures var t := Run(BOOT, reqs);
            var r := Handle(t.world, AssignPermissionToRole(actor, role, p));
            var db, db' := t.world.db, r.world.db;
            if !RoleExists(t.log, role) || !PermissionExists(t.log, p) then r == Result(t.world, Raised(404))
            else if LinkMade(t.log, role, p) then r == Result(t.world, Done)
            else if !KnownActor(t.world, actor) then r.reply == Raised(500) && db' == db
            else
              && r.reply == Done
              && forall roleName, name | RoleMade(t.log, role, roleName) && PermissionMade(t.log, p, name) ::
                   && var row := AuditRow(actor, PermissionAssigned(RoleEdge(role, p), roleName, name));
                      db' == db.(rolePermissions := db.rolePermissions + {RoleEdge(role, p)}, audit := db.audit + [row])
  {
    hide Run;
    hide LinkMade;
    hide GrantMade;
    hide RoleExists;
    hide PermissionExists;
    hide RoleMade;
    hide PermissionMade;
    hide DbSound;
    RunLogged(reqs);
    EdgesMade(Run(BOOT, reqs));
    ExistsInTables(reqs, role, p);
    hide Logged;
  }

  /** The same for a role given to a user, who must exist (404). */
  lemma {:induction false} GrantAnswer(reqs: seq<Request>, actor: Option<Uuid>, user: Uuid, role: Uuid)
    ensures var t := Run(BOOT, reqs);
            var r := Handle(t.world, AssignRoleToUser(actor, user, role));
            var db, db' := t.world.db, r.world.db;
            if user !in db.superusers || !RoleExists(t.log, role) then r == Result(t.world, Raised(404))
            else if GrantMade(t.log, user, role) then r == Result(t.world, Done)
            else if !KnownActor(t.world, actor) then r.reply == Raised(500) && db' == db
            else
              && r.reply == Done
              && forall roleName | RoleMade(t.log, role, roleName) ::
                   && var row := AuditRow(actor, RoleAssigned(UserEdge(user, role), roleName));
                      db' == db.(userRoles := db.userRoles + {UserEdge(user, role)}, audit := db.audit + [row])
  {
    hide Run;
    hide LinkMade;
    hide GrantMade;
    hide RoleExists;
    hide PermissionExists;
    hide RoleMade;
    hide PermissionMade;
    hide DbSound;
    RunLogged(reqs);
    EdgesMade(Run(BOOT, reqs));
    ExistsInTables(reqs, role, 0);
    hide Logged;
  }

  // ---- Superusers ----

  /** Only the operator's change sets a flag, to the value asked for, and a new user is no superuser. */
  ghost predicate FlagsStep(w: World, req: Request, r: Result) {
    var flags, flags' := w.db.superusers, r.world.db.superusers;
    && (forall u | u in flags ::
          u in flags' && flags'[u] == if req.SetSuperuser? && req.user == u then req.flag else flags[u])
    && (forall u | u in flags' && u !in flags :: req.AddUser? && !flags'[u])
  }

  /** What every request of every run does to the superuser flags: no service call touches them. */
  lemma {:induction false} RequestsAndSuperusers(reqs: seq<Request>, req: Request)
    ensures var w := Run(BOOT, reqs).world; FlagsStep(w, req, Handle(w, req))
  {
    hide Run;
    hide RoleByName;
    hide PermissionByName;
    hide HasPermission;
    hide DbSound;
    RunUsersBelow(reqs);
  }

  ghost predicate UsersBelow(w: World) {
    forall u | u in w.db.superusers :: u < w.nextId
  }

  lemma UsersBelowStep(w: World, req: Request)
    requires UsersBelow(w)
    ensures UsersBelow(Handle(w, req).world)
  {
    hide RoleByName;
    hide PermissionByName;
    hide HasPermission;
  }

  lemma {:induction false} RunUsersBelow(reqs: seq<Request>)
    ensures UsersBelow(Run(BOOT, reqs).world)
  {
    hide Handle;
    if reqs != [] {
      RunUsersBelow(reqs[..|reqs| - 1]);
      UsersBelowStep(Run(BOOT, reqs[..|reqs| - 1]).world, reqs[|reqs| - 1]);
    }
  }
}
