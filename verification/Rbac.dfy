/**
 Roles, permissions and their assignment (app/services/rbac_service.py and the permission check of
 app/core/dependencies.py:84-97): the tables, and what each service call leaves committed.
 */
module Rbac {
  import opened Prelude
  import opened Text
  import AuthState

  type Uuid = AuthState.Uuid
  type Lookup = AuthState.Lookup

  datatype Permission = Permission(name: string, resource: string, action: string)

  datatype RoleEdge = RoleEdge(role: Uuid, permission: Uuid)

  datatype UserEdge = UserEdge(user: Uuid, role: Uuid)

  /** An audit row with its metadata. */
  datatype AuditEvent =
    | RoleCreated(role: Uuid, roleName: string)
    | PermissionCreated(permission: Uuid, made: Permission)
    | PermissionAssigned(edge: RoleEdge, roleName: string, permissionName: string)
    | RoleAssigned(grant: UserEdge, roleName: string)

  datatype AuditRow = AuditRow(actor: Option<Uuid>, event: AuditEvent)

  /** `superusers` holds the flag of every user. */
  datatype Db = Db(
    superusers: map<Uuid, bool>,
    roles: map<Uuid, string>,
    permissions: map<Uuid, Permission>,
    rolePermissions: set<RoleEdge>,
    userRoles: set<UserEdge>,
    audit: seq<AuditRow>)

  datatype World = World(db: Db, nextId: Uuid)

  const EMPTY: Db := Db(map[], map[], map[], {}, {}, [])

  datatype Request =
    | CreateRole(actor: Option<Uuid>, name: string)
    | CreatePermission(actor: Option<Uuid>, name: string, resource: string, action: string)
    | AssignPermissionToRole(actor: Option<Uuid>, role: Uuid, permission: Uuid)
    | AssignRoleToUser(actor: Option<Uuid>, user: Uuid, role: Uuid)
    | RequirePermission(user: Uuid, name: string)
    | AddUser                                   // a registration, elsewhere
    | SetSuperuser(user: Uuid, flag: bool)      // an operator's change, outside the services

  datatype Reply = Raised(status: nat) | MadeRole(role: Uuid) | MadePermission(permission: Uuid) | Done

  datatype Result = Result(world: World, reply: Reply)

  // ---- Queries ----

  function RoleByName(db: Db, name: string): (r: Lookup)
    ensures r.NoRow? ==> forall x | x in db.roles :: db.roles[x] != Lower(name)
    ensures r.OneRow? ==> r.id in db.roles && db.roles[r.id] == Lower(name)
  {
    var ids := set x | x in db.roles && db.roles[x] == Lower(name);
    assert forall x | x in db.roles && db.roles[x] == Lower(name) :: x in ids;
    AuthState.ScalarOneOrNone(ids)
  }

  function PermissionByName(db: Db, name: string): (r: Lookup)
    ensures r.NoRow? ==> forall x | x in db.permissions :: db.permissions[x].name != Lower(name)
    ensures r.OneRow? ==> r.id in db.permissions && db.permissions[r.id].name == Lower(name)
  {
    var ids := set x | x in db.permissions && db.permissions[x].name == Lower(name);
    assert forall x | x in db.permissions && db.permissions[x].name == Lower(name) :: x in ids;
    AuthState.ScalarOneOrNone(ids)
  }

  /** `get_user_permissions`: the names that the join of the two edge tables reaches. */
  function UserPermissions(db: Db, user: Uuid): set<string> {
    set grant, edge |
      && grant in db.userRoles && edge in db.rolePermissions
      && grant.user == user && grant.role == edge.role && edge.permission in db.permissions
      :: db.permissions[edge.permission].name
  }

  predicate HasPermission(db: Db, user: Uuid, name: string)
    requires user in db.superusers
  {
    db.superusers[user] || Lower(name) in UserPermissions(db, user)
  }

  // ---- Service calls ----

  /** The audit row of a change; its actor is a foreign key, and a failed insert undoes the request. */
  function Recorded(before: World, after: World, actor: Option<Uuid>, event: AuditEvent, reply: Reply): Result {
    if actor.Some? && actor.value !in before.db.superusers
    then Result(before.(nextId := after.nextId), Raised(AuthState.SERVER_ERROR))
    else Result(after.(db := after.db.(audit := after.db.audit + [AuditRow(actor, event)])), reply)
  }

  function MakeRole(w: World, actor: Option<Uuid>, name: string): Result {
    match RoleByName(w.db, name)
    case ManyRows => Result(w, Raised(AuthState.SERVER_ERROR))
    case OneRow(_) => Result(w, Raised(409))
    case NoRow =>
      var w' := World(w.db.(roles := w.db.roles[w.nextId := Lower(name)]), w.nextId + 1);
      Recorded(w, w', actor, RoleCreated(w.nextId, Lower(name)), MadeRole(w.nextId))
  }

  function MakePermission(w: World, actor: Option<Uuid>, name: string, resource: string, action: string): Result {
    match PermissionByName(w.db, name)
    case ManyRows => Result(w, Raised(AuthState.SERVER_ERROR))
    case OneRow(_) => Result(w, Raised(409))
    case NoRow =>
      var row := Permission(Lower(name), Lower(resource), Lower(action));
      var w' := World(w.db.(permissions := w.db.permissions[w.nextId := row]), w.nextId + 1);
      Recorded(w, w', actor, PermissionCreated(w.nextId, row), MadePermission(w.nextId))
  }

  function LinkPermission(w: World, actor: Option<Uuid>, role: Uuid, permission: Uuid): Result {
    if role !in w.db.roles || permission !in w.db.permissions then Result(w, Raised(404))
    else
      var edge := RoleEdge(role, permission);
      if edge in w.db.rolePermissions then Result(w, Done)
      else
        var w' := w.(db := w.db.(rolePermissions := w.db.rolePermissions + {edge}));
        Recorded(w, w', actor, PermissionAssigned(edge, w.db.roles[role], w.db.permissions[permission].name), Done)
  }

  function GrantRole(w: World, actor: Option<Uuid>, user: Uuid, role: Uuid): Result {
    if user !in w.db.superusers || role !in w.db.roles then Result(w, Raised(404))
    else
      var grant := UserEdge(user, role);
      if grant in w.db.userRoles then Result(w, Done)
      else
        var w' := w.(db := w.db.(userRoles := w.db.userRoles + {grant}));
        Recorded(w, w', actor, RoleAssigned(grant, w.db.roles[role]), Done)
  }

  /** `require_permission` for an active user. */
  function Require(w: World, user: Uuid, name: string): Result {
    if user !in w.db.superusers then Result(w, Raised(401))
    else if !HasPermission(w.db, user, name) then Result(w, Raised(403))
    else Result(w, Done)
  }

  function SetFlag(w: World, user: Uuid, flag: bool): Result {
    if user !in w.db.superusers then Result(w, Raised(404))
    else Result(w.(db := w.db.(superusers := w.db.superusers[user := flag])), Done)
  }

  function Handle(w: World, req: Request): Result {
    match req
    case CreateRole(actor, name) => MakeRole(w, actor, name)
    case CreatePermission(actor, name, resource, action) => MakePermission(w, actor, name, resource, action)
    case AssignPermissionToRole(actor, role, permission) => LinkPermission(w, actor, role, permission)
    case AssignRoleToUser(actor, user, role) => GrantRole(w, actor, user, role)
    case RequirePermission(user, name) => Require(w, user, name)
    case AddUser => Result(World(w.db.(superusers := w.db.superusers[w.nextId := false]), w.nextId + 1), Done)
    case SetSuperuser(user, flag) => SetFlag(w, user, flag)
  }

  // ---- Runs ----

  datatype Exchange = Exchange(request: Request, reply: Reply)

  datatype Trace = Trace(world: World, log: seq<Exchange>)

  const BOOT: Trace := Trace(World(EMPTY, 0), [])

  function Extend(t: Trace, req: Request): Trace {
    var r := Handle(t.world, req);
    Trace(r.world, t.log + [Exchange(req, r.reply)])
  }

  function Run(t: Trace, reqs: seq<Request>): Trace {
    if reqs == [] then t else Extend(Run(t, reqs[..|reqs| - 1]), reqs[|reqs| - 1])
  }

  lemma {:induction false} RunConcat(t: Trace, first: seq<Request>, second: seq<Request>)
    ensures Run(t, first + second) == Run(Run(t, first), second)
  {
    hide Extend;
    if second == [] {
      assert first + second == first;
    } else {
      var n := |second| - 1;
      assert (first + second)[..|first + second| - 1] == first + second[..n];
      RunConcat(t, first, second[..n]);
    }
  }
}
