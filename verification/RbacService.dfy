/** The calls of app/services/rbac_service.py as the program runs them, inside `get_db`. */
module RbacService {
  import opened Prelude
  import opened Text
  import opened Rbac
  import AuthState

  class RbacService {
    var committed: Db
    var pending: Db
    var nextId: Uuid

    constructor ()
      ensures Clean() && Committed() == BOOT.world
    {
      committed, pending, nextId := EMPTY, EMPTY, 0;
    }

    ghost function Committed(): World
      reads this
    {
      World(committed, nextId)
    }

    ghost predicate Clean()
      reads this
    {
      pending == committed
    }

    /** The world that `get_db` will leave behind a call that ends with this reply. */
    ghost function Outcome(reply: Reply): Result
      reads this
    {
      Result(World(if reply.Raised? then committed else pending, nextId), reply)
    }

    method NewId() returns (id: Uuid)
      modifies this`nextId
      ensures id == old(nextId) && nextId == id + 1
    {
      id := nextId;
      nextId := nextId + 1;
    }

    /** `record_audit_event`: the flush fails when the actor does not exist. */
    method RecordAuditEvent(actor: Option<Uuid>, event: AuditEvent) returns (ok: bool)
      modifies this`pending
      ensures ok <==> (actor.Some? ==> actor.value in old(pending).superusers)
      ensures pending == if ok then old(pending).(audit := old(pending).audit + [AuditRow(actor, event)])
              else old(pending)
    {
      if actor.Some? && actor.value !in pending.superusers {
        return false;
      }
      pending := pending.(audit := pending.audit + [AuditRow(actor, event)]);
      return true;
    }

    method CreateRole(actor: Option<Uuid>, name: string) returns (reply: Reply)
      requires Clean()
      modifies this`pending, this`nextId
      ensures Outcome(reply) == MakeRole(old(Committed()), actor, name)
    {
      hide RoleByName;
      var existing := RoleByName(pending, name);
      if existing.ManyRows? { return Raised(AuthState.SERVER_ERROR); }
      if existing.OneRow? { return Raised(409); }
      var id := NewId();
      pending := pending.(roles := pending.roles[id := Lower(name)]);
      var ok := RecordAuditEvent(actor, RoleCreated(id, pending.roles[id]));
      return if ok then MadeRole(id) else Raised(AuthState.SERVER_ERROR);
    }

    method CreatePermission(actor: Option<Uuid>, name: string, resource: string, action: string) returns (reply: Reply)
      requires Clean()
      modifies this`pending, this`nextId
      ensures Outcome(reply) == MakePermission(old(Committed()), actor, name, resource, action)
    {
      hide PermissionByName;
      var existing := PermissionByName(pending, name);
      if existing.ManyRows? { return Raised(AuthState.SERVER_ERROR); }
      if existing.OneRow? { return Raised(409); }
      var id := NewId();
      var row := Permission(Lower(name), Lower(resource), Lower(action));
      pending := pending.(permissions := pending.permissions[id := row]);
      var ok := RecordAuditEvent(actor, PermissionCreated(id, pending.permissions[id]));
      return if ok then MadePermission(id) else Raised(AuthState.SERVER_ERROR);
    }

    method AssignPermissionToRole(actor: Option<Uuid>, role: Uuid, permission: Uuid) returns (reply: Reply)
      requires Clean()
      modifies this`pending
      ensures Outcome(reply) == LinkPermission(old(Committed()), actor, role, permission)
    {
      if role !in pending.roles { return Raised(404); }
      if permission !in pending.permissions { return Raised(404); }
      var edge := RoleEdge(role, permission);
      if edge in pending.rolePermissions { return Done; }
      pending := pending.(rolePermissions := pending.rolePermissions + {edge});
      var names := (pending.roles[role], pending.permissions[permission].name);
      var ok := RecordAuditEvent(actor, PermissionAssigned(edge, names.0, names.1));
      return if ok then Done else Raised(AuthState.SERVER_ERROR);
    }

    method AssignRoleToUser(actor: Option<Uuid>, user: Uuid, role: Uuid) returns (reply: Reply)
      requires Clean()
      modifies this`pending
      ensures Outcome(reply) == GrantRole(old(Committed()), actor, user, role)
    {
      if user !in pending.superusers { return Raised(404); }
      if role !in pending.roles { return Raised(404); }
      var grant := UserEdge(user, role);
      if grant in pending.userRoles { return Done; }
      pending := pending.(userRoles := pending.userRoles + {grant});
      var ok := RecordAuditEvent(actor, RoleAssigned(grant, pending.roles[role]));
      return if ok then Done else Raised(AuthState.SERVER_ERROR);
    }

    method UserHasPermission(user: Uuid, name: string) returns (granted: bool)
      requires user in pending.superusers
      ensures granted <==> HasPermission(pending, user, name)
    {
      if pending.superusers[user] { return true; }
      var permissions := UserPermissions(pending, user);
      return Lower(name) in permissions;
    }

    method Dispatch(req: Request) returns (reply: Reply)
      requires Clean()
      modifies this`pending, this`nextId
      ensures Outcome(reply) == Handle(old(Committed()), req)
    {
      match req
      case CreateRole(actor, name) => reply := CreateRole(actor, name);
      case CreatePermission(actor, name, resource, action) => reply := CreatePermission(actor, name, resource, action);
      case AssignPermissionToRole(actor, role, permission) => reply := AssignPermissionToRole(actor, role, permission);
      case AssignRoleToUser(actor, user, role) => reply := AssignRoleToUser(actor, user, role);
      case RequirePermission(user, name) =>
        if user !in pending.superusers { return Raised(401); }
        var granted := UserHasPermission(user, name);
        return if granted then Done else Raised(403);
      case AddUser =>
        var id := NewId();
        pending := pending.(superusers := pending.superusers[id := false]);
        return Done;
      case SetSuperuser(user, flag) =>
        if user !in pending.superusers { return Raised(404); }
        pending := pending.(superusers := pending.superusers[user := flag]);
        return Done;
    }

    /** One request: commit what it returns with, roll back what it raises with. */
    method Serve(req: Request) returns (reply: Reply)
      requires Clean()
      modifies this
      ensures Clean() && Result(Committed(), reply) == Handle(old(Committed()), req)
    {
      hide Handle;
      reply := Dispatch(req);
      if reply.Raised? {
        pending := committed;
      } else {
        committed := pending;
      }
    }
  }
}
