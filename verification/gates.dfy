/** The view decorators of core/decorators.py: `permission_required(name)`
    and `role_required(*roles)`. Each sends an anonymous user to the login
    page, runs the wrapped view unchanged when the user is admitted, and
    otherwise records one "Permission Denied" audit entry and redirects to
    the dashboard without running the view. */
module Gates {
  import opened Base
  import opened Roles
  import Audit

  /** `request.user`: anonymous, or a logged-in user with the role of their profile. */
  datatype User = Anonymous | SignedIn(id: nat, role: Role)

  /** What the wrapper returns: one of its redirects, or the view's own result. */
  datatype Gated<R> = ToLogin | ToDashboard | Ran(result: R)

  /** The audit log after a refusal: one VIEW entry on "Permission Denied". */
  function Refusal(log: seq<Audit.Entry>, user: nat, description: string, meta: Audit.Meta): seq<Audit.Entry> {
    Audit.LogActivity(log, Some(user), Audit.View, "Permission Denied", None, "", description, Some(meta))
  }

  /** `permission_required(permission)` around `view`, called with `args`. */
  function PermissionRequired<A, R>(
    permission: string, user: User, path: string, meta: Audit.Meta,
    log: seq<Audit.Entry>, view: A -> R, args: A): (out: (Gated<R>, seq<Audit.Entry>))
    ensures user.Anonymous? ==> out == (ToLogin, log)
    ensures user.SignedIn? && HasPermission(user.role, permission) ==> out == (Ran(view(args)), log)
    ensures user.SignedIn? && !HasPermission(user.role, permission) ==>
      && out.0 == ToDashboard
      && |out.1| == |log| + 1 && out.1[..|log|] == log
      && out.1[|log|].user == Some(user.id) && out.1[|log|].action == Audit.View
      && out.1[|log|].modelName == "Permission Denied"
      && out.1[|log|].description == "Attempted to " + permission + " at " + path
  {
    match user
    case Anonymous => (ToLogin, log)
    case SignedIn(id, role) =>
      if HasPermission(role, permission) then (Ran(view(args)), log)
      else (ToDashboard, Refusal(log, id, "Attempted to " + permission + " at " + path, meta))
  }

  /** `role_required(*roles)` around `view`: the roles are the stored codes
      ("ADMIN", ...), compared with the user's role code. */
  function RoleRequired<A, R>(
    roles: seq<string>, user: User, path: string, meta: Audit.Meta,
    log: seq<Audit.Entry>, view: A -> R, args: A): (out: (Gated<R>, seq<Audit.Entry>))
    ensures user.Anonymous? ==> out == (ToLogin, log)
    ensures user.SignedIn? && RoleCode(user.role) in roles ==> out == (Ran(view(args)), log)
    ensures user.SignedIn? && RoleCode(user.role) !in roles ==>
      && out.0 == ToDashboard
      && |out.1| == |log| + 1 && out.1[..|log|] == log
      && out.1[|log|].user == Some(user.id) && out.1[|log|].action == Audit.View
      && out.1[|log|].modelName == "Permission Denied"
      && out.1[|log|].description == "Attempted to access " + path + " without permission"
  {
    match user
    case Anonymous => (ToLogin, log)
    case SignedIn(id, role) =>
      if RoleCode(role) in roles then (Ran(view(args)), log)
      else (ToDashboard, Refusal(log, id, "Attempted to access " + path + " without permission", meta))
  }

  /** A name that is neither a permission method nor another attribute of
      the profile denies every signed-in user, and the refusal is audited. */
  lemma UnknownPermissionDenied<A, R>(
    permission: string, id: nat, role: Role, path: string, meta: Audit.Meta,
    log: seq<Audit.Entry>, view: A -> R, args: A)
    requires forall c: Capability :: MethodName(c) != permission
    ensures PermissionRequired(permission, SignedIn(id, role), path, meta, log, view, args).0 == ToDashboard
  {
    HasPermissionMeaning(role, permission);
  }

  /** Guarding a view with a capability's method admits exactly the roles
      the table grants it to. */
  lemma PermissionGateFollowsTable<A, R>(
    c: Capability, id: nat, role: Role, path: string, meta: Audit.Meta,
    log: seq<Audit.Entry>, view: A -> R, args: A)
    ensures PermissionRequired(MethodName(c), SignedIn(id, role), path, meta, log, view, args).0.Ran?
        <==> Rank(role) >= Rank(MinimumRole(c))
  {
    HasPermissionAgrees(role, c);
  }

  /** Every role code is distinct, so `role_required` with one code admits
      exactly that role. */
  lemma RoleRequiredSingle<A, R>(
    admitted: Role, id: nat, role: Role, path: string, meta: Audit.Meta,
    log: seq<Audit.Entry>, view: A -> R, args: A)
    ensures RoleRequired([RoleCode(admitted)], SignedIn(id, role), path, meta, log, view, args).0.Ran?
        <==> role == admitted
  {
    if role != admitted {
      assert RoleCode(role) != RoleCode(admitted) by {
        RoleCodeInjective(role, admitted);
      }
    }
  }

  lemma RoleCodeInjective(a: Role, b: Role)
    requires a != b
    ensures RoleCode(a) != RoleCode(b)
  {
    match a
    case Admin => assert RoleCode(a)[0] == 'A';
    case Manager => assert RoleCode(a)[0] == 'M';
    case WarehouseStaff => assert RoleCode(a)[0] == 'W';
    case Viewer => assert RoleCode(a)[0] == 'V';
  }
}
