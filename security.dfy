/**
 * Role-based access control: the role and permission enums, the fixed
 * role-to-permission table, the membership checks of `SecurityManager`, and
 * the two request guards `RequirePermissions` and `RequireWorkplaceAccess`.
 * A guard either hands the authenticated user on or raises HTTP 403, which
 * is `Forbidden(detail)` here.
 */
module Security {
  import opened Wrappers
  import opened MesErrors

  /** `UserRole`. */
  datatype UserRole = Operator | Supervisor | Manager | Admin | Readonly | Machine

  function RoleValue(r: UserRole): string {
    match r
    case Operator => "operator"
    case Supervisor => "supervisor"
    case Manager => "manager"
    case Admin => "admin"
    case Readonly => "readonly"
    case Machine => "machine"
  }

  /** The role a string names, if any (a `str` enum compares equal to its value). */
  function ParseRole(s: string): (r: Option<UserRole>)
    ensures r.Some? ==> RoleValue(r.value) == s
    ensures forall role: UserRole :: RoleValue(role) == s ==> r == Some(role)
  {
    if s == "operator" then Some(Operator)
    else if s == "supervisor" then Some(Supervisor)
    else if s == "manager" then Some(Manager)
    else if s == "admin" then Some(Admin)
    else if s == "readonly" then Some(Readonly)
    else if s == "machine" then Some(Machine)
    else None
  }

  /** `Permission`, in declaration order. */
  datatype Permission =
    | OperationRead | OperationCreate | OperationUpdate | OperationDelete | OperationTransition
    | OperationBatchUpdate | UserManage | SystemConfig | ReportsView | AnalyticsView

  function PermissionValue(p: Permission): string {
    match p
    case OperationRead => "operation:read"
    case OperationCreate => "operation:create"
    case OperationUpdate => "operation:update"
    case OperationDelete => "operation:delete"
    case OperationTransition => "operation:transition"
    case OperationBatchUpdate => "operation:batch_update"
    case UserManage => "user:manage"
    case SystemConfig => "system:config"
    case ReportsView => "reports:view"
    case AnalyticsView => "analytics:view"
  }

  /** Distinct permissions have distinct values. */
  lemma PermissionValueInjective(p: Permission, q: Permission)
    ensures PermissionValue(p) == PermissionValue(q) ==> p == q
  {
  }

  /** `[permission for permission in Permission]`. */
  const AllPermissions: seq<Permission> := [
    OperationRead, OperationCreate, OperationUpdate, OperationDelete, OperationTransition,
    OperationBatchUpdate, UserManage, SystemConfig, ReportsView, AnalyticsView]

  /** `ROLE_PERMISSIONS[role]`. */
  function RolePermissions(r: UserRole): seq<Permission> {
    match r
    case Operator => [OperationRead, OperationUpdate, OperationTransition]
    case Supervisor => [OperationRead, OperationCreate, OperationUpdate, OperationDelete, OperationTransition,
                        OperationBatchUpdate, ReportsView]
    case Manager => [OperationRead, OperationCreate, OperationUpdate, OperationDelete, OperationTransition,
                     OperationBatchUpdate, ReportsView, AnalyticsView]
    case Admin => AllPermissions
    case Readonly => [OperationRead, ReportsView, AnalyticsView]
    case Machine => [OperationRead, OperationUpdate, OperationTransition]
  }

  /** `get_user_permissions(role)`: `ROLE_PERMISSIONS.get(role, [])`, for any key the caller passes. */
  function GetUserPermissions(role: string): (r: seq<Permission>)
    ensures ParseRole(role).None? ==> r == []
    ensures forall ro: UserRole :: RoleValue(ro) == role ==> r == RolePermissions(ro)
  {
    match ParseRole(role)
    case Some(ro) => RolePermissions(ro)
    case None => []
  }

  /** `has_permission(user_permissions, required)`: the required value is among the user's strings. */
  predicate HasPermission(userPermissions: seq<string>, required: Permission) {
    PermissionValue(required) in userPermissions
  }

  /** `can_access_workplace(access, workplace)`: an empty list grants every workplace. */
  predicate CanAccessWorkplace(access: seq<string>, workplace: string) {
    access == [] || workplace in access
  }

  /** `[p.value for p in permissions]`: how a token carries a permission list. */
  function Values(ps: seq<Permission>): (r: seq<string>)
    ensures |r| == |ps| && forall i | 0 <= i < |ps| :: r[i] == PermissionValue(ps[i])
  {
    seq(|ps|, i requires 0 <= i < |ps| => PermissionValue(ps[i]))
  }

  /** A token carrying a list's values passes `has_permission` for exactly the listed permissions. */
  lemma HasPermissionOfValues(ps: seq<Permission>, p: Permission)
    ensures HasPermission(Values(ps), p) <==> p in ps
  {
    if HasPermission(Values(ps), p) {
      var i :| 0 <= i < |ps| && Values(ps)[i] == PermissionValue(p);
      PermissionValueInjective(ps[i], p);
    }
    if p in ps {
      var i :| 0 <= i < |ps| && ps[i] == p;
      assert Values(ps)[i] == PermissionValue(p);
    }
  }

  /** ADMIN holds every permission. */
  lemma AdminHoldsEverything(p: Permission)
    ensures p in RolePermissions(Admin)
  {
    match p
    case OperationRead => assert AllPermissions[0] == p;
    case OperationCreate => assert AllPermissions[1] == p;
    case OperationUpdate => assert AllPermissions[2] == p;
    case OperationDelete => assert AllPermissions[3] == p;
    case OperationTransition => assert AllPermissions[4] == p;
    case OperationBatchUpdate => assert AllPermissions[5] == p;
    case UserManage => assert AllPermissions[6] == p;
    case SystemConfig => assert AllPermissions[7] == p;
    case ReportsView => assert AllPermissions[8] == p;
    case AnalyticsView => assert AllPermissions[9] == p;
  }

  /** OPERATOR within SUPERVISOR within MANAGER within ADMIN; MACHINE is OPERATOR's twin. */
  lemma RolesNested(p: Permission)
    ensures p in RolePermissions(Operator) ==> p in RolePermissions(Supervisor)
    ensures p in RolePermissions(Supervisor) ==> p in RolePermissions(Manager)
    ensures p in RolePermissions(Manager) ==> p in RolePermissions(Admin)
    ensures RolePermissions(Machine) == RolePermissions(Operator)
    ensures p in RolePermissions(Readonly) ==> p in RolePermissions(Manager)
  {
    AdminHoldsEverything(p);
  }

  /** READONLY can neither create, update, delete nor transition an operation. */
  lemma ReadonlyCannotWrite()
    ensures forall p | p in RolePermissions(Readonly) :: p in {OperationRead, ReportsView, AnalyticsView}
    ensures OperationCreate !in RolePermissions(Readonly) && OperationUpdate !in RolePermissions(Readonly)
    ensures OperationDelete !in RolePermissions(Readonly) && OperationTransition !in RolePermissions(Readonly)
  {
  }

  /** Only ADMIN may manage users or change system configuration. */
  lemma OnlyAdminAdministers(r: UserRole)
    ensures SystemConfig in RolePermissions(r) <==> r == Admin
    ensures UserManage in RolePermissions(r) <==> r == Admin
  {
    if r == Admin {
      AdminHoldsEverything(SystemConfig);
      AdminHoldsEverything(UserManage);
    }
  }

  /** A longer non-empty access list never loses a workplace, and a non-empty list refuses exactly what it omits. */
  lemma WorkplaceAccessMonotone(a: seq<string>, b: seq<string>, w: string)
    requires a != [] && forall x | x in a :: x in b
    ensures CanAccessWorkplace(a, w) ==> CanAccessWorkplace(b, w)
    ensures !CanAccessWorkplace(a, w) <==> w !in a
  {
  }

  /** The empty access list is the widest: it admits every workplace. */
  lemma EmptyAccessWidest(w: string)
    ensures CanAccessWorkplace([], w)
  {
  }

  /** The part of `TokenData` the guards read. */
  datatype TokenUser = TokenUser(
    userId: string,
    username: string,
    role: UserRole,
    workplaceAccess: seq<string>,
    permissions: seq<string>)

  /** The first required permission the user lacks, in list order. */
  function FirstMissing(required: seq<Permission>, userPermissions: seq<string>): (r: Option<Permission>)
    ensures r.Some? ==> r.value in required && !HasPermission(userPermissions, r.value)
  {
    if required == [] then None
    else if !HasPermission(userPermissions, required[0]) then Some(required[0])
    else FirstMissing(required[1..], userPermissions)
  }

  /** Nothing is missing exactly when every required permission is held; otherwise the first miss is reported. */
  lemma {:induction false} FirstMissingMeaning(required: seq<Permission>, userPermissions: seq<string>)
    ensures FirstMissing(required, userPermissions).None? <==>
              forall p | p in required :: HasPermission(userPermissions, p)
    ensures FirstMissing(required, userPermissions).Some? ==>
              exists i | 0 <= i < |required| ::
                && required[i] == FirstMissing(required, userPermissions).value
                && forall j | 0 <= j < i :: HasPermission(userPermissions, required[j])
  {
    if required != [] {
      FirstMissingMeaning(required[1..], userPermissions);
      assert forall p | p in required[1..] :: p in required;
      assert forall p | p in required :: p == required[0] || p in required[1..];
      var m := FirstMissing(required, userPermissions);
      if m.Some? && HasPermission(userPermissions, required[0]) {
        var i :| 0 <= i < |required[1..]| && required[1..][i] == m.value
                 && forall j | 0 <= j < i :: HasPermission(userPermissions, required[1..][j]);
        assert required[i + 1] == m.value;
        assert forall j | 0 <= j < i + 1 :: HasPermission(userPermissions, required[j]) by {
          forall j | 0 <= j < i + 1
            ensures HasPermission(userPermissions, required[j])
          {
            if j > 0 {
              assert required[j] == required[1..][j - 1];
            }
          }
        }
      }
    }
  }

  function DeniedPermissionText(p: Permission): string {
    "Insufficient permissions. Required: " + PermissionValue(p)
  }

  /** `RequirePermissions(required)(user)`: every required permission in turn, raising on the first miss. */
  method RequirePermissions(required: seq<Permission>, user: TokenUser) returns (r: Result<TokenUser, Failure>)
    ensures r.Success? <==> forall p | p in required :: HasPermission(user.permissions, p)
    ensures r.Success? ==> r.value == user
    ensures r.Failure? ==>
              FirstMissing(required, user.permissions).Some?
              && r.error == Forbidden(DeniedPermissionText(FirstMissing(required, user.permissions).value))
  {
    FirstMissingMeaning(required, user.permissions);
    var i := 0;
    while i < |required|
      invariant 0 <= i <= |required|
      invariant FirstMissing(required, user.permissions) == FirstMissing(required[i..], user.permissions)
    {
      assert required[i..][1..] == required[i + 1..];
      if !HasPermission(user.permissions, required[i]) {
        return Failure(Forbidden(DeniedPermissionText(required[i])));
      }
      i := i + 1;
    }
    return Success(user);
  }

  /** The convenience guards. */
  const RequireOperationRead: seq<Permission> := [OperationRead]
  const RequireOperationWrite: seq<Permission> := [OperationCreate, OperationUpdate]
  const RequireOperationManage: seq<Permission> := [OperationCreate, OperationUpdate, OperationDelete]
  const RequireBatchOperations: seq<Permission> := [OperationBatchUpdate]
  const RequireAdminAccess: seq<Permission> := [SystemConfig]

  /**
   * For a token minted from a role's table entry, the guards sort the roles:
   * every role reads; OPERATOR and MACHINE are stopped by the write guard at
   * "operation:create"; SUPERVISOR and MANAGER may manage and batch-update;
   * only ADMIN passes the admin guard.
   */
  lemma GuardsByRole(r: UserRole)
    ensures FirstMissing(RequireOperationRead, Values(RolePermissions(r))).None?
    ensures r in {Operator, Machine} ==>
              FirstMissing(RequireOperationWrite, Values(RolePermissions(r))) == Some(OperationCreate)
    ensures r in {Supervisor, Manager, Admin} <==>
              FirstMissing(RequireOperationManage, Values(RolePermissions(r))).None?
    ensures r in {Supervisor, Manager, Admin} <==>
              FirstMissing(RequireBatchOperations, Values(RolePermissions(r))).None?
    ensures r == Admin <==> FirstMissing(RequireAdminAccess, Values(RolePermissions(r))).None?
  {
    ReadGuardByRole(r);
    WriteGuardByRole(r);
    ManageGuardByRole(r);
    BatchGuardByRole(r);
    AdminGuardByRole(r);
  }

  lemma ReadGuardByRole(r: UserRole)
    ensures FirstMissing(RequireOperationRead, Values(RolePermissions(r))).None?
  {
    GuardOfRole(RequireOperationRead, r);
    AdminHoldsEverything(OperationRead);
  }

  lemma WriteGuardByRole(r: UserRole)
    ensures r in {Operator, Machine} ==>
              FirstMissing(RequireOperationWrite, Values(RolePermissions(r))) == Some(OperationCreate)
  {
    GuardOfRole(RequireOperationWrite, r);
  }

  lemma ManageGuardByRole(r: UserRole)
    ensures r in {Supervisor, Manager, Admin} <==>
              FirstMissing(RequireOperationManage, Values(RolePermissions(r))).None?
  {
    GuardOfRole(RequireOperationManage, r);
    match r
    case Admin =>
      AdminHoldsEverything(OperationCreate);
      AdminHoldsEverything(OperationUpdate);
      AdminHoldsEverything(OperationDelete);
    case Supervisor =>
    case Manager =>
    case _ => assert OperationCreate !in RolePermissions(r);
  }

  lemma BatchGuardByRole(r: UserRole)
    ensures r in {Supervisor, Manager, Admin} <==>
              FirstMissing(RequireBatchOperations, Values(RolePermissions(r))).None?
  {
    GuardOfRole(RequireBatchOperations, r);
    if r == Admin {
      AdminHoldsEverything(OperationBatchUpdate);
    }
  }

  lemma AdminGuardByRole(r: UserRole)
    ensures r == Admin <==> FirstMissing(RequireAdminAccess, Values(RolePermissions(r))).None?
  {
    GuardOfRole(RequireAdminAccess, r);
    OnlyAdminAdministers(r);
  }

  /** A guard passes a role's token exactly when the role's table entry holds every required permission. */
  lemma GuardOfRole(required: seq<Permission>, r: UserRole)
    ensures FirstMissing(required, Values(RolePermissions(r))).None? <==>
              forall p | p in required :: p in RolePermissions(r)
    ensures |required| > 0 && required[0] !in RolePermissions(r) ==>
              FirstMissing(required, Values(RolePermissions(r))) == Some(required[0])
  {
    var ps := RolePermissions(r);
    var vs := Values(ps);
    forall p: Permission
      ensures HasPermission(vs, p) <==> p in ps
    {
      HasPermissionOfValues(ps, p);
    }
    FirstMissingMeaning(required, vs);
  }

  /**
   * The workplace `RequireWorkplaceAccess` reads: the path parameter, unless
   * it is absent or empty, in which case the query parameter (or `None`).
   */
  function RequestedWorkplace(pathParams: map<string, string>, queryParams: map<string, string>, param: string)
    : Option<string>
  {
    if param in pathParams && pathParams[param] != "" then Some(pathParams[param])
    else if param in queryParams then Some(queryParams[param])
    else None
  }

  function DeniedWorkplaceText(workplace: string): string {
    "Access denied to workplace: " + workplace
  }

  /**
   * `RequireWorkplaceAccess(param)(request, user)`: a request that names no
   * workplace (or an empty one) passes; otherwise the user's access list decides.
   */
  method RequireWorkplaceAccess(pathParams: map<string, string>, queryParams: map<string, string>, param: string,
                                user: TokenUser)
    returns (r: Result<TokenUser, Failure>)
    ensures var w := RequestedWorkplace(pathParams, queryParams, param);
            && (r.Failure? <==> w.Some? && w.value != "" && !CanAccessWorkplace(user.workplaceAccess, w.value))
            && (r.Success? ==> r.value == user)
            && (r.Failure? ==> r.error == Forbidden(DeniedWorkplaceText(w.value)))
  {
    var workplace: Option<string> := None;
    if param in pathParams {
      workplace := Some(pathParams[param]);
    }
    if workplace.None? || workplace.value == "" {
      workplace := if param in queryParams then Some(queryParams[param]) else None;
    }
    if workplace.Some? && workplace.value != "" && !CanAccessWorkplace(user.workplaceAccess, workplace.value) {
      return Failure(Forbidden(DeniedWorkplaceText(workplace.value)));
    }
    return Success(user);
  }

  /** The path parameter wins over the query parameter, and a request naming no workplace is never refused. */
  lemma WorkplaceSourcePrecedence(pathParams: map<string, string>, queryParams: map<string, string>, param: string)
    ensures param in pathParams && pathParams[param] != "" ==>
              RequestedWorkplace(pathParams, queryParams, param) == Some(pathParams[param])
    ensures param !in pathParams ==>
              RequestedWorkplace(pathParams, queryParams, param) ==
                (if param in queryParams then Some(queryParams[param]) else None)
    ensures param !in pathParams && param !in queryParams ==> RequestedWorkplace(pathParams, queryParams, param).None?
  {
  }
}
