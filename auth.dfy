/** The access-control decorators and helpers of auth_utils.py as decisions:
    given the current user, each decorator either lets the view run or
    answers with a redirect or an abort. Flash messages and the Flask calls
    themselves are not modelled. */
module Auth {
  import opened PyBuiltins

  /** The members of `UserRole`, in declaration order. */
  datatype Role = Employee | Manager | Admin

  /** `current_user` as the decorators see it. The User model is not part of
      this model, so `has_role` and `has_permission` are opaque oracles. */
  datatype User = User(
    isAuthenticated: bool,
    isActive: bool,
    isAdmin: bool,
    isManager: bool,
    id: int,
    hasRole: Role -> bool,
    hasPermission: string -> bool)

  /** What a decorated view answers: run the view, redirect to the login page
      (with or without `next=` pointing back), redirect to the dashboard, or
      abort with status 400. */
  datatype Decision = Allow | RedirectLogin(keepNext: bool) | RedirectDashboard | Abort400

  /** `login_required_with_message`. */
  function LoginRequiredWithMessage(u: User): (d: Decision)
    ensures d == Allow <==> u.isAuthenticated
    ensures d != Allow ==> d == RedirectLogin(true)
  {
    if !u.isAuthenticated then RedirectLogin(true) else Allow
  }

  // ---------------------------------------------------------------------------
  // role_required

  /** One argument of `role_required`: a role name, a `UserRole` member, or
      anything else (which the loop ignores). */
  datatype RoleArg = RoleName(name: string) | RoleMember(role: Role) | OtherArg

  /** `UserRole(s)`: the first member, in declaration order, whose value is s;
      None where the enum raises ValueError. `value` gives each member's
      `.value`. */
  function ParseRole(s: string, value: Role -> string): (r: Option<Role>)
    ensures r.Some? ==> value(r.value) == s
    ensures r.None? <==> value(Employee) != s && value(Manager) != s && value(Admin) != s
    ensures r == Some(Manager) ==> value(Employee) != s
    ensures r == Some(Admin) ==> value(Employee) != s && value(Manager) != s
  {
    if value(Employee) == s then Some(Employee)
    else if value(Manager) == s then Some(Manager)
    else if value(Admin) == s then Some(Admin)
    else None
  }

  /** The argument names role r once converted. */
  predicate Names(a: RoleArg, r: Role, value: Role -> string)
  {
    match a
    case RoleName(s) => ParseRole(s, value) == Some(r)
    case RoleMember(m) => m == r
    case OtherArg => false
  }

  /** What one iteration of the conversion loop appends. */
  function Converted(a: RoleArg, value: Role -> string): (rs: seq<Role>)
    ensures |rs| <= 1
    ensures forall r :: r in rs <==> Names(a, r, value)
  {
    match a
    case RoleName(s) => (match ParseRole(s, value) case Some(r) => [r] case None => [])
    case RoleMember(m) => [m]
    case OtherArg => []
  }

  /** `roles_to_check`: the arguments that convert to a role, converted, in
      argument order. */
  function RolesToCheck(args: seq<RoleArg>, value: Role -> string): (rs: seq<Role>)
    ensures |rs| <= |args|
    ensures forall r :: r in rs <==> exists i :: 0 <= i < |args| && Names(args[i], r, value)
    decreases |args|
  {
    if args == [] then []
    else
      var init := args[..|args| - 1];
      var last := args[|args| - 1];
      var rs := RolesToCheck(init, value) + Converted(last, value);
      assert forall i :: 0 <= i < |init| ==> init[i] == args[i];
      rs
  }

  /** The loop of `role_required` that converts its arguments, skipping the
      strings no role has as its value. */
  method CollectRoles(args: seq<RoleArg>, value: Role -> string) returns (rolesToCheck: seq<Role>)
    ensures rolesToCheck == RolesToCheck(args, value)
  {
    rolesToCheck := [];
    for i := 0 to |args|
      invariant rolesToCheck == RolesToCheck(args[..i], value)
    {
      assert args[..i + 1][..i] == args[..i];
      match args[i]
      case RoleName(s) =>
        var parsed := ParseRole(s, value);
        if parsed.Some? {
          rolesToCheck := rolesToCheck + [parsed.value];
        }
      case RoleMember(m) =>
        rolesToCheck := rolesToCheck + [m];
      case OtherArg =>
    }
    assert args[..|args|] == args;
  }

  /** `any(current_user.has_role(role) for role in roles)`. */
  function AnyRole(u: User, roles: seq<Role>): (b: bool)
    ensures b <==> exists i :: 0 <= i < |roles| && u.hasRole(roles[i])
    decreases |roles|
  {
    if roles == [] then false
    else u.hasRole(roles[0]) || AnyRole(u, roles[1..])
  }

  /** The decision of `role_required(*args)`. An authenticated user passes
      exactly when they hold a role one of the arguments names; arguments
      naming no role are skipped. */
  function RoleDecision(u: User, args: seq<RoleArg>, value: Role -> string): (d: Decision)
    ensures !u.isAuthenticated ==> d == RedirectLogin(true)
    ensures u.isAuthenticated ==>
      (d == Allow <==> exists i, r :: 0 <= i < |args| && Names(args[i], r, value) && u.hasRole(r))
    ensures u.isAuthenticated && d != Allow ==> d == RedirectDashboard
  {
    if !u.isAuthenticated then RedirectLogin(true)
    else
      var roles := RolesToCheck(args, value);
      if !AnyRole(u, roles) then
        assert forall i, r :: 0 <= i < |args| && Names(args[i], r, value) && u.hasRole(r) ==> r in roles;
        RedirectDashboard
      else
        var k :| 0 <= k < |roles| && u.hasRole(roles[k]);
        assert roles[k] in roles;
        Allow
  }

  /** `role_required(*args)` applied to a request. */
  method RoleRequired(u: User, args: seq<RoleArg>, value: Role -> string) returns (d: Decision)
    ensures d == RoleDecision(u, args, value)
  {
    if !u.isAuthenticated {
      return RedirectLogin(true);
    }
    var rolesToCheck := CollectRoles(args, value);
    if !AnyRole(u, rolesToCheck) {
      return RedirectDashboard;
    }
    return Allow;
  }

  /** Arguments naming no role never let anyone through, the empty list
      included: `any` over no roles is false. */
  lemma InvalidRolesDeny(u: User, args: seq<RoleArg>, value: Role -> string)
    requires u.isAuthenticated
    requires forall i :: 0 <= i < |args| ==> args[i].OtherArg? || (args[i].RoleName? && ParseRole(args[i].name, value).None?)
    ensures RoleDecision(u, args, value) == RedirectDashboard
  {
    assert forall i, r :: 0 <= i < |args| ==> !Names(args[i], r, value);
  }

  /** Naming a role by its value or by its member decides alike, when the
      members' values are distinct (`@role_required('admin')` and
      `@role_required(UserRole.ADMIN)`). */
  lemma NameAndMemberAgree(u: User, r: Role, value: Role -> string)
    requires value(Employee) != value(Manager) && value(Employee) != value(Admin) && value(Manager) != value(Admin)
    ensures RoleDecision(u, [RoleName(value(r))], value) == RoleDecision(u, [RoleMember(r)], value)
  {
    assert ParseRole(value(r), value) == Some(r);
    assert forall q :: Names(RoleName(value(r)), q, value) <==> Names(RoleMember(r), q, value);
  }

  // ---------------------------------------------------------------------------
  // The other decorators

  /** `any(current_user.has_permission(perm) for perm in perms)`. */
  function AnyPermission(u: User, perms: seq<string>): (b: bool)
    ensures b <==> exists i :: 0 <= i < |perms| && u.hasPermission(perms[i])
    decreases |perms|
  {
    if perms == [] then false
    else u.hasPermission(perms[0]) || AnyPermission(u, perms[1..])
  }

  /** `permission_required(*perms)`: an authenticated user passes exactly when
      they hold one of the permissions. */
  function PermissionRequired(u: User, perms: seq<string>): (d: Decision)
    ensures !u.isAuthenticated ==> d == RedirectLogin(true)
    ensures u.isAuthenticated ==> (d == Allow <==> exists i :: 0 <= i < |perms| && u.hasPermission(perms[i]))
    ensures u.isAuthenticated && d != Allow ==> d == RedirectDashboard
  {
    if !u.isAuthenticated then RedirectLogin(true)
    else if !AnyPermission(u, perms) then RedirectDashboard
    else Allow
  }

  /** `admin_required`. */
  function AdminRequired(u: User): (d: Decision)
    ensures !u.isAuthenticated ==> d == RedirectLogin(true)
    ensures d == Allow <==> u.isAuthenticated && u.isAdmin
    ensures u.isAuthenticated && !u.isAdmin ==> d == RedirectDashboard
  {
    if !u.isAuthenticated then RedirectLogin(true)
    else if !u.isAdmin then RedirectDashboard
    else Allow
  }

  /** `manager_or_admin_required`. */
  function ManagerOrAdminRequired(u: User): (d: Decision)
    ensures !u.isAuthenticated ==> d == RedirectLogin(true)
    ensures d == Allow <==> u.isAuthenticated && (u.isAdmin || u.isManager)
    ensures u.isAuthenticated && !u.isAdmin && !u.isManager ==> d == RedirectDashboard
  {
    if !u.isAuthenticated then RedirectLogin(true)
    else if !(u.isAdmin || u.isManager) then RedirectDashboard
    else Allow
  }

  /** `active_user_required`: a deactivated account goes back to the login
      page, without `next=`, and never to the dashboard. */
  function ActiveUserRequired(u: User): (d: Decision)
    ensures !u.isAuthenticated ==> d == RedirectLogin(true)
    ensures d == Allow <==> u.isAuthenticated && u.isActive
    ensures u.isAuthenticated && !u.isActive ==> d == RedirectLogin(false)
    ensures d != RedirectDashboard && d != Abort400
  {
    if !u.isAuthenticated then RedirectLogin(true)
    else if !u.isActive then RedirectLogin(false)
    else Allow
  }

  /** `kwargs.get('user_id') or kwargs.get('id')` for integer route
      parameters: a present, non-zero `user_id` wins; otherwise `id`, which
      may itself be missing. */
  function RequestedUserId(userIdArg: Option<int>, idArg: Option<int>): (r: Option<int>)
    ensures r.Some? <==> (userIdArg.Some? && userIdArg.value != 0) || idArg.Some?
    ensures r.Some? ==> r == userIdArg || r == idArg
    ensures userIdArg.Some? && userIdArg.value != 0 ==> r == userIdArg
    ensures !(userIdArg.Some? && userIdArg.value != 0) ==> r == idArg
  {
    if userIdArg.Some? && userIdArg.value != 0 then userIdArg else idArg
  }

  /** `self_or_admin_required`: no id aborts with 400; otherwise the user's
      own id or admin rights let them through, and anyone else goes to the
      dashboard. */
  function SelfOrAdminRequired(u: User, userIdArg: Option<int>, idArg: Option<int>): (d: Decision)
    ensures !u.isAuthenticated ==> d == RedirectLogin(true)
    ensures u.isAuthenticated && RequestedUserId(userIdArg, idArg).None? ==> d == Abort400
    ensures u.isAuthenticated && RequestedUserId(userIdArg, idArg).Some? ==>
      (d == Allow <==> u.id == RequestedUserId(userIdArg, idArg).value || u.isAdmin)
    ensures u.isAuthenticated && RequestedUserId(userIdArg, idArg).Some? && d != Allow ==> d == RedirectDashboard
  {
    if !u.isAuthenticated then RedirectLogin(true)
    else
      var userId := RequestedUserId(userIdArg, idArg);
      if userId.None? then Abort400
      else if u.id == userId.value || u.isAdmin then Allow
      else RedirectDashboard
  }

  /** A `user_id` of 0 counts as missing: with no `id` beside it the request
      aborts even for an administrator. */
  lemma ZeroUserIdIsMissing(u: User)
    requires u.isAuthenticated
    ensures SelfOrAdminRequired(u, Some(0), None) == Abort400
    ensures forall id :: SelfOrAdminRequired(u, Some(0), Some(id)) == SelfOrAdminRequired(u, None, Some(id))
  {
  }

  /** Authentication comes first: an anonymous user is sent to log in, with
      `next=`, by every decorator whatever its arguments. */
  lemma AuthenticationComesFirst(u: User, args: seq<RoleArg>, value: Role -> string, perms: seq<string>,
                                 userIdArg: Option<int>, idArg: Option<int>)
    requires !u.isAuthenticated
    ensures var login := RedirectLogin(true);
      && LoginRequiredWithMessage(u) == login
      && RoleDecision(u, args, value) == login
      && PermissionRequired(u, perms) == login
      && AdminRequired(u) == login
      && ManagerOrAdminRequired(u) == login
      && ActiveUserRequired(u) == login
      && SelfOrAdminRequired(u, userIdArg, idArg) == login
  {
  }

  /** The shorthand decorators are ordered: whoever passes `admin_required`
      passes `manager_or_admin_required` and `login_required_with_message`,
      and an administrator passes `self_or_admin_required` for any id. */
  lemma AdminPassesEverywhere(u: User, userIdArg: Option<int>, idArg: Option<int>)
    requires AdminRequired(u) == Allow
    ensures ManagerOrAdminRequired(u) == Allow
    ensures LoginRequiredWithMessage(u) == Allow
    ensures RequestedUserId(userIdArg, idArg).Some? ==> SelfOrAdminRequired(u, userIdArg, idArg) == Allow
  {
  }

  // ---------------------------------------------------------------------------
  // Permission listing and feature access

  /** The thirteen permission names `get_user_permissions` asks about. */
  const AllPermissions: set<string> := {
    "user_management", "system_config", "all_analytics",
    "all_reports", "bulk_operations", "import_export",
    "product_management", "supplier_management", "stock_operations",
    "alert_management", "basic_analytics", "product_view", "basic_reports" }

  /** `get_user_permissions`: nothing for no user or an anonymous one,
      otherwise exactly the listed permissions the user holds. */
  function GetUserPermissions(user: Option<User>): (ps: set<string>)
    ensures ps <= AllPermissions
    ensures user.None? || !user.value.isAuthenticated ==> ps == {}
    ensures user.Some? && user.value.isAuthenticated ==>
      forall p :: p in ps <==> p in AllPermissions && user.value.hasPermission(p)
  {
    if user.None? || !user.value.isAuthenticated then {}
    else set p | p in AllPermissions && user.value.hasPermission(p)
  }

  /** The `feature_permissions` table. */
  const FeaturePermissions: map<string, seq<string>> := map[
    "analytics" := ["all_analytics", "basic_analytics"],
    "reports" := ["all_reports", "basic_reports"],
    "user_management" := ["user_management"],
    "bulk_operations" := ["bulk_operations"],
    "import_export" := ["import_export"],
    "supplier_management" := ["supplier_management"],
    "product_management" := ["product_management"],
    "stock_operations" := ["stock_operations"],
    "alert_management" := ["alert_management"]]

  /** `feature_permissions.get(feature, [])`. */
  function RequiredPermissions(feature: string): (perms: seq<string>)
    ensures feature !in FeaturePermissions ==> perms == []
    ensures feature in FeaturePermissions ==> perms == FeaturePermissions[feature]
  {
    if feature in FeaturePermissions then FeaturePermissions[feature] else []
  }

  /** `check_feature_access`: an authenticated user holding one of the
      feature's permissions; never for an anonymous user or an unknown
      feature. */
  function CheckFeatureAccess(u: User, feature: string): (b: bool)
    ensures !u.isAuthenticated ==> !b
    ensures feature !in FeaturePermissions ==> !b
    ensures b <==> u.isAuthenticated && exists i :: 0 <= i < |RequiredPermissions(feature)| && u.hasPermission(RequiredPermissions(feature)[i])
  {
    u.isAuthenticated && AnyPermission(u, RequiredPermissions(feature))
  }

  /** "analytics" and "reports" accept either of two permissions; every other
      feature needs the one permission of its own name. */
  lemma FeatureAlternatives(u: User, feature: string)
    ensures CheckFeatureAccess(u, "analytics") <==>
      u.isAuthenticated && (u.hasPermission("all_analytics") || u.hasPermission("basic_analytics"))
    ensures CheckFeatureAccess(u, "reports") <==>
      u.isAuthenticated && (u.hasPermission("all_reports") || u.hasPermission("basic_reports"))
    ensures feature in FeaturePermissions && feature != "analytics" && feature != "reports" ==>
      (CheckFeatureAccess(u, feature) <==> u.isAuthenticated && u.hasPermission(feature))
  {
    var a := RequiredPermissions("analytics");
    assert a == ["all_analytics", "basic_analytics"];
    assert a[0] == "all_analytics" && a[1] == "basic_analytics";
    var r := RequiredPermissions("reports");
    assert r == ["all_reports", "basic_reports"];
    assert r[0] == "all_reports" && r[1] == "basic_reports";
    if feature in FeaturePermissions && feature != "analytics" && feature != "reports" {
      assert RequiredPermissions(feature) == [feature];
    }
  }

  /** Every permission a feature maps to is one `get_user_permissions` lists. */
  lemma FeaturePermissionsAreListed(feature: string)
    ensures forall i :: 0 <= i < |RequiredPermissions(feature)| ==> RequiredPermissions(feature)[i] in AllPermissions
  {
  }

  /** The template helper and the decorator agree: a feature is accessible
      exactly when `permission_required` with its permissions lets the user
      through, and exactly when the user's listed permissions meet the
      feature's. */
  lemma FeatureAccessAgrees(u: User, feature: string)
    ensures CheckFeatureAccess(u, feature) <==> PermissionRequired(u, RequiredPermissions(feature)) == Allow
    ensures CheckFeatureAccess(u, feature) <==>
      exists i :: 0 <= i < |RequiredPermissions(feature)| && RequiredPermissions(feature)[i] in GetUserPermissions(Some(u))
  {
    FeaturePermissionsAreListed(feature);
  }
}
