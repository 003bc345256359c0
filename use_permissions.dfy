/**
 * The `usePermissions` hook (src/hooks/usePermissions.ts): the role string taken from the
 * signed-in user, and the permission checks bound to it.
 *
 * The hook does not check that the role string names one of the four roles. For any other
 * string `ROLE_PERMISSIONS[role]` is `undefined`, and `hasPermission` then throws when it calls
 * `.includes` on it. An `Outcome` records which of the two happened.
 */
module UsePermissions {
  import opened Wrappers
  import opened Permissions
  import AuthContext

  /** What a call does: returns a value, or throws. */
  datatype Outcome<+T> = Returns(value: T) | Throws

  /** `(user?.role as UserRole) || 'GUEST'`: the role string, with no user or a falsy role read as GUEST. */
  function UserRoleName(user: Option<AuthContext.User>): (role: string)
    ensures role != ""
    ensures user.None? || user.value.role.None? || user.value.role == Some("") ==> role == "GUEST"
    ensures user.Some? && user.value.role.Some? && user.value.role.value != "" ==> role == user.value.role.value
  {
    match user
    case None => "GUEST"
    case Some(u) =>
      match u.role
      case None => "GUEST"
      case Some(r) => if r == "" then "GUEST" else r
  }

  /** `hasPermission(userRole, p)`: throws unless the role string is one of the four keys. */
  function CheckPermission(role: string, p: Permission): (held: Outcome<bool>)
    ensures held == Throws <==> LookupRole(role).None?
    ensures forall r :: LookupRole(role) == Some(r) ==> held == Returns(HasPermission(r, p))
  {
    match LookupRole(role)
    case None => Throws
    case Some(r) => Returns(HasPermission(r, p))
  }

  /** `permissions.every(p => hasPermission(userRole, p))`: stops at the first `false` or throw. */
  function CheckAll(role: string, ps: seq<Permission>): (held: Outcome<bool>)
    ensures held == Throws <==> LookupRole(role).None? && ps != []
  {
    if ps == [] then Returns(true)
    else
      match CheckPermission(role, ps[0])
      case Throws => Throws
      case Returns(held) => if held then CheckAll(role, ps[1..]) else Returns(false)
  }

  /** `permissions.some(p => hasPermission(userRole, p))`: stops at the first `true` or throw. */
  function CheckAny(role: string, ps: seq<Permission>): (held: Outcome<bool>)
    ensures held == Throws <==> LookupRole(role).None? && ps != []
  {
    if ps == [] then Returns(false)
    else
      match CheckPermission(role, ps[0])
      case Throws => Throws
      case Returns(held) => if held then Returns(true) else CheckAny(role, ps[1..])
  }

  /** For one of the four roles, the bound checks return what the library predicates say. */
  lemma {:induction false} BoundChecksAgree(role: string, r: UserRole, ps: seq<Permission>)
    requires LookupRole(role) == Some(r)
    ensures CheckAll(role, ps) == Returns(HasAllPermissions(r, ps))
    ensures CheckAny(role, ps) == Returns(HasAnyPermission(r, ps))
  {
    if ps != [] {
      BoundChecksAgree(role, r, ps[1..]);
    }
  }

  /**
   * For any other role string, a single check throws, and so does a list check over a
   * non-empty list; over the empty list `every` and `some` never call `hasPermission`.
   */
  lemma UnknownRoleChecks(role: string, p: Permission, ps: seq<Permission>)
    requires LookupRole(role) == None
    ensures CheckPermission(role, p) == Throws
    ensures CheckAll(role, ps) == (if ps == [] then Returns(true) else Throws)
    ensures CheckAny(role, ps) == (if ps == [] then Returns(false) else Throws)
  {
  }

  /** A role string that is not empty and not a known role is kept as it is, not read as GUEST. */
  lemma UnknownRoleIsNotGuest(u: AuthContext.User, p: Permission)
    requires u.role.Some? && u.role.value != "" && LookupRole(u.role.value) == None
    ensures UserRoleName(Some(u)) == u.role.value
    ensures CheckPermission(UserRoleName(Some(u)), p) == Throws
  {
  }

  /** A signed-out visitor is checked as GUEST. */
  lemma NoUserIsGuest(p: Permission)
    ensures CheckPermission(UserRoleName(None), p) == Returns(HasPermission(GUEST, p))
  {
  }

  /** `ROLE_PERMISSIONS[userRole] || []`. */
  function GetUserPermissions(user: Option<AuthContext.User>): (ps: seq<Permission>)
    ensures LookupRole(UserRoleName(user)).None? ==> ps == []
    ensures forall p :: p in ps <==> CheckPermission(UserRoleName(user), p) == Returns(true)
  {
    match LookupRole(UserRoleName(user))
    case None => []
    case Some(r) => RolePermissions(r)
  }

  /** The permission list a user gets contains exactly the permissions their checks grant. */
  lemma UserPermissionsMatchChecks(user: Option<AuthContext.User>, p: Permission)
    ensures p in GetUserPermissions(user) <==> CheckPermission(UserRoleName(user), p) == Returns(true)
  {
  }

  /** `getFilteredNavigation(userRole)`: the first entry's check throws for an unknown role. */
  function FilteredNavigation(user: Option<AuthContext.User>): (menu: Outcome<seq<NavItem>>)
    ensures menu.Returns? <==> LookupRole(UserRoleName(user)).Some?
  {
    match LookupRole(UserRoleName(user))
    case None => Throws
    case Some(r) => Returns(GetFilteredNavigation(r))
  }

  /** The `can*` helpers. */
  datatype Helper =
    | CanViewDashboard | CanManageCampaigns | CanDeleteLeads | CanConfigureBot | CanManageUsers
    | CanViewAdvancedReports | CanAccessSystem | CanViewSystemLogs | CanManageDatabase
    | CanCreateLead
    | CanViewEmulator | CanCreateEmulator | CanDeleteEmulator | CanEditEmulator | CanRefreshEmulator

  /** The permission each helper asks about. */
  function HelperPermission(h: Helper): Permission {
    match h
    case CanViewDashboard => DashboardView
    case CanManageCampaigns => CampaignCreate
    case CanDeleteLeads => LeadsDelete
    case CanConfigureBot => BotConfigure
    case CanManageUsers => SettingsUsers
    case CanViewAdvancedReports => ReportsAdvanced
    case CanAccessSystem => SystemAdmin
    case CanViewSystemLogs => SystemLogs
    case CanManageDatabase => SystemDatabase
    case CanCreateLead => LeadCreate
    case CanViewEmulator => EmulatorView
    case CanCreateEmulator => EmulatorCreate
    case CanDeleteEmulator => EmulatorDelete
    case CanEditEmulator => EmulatorEdit
    case CanRefreshEmulator => EmulatorRefresh
  }

  /** Calling a helper for the signed-in user. */
  function Can(user: Option<AuthContext.User>, h: Helper): (granted: Outcome<bool>)
    ensures granted == Throws <==> LookupRole(UserRoleName(user)).None?
    ensures granted == Returns(true) <==>
      (LookupRole(UserRoleName(user)).Some? && HasPermission(LookupRole(UserRoleName(user)).value, HelperPermission(h)))
  {
    CheckPermission(UserRoleName(user), HelperPermission(h))
  }

  /** `canCreateLead()` never grants: it returns false for the four roles and throws otherwise. */
  lemma CreateLeadNeverGranted(user: Option<AuthContext.User>)
    ensures Can(user, CanCreateLead) != Returns(true)
  {
    match LookupRole(UserRoleName(user))
    case None =>
    case Some(r) => LeadCreateGrantedToNobody(r);
  }

  /** `canAccessSystem()` grants exactly to MASTER. */
  lemma AccessSystemIffMaster(user: Option<AuthContext.User>)
    ensures Can(user, CanAccessSystem) == Returns(true) <==> UserRoleName(user) == "MASTER"
  {
    var name := UserRoleName(user);
    match LookupRole(name)
    case None =>
      assert name != RoleName(MASTER);
    case Some(r) =>
      SystemAdminHeldByMasterOnly(r);
      assert r == MASTER <==> name == RoleName(MASTER);
  }

  /** `canConfigureBot()` grants exactly to MASTER and ADMIN. */
  lemma ConfigureBotIffMasterOrAdmin(user: Option<AuthContext.User>)
    ensures Can(user, CanConfigureBot) == Returns(true) <==>
      UserRoleName(user) == "MASTER" || UserRoleName(user) == "ADMIN"
  {
    match LookupRole(UserRoleName(user))
    case None =>
    case Some(r) => HasPermissionByRank(r, BotConfigure);
  }

  /** `isMaster()`, `isAdmin()`, `isUser()`, `isGuest()`: string comparisons on the role. */
  predicate IsMaster(user: Option<AuthContext.User>) { UserRoleName(user) == "MASTER" }
  predicate IsAdmin(user: Option<AuthContext.User>) { UserRoleName(user) == "ADMIN" }
  predicate IsUser(user: Option<AuthContext.User>) { UserRoleName(user) == "USER" }
  predicate IsGuest(user: Option<AuthContext.User>) { UserRoleName(user) == "GUEST" }

  /** How many of the four role tests hold. */
  function RoleTestCount(user: Option<AuthContext.User>): nat {
    (if IsMaster(user) then 1 else 0) + (if IsAdmin(user) then 1 else 0)
    + (if IsUser(user) then 1 else 0) + (if IsGuest(user) then 1 else 0)
  }

  /** For a known role exactly one role test holds, and it is the one naming that role; otherwise none does. */
  lemma ExactlyOneRoleTest(user: Option<AuthContext.User>)
    ensures RoleTestCount(user) == (if LookupRole(UserRoleName(user)).Some? then 1 else 0)
    ensures LookupRole(UserRoleName(user)) == Some(MASTER) <==> IsMaster(user)
    ensures LookupRole(UserRoleName(user)) == Some(ADMIN) <==> IsAdmin(user)
    ensures LookupRole(UserRoleName(user)) == Some(USER) <==> IsUser(user)
    ensures LookupRole(UserRoleName(user)) == Some(GUEST) <==> IsGuest(user)
  {
  }
}
