/**
 * `PermissionGuard` (src/components/PermissionGuard.tsx): shows its children when the
 * signed-in user's role passes the permission requirement, and its fallback otherwise.
 * The requirement dispatch defined here is the same one `RouteGuard` repeats.
 */
module PermissionGuard {
  import opened Wrappers
  import opened Permissions
  import opened UsePermissions
  import AuthContext
  import Ui

  /** The `permissions` prop: a single permission or an array of them. */
  datatype PermissionArg = One(permission: Permission) | Many(permissions: seq<Permission>)

  /**
   * `Array.isArray(permissions) ? (requireAll ? hasAll : hasAny)(permissions)
   * : hasPermission(permissions)`, for the role string `role`.
   */
  function Access(role: string, permissions: PermissionArg, requireAll: bool): (access: Outcome<bool>)
    ensures access == Throws <==> LookupRole(role).None? && permissions != Many([])
    ensures permissions == Many([]) ==> access == Returns(requireAll)
  {
    match permissions
    case One(p) => CheckPermission(role, p)
    case Many(ps) => if requireAll then CheckAll(role, ps) else CheckAny(role, ps)
  }

  /** A single permission is decided by `hasPermission` alone, whatever `requireAll` says. */
  lemma ScalarIgnoresRequireAll(role: string, p: Permission, requireAll: bool)
    ensures Access(role, One(p), requireAll) == Access(role, One(p), !requireAll) == CheckPermission(role, p)
  {
  }

  /** The same dispatch over the library predicates, for one of the four roles. */
  predicate Qualifies(r: UserRole, permissions: PermissionArg, requireAll: bool) {
    match permissions
    case One(p) => HasPermission(r, p)
    case Many(ps) => if requireAll then HasAllPermissions(r, ps) else HasAnyPermission(r, ps)
  }

  /** For one of the four roles, the dispatch never throws and agrees with the library predicates. */
  lemma AccessForKnownRole(role: string, r: UserRole, permissions: PermissionArg, requireAll: bool)
    requires LookupRole(role) == Some(r)
    ensures Access(role, permissions, requireAll) == Returns(Qualifies(r, permissions, requireAll))
  {
    if permissions.Many? {
      BoundChecksAgree(role, r, permissions.permissions);
    }
  }

  /** An empty array passes under all-of and fails under any-of, for every role string. */
  lemma EmptyArrayAccess(role: string)
    ensures Access(role, Many([]), true) == Returns(true)
    ensures Access(role, Many([]), false) == Returns(false)
  {
  }

  /** The props, with each optional prop as given (`None` = not passed). */
  datatype Props = Props(permissions: PermissionArg, fallback: Option<Ui.Node>, requireAll: Option<bool>)

  /** The component's render: `fallback` defaults to `null` and `requireAll` to `true`. */
  function Render(user: Option<AuthContext.User>, props: Props): (view: Ui.View)
    ensures view == Ui.Children <==> Access(UserRoleName(user), props.permissions, props.requireAll.GetOr(true)) == Returns(true)
    ensures view == Ui.Fallback(props.fallback.GetOr(Ui.Null)) <==>
      Access(UserRoleName(user), props.permissions, props.requireAll.GetOr(true)) == Returns(false)
    ensures view == Ui.Throws <==> Access(UserRoleName(user), props.permissions, props.requireAll.GetOr(true)) == Throws
  {
    match Access(UserRoleName(user), props.permissions, props.requireAll.GetOr(true))
    case Throws => Ui.Throws
    case Returns(hasAccess) =>
      if !hasAccess then Ui.Fallback(props.fallback.GetOr(Ui.Null)) else Ui.Children
  }

  /** Leaving out `requireAll` is passing `true`; leaving out `fallback` renders `null` on denial. */
  lemma Defaults(user: Option<AuthContext.User>, permissions: PermissionArg)
    ensures Render(user, Props(permissions, None, None)) == Render(user, Props(permissions, Some(Ui.Null), Some(true)))
  {
  }

  /** With an empty array the children show under all-of and the fallback under any-of. */
  lemma EmptyArrayRender(user: Option<AuthContext.User>, fallback: Option<Ui.Node>)
    ensures Render(user, Props(Many([]), fallback, Some(true))) == Ui.Children
    ensures Render(user, Props(Many([]), fallback, None)) == Ui.Children
    ensures Render(user, Props(Many([]), fallback, Some(false))) == Ui.Fallback(fallback.GetOr(Ui.Null))
  {
  }

  /** For a user holding one of the four roles, the guard never throws and shows the children exactly when the role qualifies. */
  lemma RenderForKnownRole(user: Option<AuthContext.User>, r: UserRole, props: Props)
    requires LookupRole(UserRoleName(user)) == Some(r)
    ensures Render(user, props) != Ui.Throws
    ensures Render(user, props) == Ui.Children <==> Qualifies(r, props.permissions, props.requireAll.GetOr(true))
  {
    AccessForKnownRole(UserRoleName(user), r, props.permissions, props.requireAll.GetOr(true));
  }
}
