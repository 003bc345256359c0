/**
 * `RouteGuard` (src/components/RouteGuard.tsx): protects a whole page. The render shows the
 * page when the role passes the requirement and a spinner otherwise; the effect, on denial,
 * optionally shows an error toast and then navigates away. Both use `PermissionGuard.Access`.
 *
 * There is no loading state: while no user is signed in the role is GUEST, so a requirement
 * GUEST does not meet is denied, toast and redirect included.
 */
module RouteGuard {
  import opened Wrappers
  import opened Permissions
  import opened UsePermissions
  import PermissionGuard
  import AuthContext
  import Ui

  /** The props, with each optional prop as given (`None` = not passed). */
  datatype Props = Props(
    permissions: PermissionGuard.PermissionArg,
    redirectTo: Option<string>,
    requireAll: Option<bool>,
    showToast: Option<bool>)

  const DefaultRedirect := "/intern/dashboard"
  const DeniedTitle := "Acesso negado"

  /** The toast's description, naming the role string. */
  function DeniedDescription(role: string): string {
    "Seu perfil (" + role + ") não tem permissão para acessar esta página."
  }

  /** The access decision both the effect and the render compute (`requireAll` defaults to `true`). */
  function Decision(user: Option<AuthContext.User>, props: Props): (decision: Outcome<bool>)
    ensures decision == Throws <==> LookupRole(UserRoleName(user)).None? && props.permissions != PermissionGuard.Many([])
    ensures user.None? ==> decision != Throws
  {
    PermissionGuard.Access(UserRoleName(user), props.permissions, props.requireAll.GetOr(true))
  }

  /** The render: the page when access is granted, the spinner when it is denied. */
  function Render(user: Option<AuthContext.User>, props: Props): (view: Ui.View)
    ensures view in {Ui.Children, Ui.Spinner, Ui.Throws}
    ensures view == Ui.Children <==> Decision(user, props) == Returns(true)
    ensures view == Ui.Spinner <==> Decision(user, props) == Returns(false)
  {
    match Decision(user, props)
    case Throws => Ui.Throws
    case Returns(hasAccess) => if !hasAccess then Ui.Spinner else Ui.Children
  }

  /** What a denial issues: the error toast when `showToast` (default `true`), then the redirect (default the dashboard). */
  function DenialEffects(role: string, props: Props): (effects: seq<Ui.Effect>)
    ensures |effects| == if props.showToast.GetOr(true) then 2 else 1
    ensures effects[|effects| - 1] == Ui.Effect.Push(props.redirectTo.GetOr(DefaultRedirect))
    ensures props.showToast.GetOr(true) ==> effects[0] == Ui.Effect.Toast(Ui.ErrorToast, DeniedTitle, Some(DeniedDescription(role)))
  {
    (if props.showToast.GetOr(true) then [Ui.Effect.Toast(Ui.ErrorToast, DeniedTitle, Some(DeniedDescription(role)))] else [])
    + [Ui.Effect.Push(props.redirectTo.GetOr(DefaultRedirect))]
  }

  /** The effects of one run of the effect body; a throwing check issues none. */
  function EffectEvents(user: Option<AuthContext.User>, props: Props): Outcome<seq<Ui.Effect>> {
    match Decision(user, props)
    case Throws => Throws
    case Returns(hasAccess) => if !hasAccess then Returns(DenialEffects(UserRoleName(user), props)) else Returns([])
  }

  /** The effect body; `threw` reports that a permission check raised an exception. */
  method RunEffect(user: Option<AuthContext.User>, props: Props, log: Ui.EffectLog) returns (threw: bool)
    modifies log
    ensures threw <==> EffectEvents(user, props) == Throws
    ensures log.events == old(log.events) + match EffectEvents(user, props)
      case Throws => []
      case Returns(es) => es
  {
    var userRole := UserRoleName(user);
    var decision := PermissionGuard.Access(userRole, props.permissions, props.requireAll.GetOr(true));
    if decision.Throws? {
      return true;
    }
    threw := false;
    var hasAccess := decision.value;
    if !hasAccess {
      if props.showToast.GetOr(true) {
        log.Toast(Ui.ErrorToast, DeniedTitle, Some(DeniedDescription(userRole)));
      }
      log.Push(props.redirectTo.GetOr(DefaultRedirect));
    }
  }

  /** The effect and the render agree: no effects exactly when the page shows, some exactly when the spinner does. */
  lemma EffectMatchesRender(user: Option<AuthContext.User>, props: Props)
    ensures Render(user, props) == Ui.Children <==> EffectEvents(user, props) == Returns([])
    ensures Render(user, props) == Ui.Spinner <==> EffectEvents(user, props).Returns? && EffectEvents(user, props).value != []
    ensures Render(user, props) == Ui.Throws <==> EffectEvents(user, props) == Throws
  {
  }

  /** A denial navigates exactly once, as its last effect, and toasts exactly once first when `showToast` holds. */
  lemma DenialEffectsShape(role: string, props: Props)
    ensures Ui.PushCount(DenialEffects(role, props)) == 1
    ensures Ui.ToastCount(DenialEffects(role, props)) == (if props.showToast.GetOr(true) then 1 else 0)
    ensures DenialEffects(role, props)[|DenialEffects(role, props)| - 1] == Ui.Effect.Push(props.redirectTo.GetOr(DefaultRedirect))
    ensures props.showToast.GetOr(true) ==> DenialEffects(role, props)[0].Toast?
  {
    var es := DenialEffects(role, props);
    var push := [Ui.Effect.Push(props.redirectTo.GetOr(DefaultRedirect))];
    assert Ui.PushCount(push) == 1 && Ui.ToastCount(push) == 0 by {
      assert push[1..] == [];
    }
    if props.showToast.GetOr(true) {
      assert es[1..] == push;
    } else {
      assert es == push;
    }
  }

  /** With the defaults, a denial toasts and then sends the user to the dashboard. */
  lemma DefaultDenial(role: string, permissions: PermissionGuard.PermissionArg)
    ensures DenialEffects(role, Props(permissions, None, None, None)) ==
      [Ui.Effect.Toast(Ui.ErrorToast, "Acesso negado", Some(DeniedDescription(role))), Ui.Effect.Push("/intern/dashboard")]
  {
  }

  /** A signed-out visitor is judged as GUEST, without waiting for a session to load. */
  lemma SignedOutIsGuest(props: Props)
    ensures Decision(None, props) == Returns(PermissionGuard.Qualifies(GUEST, props.permissions, props.requireAll.GetOr(true)))
  {
    PermissionGuard.AccessForKnownRole("GUEST", GUEST, props.permissions, props.requireAll.GetOr(true));
  }

  /** A page guarded by one permission other than `dashboard.view` gets the spinner and a redirect while nobody is signed in. */
  lemma SignedOutIsRedirected(p: Permission, redirectTo: Option<string>, showToast: Option<bool>)
    requires p != DashboardView
    ensures Render(None, Props(PermissionGuard.One(p), redirectTo, None, showToast)) == Ui.Spinner
    ensures EffectEvents(None, Props(PermissionGuard.One(p), redirectTo, None, showToast)) ==
      Returns(DenialEffects("GUEST", Props(PermissionGuard.One(p), redirectTo, None, showToast)))
  {
    GuestHoldsOnlyDashboardView(p);
  }
}
