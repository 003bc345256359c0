/**
 * `DashboardProtectedRoute` (src/components/DashboardProtectedRoute.tsx): wraps the dashboard
 * pages, holding back a guest who has no company. It uses the same guest-without-company test
 * as `AuthContext.IsGuestWithoutCompany`.
 */
module DashboardProtectedRoute {
  import opened Wrappers
  import AuthContext
  import Ui

  /** A loaded, signed-in guest without a company. */
  predicate HeldBack(user: Option<AuthContext.User>, isLoading: bool) {
    !isLoading && user.Some? && AuthContext.IsGuestWithoutCompany(user.value)
  }

  /** The render: a spinner while loading, nothing for a held-back guest, the page otherwise. */
  function Render(user: Option<AuthContext.User>, isLoading: bool): (view: Ui.View)
    ensures view in {Ui.Spinner, Ui.Nothing, Ui.Children}
    ensures view == Ui.Spinner <==> isLoading
    ensures view == Ui.Nothing <==> HeldBack(user, isLoading)
    ensures view == Ui.Children <==> !isLoading && (user.None? || !AuthContext.IsGuestWithoutCompany(user.value))
  {
    if isLoading then Ui.Spinner
    else if user.Some? && AuthContext.IsGuestWithoutCompany(user.value) then Ui.Nothing
    else Ui.Children
  }

  /** What one run of the effect issues: the push to the pending-company page for a held-back guest. */
  function EffectEvents(user: Option<AuthContext.User>, isLoading: bool): seq<Ui.Effect> {
    if HeldBack(user, isLoading) then [Ui.Effect.Push(AuthContext.PendingCompanyPath)] else []
  }

  /** The effect body. */
  method RunEffect(user: Option<AuthContext.User>, isLoading: bool, log: Ui.EffectLog)
    modifies log
    ensures log.events == old(log.events) + EffectEvents(user, isLoading)
  {
    if !isLoading && user.Some? {
      var u := user.value;
      var isGuestWithoutCompany := u.role == Some("GUEST") && (u.companyId.None? || u.companyId.value == "");
      if isGuestWithoutCompany {
        log.Push(AuthContext.PendingCompanyPath);
        return;
      }
    }
  }

  /** The effect navigates exactly when the render shows nothing, and never while the spinner or the page shows. */
  lemma EffectMatchesRender(user: Option<AuthContext.User>, isLoading: bool)
    ensures EffectEvents(user, isLoading) != [] <==> Render(user, isLoading) == Ui.Nothing
    ensures Ui.PushCount(EffectEvents(user, isLoading)) == (if Render(user, isLoading) == Ui.Nothing then 1 else 0)
  {
    if HeldBack(user, isLoading) {
      assert EffectEvents(user, isLoading)[1..] == [];
    }
  }

  /** Without a user the page shows once loading ends: this wrapper does not require a session. */
  lemma SignedOutSeesPage()
    ensures Render(None, false) == Ui.Children && EffectEvents(None, false) == []
  {
  }

  /**
   * The wrapper and `checkUserStatus` agree: a user the wrapper holds back is one that
   * `checkUserStatus` sends to the pending-company page from anywhere else, and a user whose
   * page shows is never sent there.
   */
  lemma AgreesWithStatusCheck(u: AuthContext.User, currentPath: string)
    ensures HeldBack(Some(u), false) && currentPath != AuthContext.PendingCompanyPath ==>
      AuthContext.StatusRedirect(Some(u), currentPath) == Some(AuthContext.PendingCompanyPath)
    ensures Render(Some(u), false) == Ui.Children ==>
      AuthContext.StatusRedirect(Some(u), currentPath) != Some(AuthContext.PendingCompanyPath)
  {
    AuthContext.StatusRedirectCases(u, currentPath);
  }
}
