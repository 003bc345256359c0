/**
 * The session state the dashboard shares through React context (src/contexts/AuthContext.tsx):
 * the signed-in user, the loading flag, where a login or a status check sends the user, and
 * what logging out resets.
 */
module AuthContext {
  import opened Wrappers
  import Ui

  /**
   * The user record the backend returns. `companyId` and `role` may be missing at run time
   * (the code tests them for falsiness), so both are optional; `Some("")` is the empty string.
   */
  datatype User = User(id: string, name: string, email: string, companyId: Option<string>, role: Option<string>)

  const PendingCompanyPath := "/intern/pending-company"
  const DashboardPath := "/intern/dashboard"
  const LoginPath := "/auth/login"

  /** `!companyId || companyId === ''`: no company id, or an empty one. */
  predicate LacksCompany(u: User) {
    u.companyId == None || u.companyId == Some("")
  }

  /** `role === 'GUEST' && (!companyId || companyId === '')`. */
  predicate IsGuestWithoutCompany(u: User) {
    u.role == Some("GUEST") && LacksCompany(u)
  }

  /** `isAuthenticated = !!user`. */
  predicate IsAuthenticated(user: Option<User>) {
    user.Some?
  }

  /** Where `login` sends the user, decided on the login response's user record. */
  function LoginTarget(u: User): (path: string)
    ensures path == PendingCompanyPath <==> IsGuestWithoutCompany(u)
    ensures path == DashboardPath <==> !IsGuestWithoutCompany(u)
  {
    if IsGuestWithoutCompany(u) then PendingCompanyPath else DashboardPath
  }

  /** The navigation `checkUserStatus` performs from `currentPath`, if any. */
  function StatusRedirect(user: Option<User>, currentPath: string): (target: Option<string>)
    ensures target.Some? ==> user.Some? && target.value == LoginTarget(user.value)
    ensures target.Some? ==> target.value != currentPath
  {
    match user
    case None => None
    case Some(u) =>
      if IsGuestWithoutCompany(u) && currentPath != PendingCompanyPath then Some(PendingCompanyPath)
      else if !IsGuestWithoutCompany(u) && currentPath == PendingCompanyPath then Some(DashboardPath)
      else None
  }

  /** Without a user, `checkUserStatus` never navigates. */
  lemma NoUserNoRedirect(currentPath: string)
    ensures StatusRedirect(None, currentPath) == None
  {
  }

  /**
   * With a user: a guest without a company is sent to the pending page unless already there;
   * anyone else on the pending page is sent to the dashboard; nobody else is moved.
   */
  lemma StatusRedirectCases(u: User, currentPath: string)
    ensures StatusRedirect(Some(u), currentPath) == Some(PendingCompanyPath) <==>
      IsGuestWithoutCompany(u) && currentPath != PendingCompanyPath
    ensures StatusRedirect(Some(u), currentPath) == Some(DashboardPath) <==>
      !IsGuestWithoutCompany(u) && currentPath == PendingCompanyPath
    ensures StatusRedirect(Some(u), currentPath) == None <==>
      (IsGuestWithoutCompany(u) <==> currentPath == PendingCompanyPath)
  {
  }

  /** Following a status redirect leads to a page where the status check is quiet. */
  lemma StatusRedirectSettles(user: Option<User>, currentPath: string)
    ensures match StatusRedirect(user, currentPath)
      case None => true
      case Some(target) => StatusRedirect(user, target) == None
  {
  }

  /** The page a login lands on is one the status check leaves alone, for the same user. */
  lemma LoginTargetIsSettled(u: User)
    ensures StatusRedirect(Some(u), LoginTarget(u)) == None
  {
  }

  /** What the login request and the follow-up `getMe` produce. */
  datatype LoginResult =
    | LoggedIn(responseUser: User, fetchedUser: User)
    | LoginFailed(serverMessage: Option<string>)

  /** The error text `login` reports: the server's message when it is a non-empty string. */
  function LoginErrorMessage(serverMessage: Option<string>): (message: string)
    ensures message != ""
    ensures serverMessage.Some? && serverMessage.value != "" ==> message == serverMessage.value
    ensures serverMessage.None? || serverMessage.value == "" ==> message == "Erro ao fazer login"
  {
    match serverMessage
    case Some(m) => if m != "" then m else "Erro ao fazer login"
    case None => "Erro ao fazer login"
  }

  /** The toasts and navigations `login` issues for a result, in order. */
  function LoginEffects(result: LoginResult): seq<Ui.Effect> {
    match result
    case LoggedIn(responseUser, _) =>
      [Ui.Effect.Toast(Ui.SuccessToast, "Login realizado com sucesso!", None), Ui.Effect.Push(LoginTarget(responseUser))]
    case LoginFailed(serverMessage) =>
      [Ui.Effect.Toast(Ui.ErrorToast, LoginErrorMessage(serverMessage), None)]
  }

  /** A successful login announces itself and then navigates once; a failed one only reports the error. */
  lemma LoginEffectsShape(result: LoginResult)
    ensures Ui.PushCount(LoginEffects(result)) == (if result.LoggedIn? then 1 else 0)
    ensures Ui.ToastCount(LoginEffects(result)) == 1
    ensures LoginEffects(result)[0].Toast?
    ensures result.LoggedIn? ==> LoginEffects(result)[0].level == Ui.SuccessToast
    ensures result.LoginFailed? ==> LoginEffects(result)[0].level == Ui.ErrorToast
  {
    var es := LoginEffects(result);
    if result.LoggedIn? {
      assert es[1..] == [es[1]] && es[1..][1..] == [];
      assert Ui.PushCount(es[1..]) == 1 && Ui.ToastCount(es[1..]) == 0;
    } else {
      assert es[1..] == [];
    }
  }

  /** `AuthProvider`'s state: `user` and `isLoading`. */
  class AuthProvider {
    var user: Option<User>
    var isLoading: bool

    /** `useState<User | null>(null)` and `useState(true)`. */
    constructor ()
      ensures user == None && isLoading
    {
      user := None;
      isLoading := true;
    }

    predicate Authenticated()
      reads this
    {
      IsAuthenticated(user)
    }

    /**
     * `login` once its requests have settled. On success `getMe` stores the fetched user, a
     * success toast follows, and the navigation is chosen from the login response's user; on
     * failure the user is left as it was and the error is reported (the code then rethrows).
     */
    method Login(result: LoginResult, log: Ui.EffectLog) returns (failure: Option<string>)
      modifies this, log
      ensures isLoading == old(isLoading)
      ensures result.LoggedIn? ==> user == Some(result.fetchedUser) && failure == None
      ensures result.LoginFailed? ==> user == old(user) && failure == Some(LoginErrorMessage(result.serverMessage))
      ensures log.events == old(log.events) + LoginEffects(result)
    {
      match result {
        case LoggedIn(responseUser, fetchedUser) =>
          user := Some(fetchedUser);
          log.Toast(Ui.SuccessToast, "Login realizado com sucesso!", None);
          if IsGuestWithoutCompany(responseUser) {
            log.Push(PendingCompanyPath);
          } else {
            log.Push(DashboardPath);
          }
          failure := None;
        case LoginFailed(serverMessage) =>
          var message := LoginErrorMessage(serverMessage);
          log.Toast(Ui.ErrorToast, message, None);
          failure := Some(message);
      }
    }

    /** `checkUserStatus()` run on the page `currentPath`. */
    method CheckUserStatus(currentPath: string, log: Ui.EffectLog)
      modifies log
      ensures log.events == old(log.events) +
        match StatusRedirect(user, currentPath)
        case None => []
        case Some(target) => [Ui.Effect.Push(target)]
    {
      if user.Some? {
        var guestWithoutCompany := IsGuestWithoutCompany(user.value);
        if guestWithoutCompany && currentPath != PendingCompanyPath {
          log.Push(PendingCompanyPath);
        } else if !guestWithoutCompany && currentPath == PendingCompanyPath {
          log.Push(DashboardPath);
        }
      }
    }

    /** `logout()`: forget the user, go to the login page, announce it. */
    method Logout(log: Ui.EffectLog)
      modifies this, log
      ensures user == None && !Authenticated()
      ensures isLoading == old(isLoading)
      ensures log.events == old(log.events) +
        [Ui.Effect.Push(LoginPath), Ui.Effect.Toast(Ui.InfoToast, "Logout realizado com sucesso!", None)]
    {
      user := None;
      log.Push(LoginPath);
      log.Toast(Ui.InfoToast, "Logout realizado com sucesso!", None);
    }
  }
}
