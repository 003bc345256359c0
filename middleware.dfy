/**
 * The request middleware (middleware.ts): decides, from the request path and the
 * `accessToken` cookie, whether a request goes through or is redirected.
 */
module Middleware {
  import opened Wrappers
  import Text

  datatype Response = Next | Redirect(path: string)

  const LoginPath := "/auth/login"
  const DashboardPath := "/dashboard"

  /** `authRoutes`. */
  function AuthRoutes(): seq<string> { ["/auth/login", "/auth/register"] }

  /** `protectedRoutes.some(route => pathname.startsWith(route))` over `['/dashboard', '/intern']`: a raw prefix test. */
  predicate IsProtected(pathname: string) {
    Text.StartsWith(pathname, "/dashboard") || Text.StartsWith(pathname, "/intern")
  }

  /** `token` is truthy: the cookie is present and not empty. */
  predicate HasToken(token: Option<string>) {
    token.Some? && token.value != ""
  }

  /** `middleware(request)`, with the cookie value (`None` when absent). */
  function Middleware(pathname: string, token: Option<string>): (response: Response)
    ensures response in {Next, Redirect(LoginPath), Redirect(DashboardPath)}
    ensures response == Redirect(DashboardPath) ==> HasToken(token)
    ensures response == Redirect(LoginPath) ==> pathname == "/" || !HasToken(token)
  {
    if pathname == "/" then Redirect(LoginPath)
    else if IsProtected(pathname) && !HasToken(token) then Redirect(LoginPath)
    else if pathname in AuthRoutes() && HasToken(token) then Redirect(DashboardPath)
    else Next
  }

  /** The root path goes to the login page, token or not. */
  lemma RootGoesToLogin(token: Option<string>)
    ensures Middleware("/", token) == Redirect(LoginPath)
  {
  }

  /** A protected path without a usable token goes to the login page. */
  lemma ProtectedWithoutToken(pathname: string, token: Option<string>)
    requires IsProtected(pathname) && !HasToken(token)
    ensures Middleware(pathname, token) == Redirect(LoginPath)
  {
  }

  /** A signed-in visitor on the login or register page goes to `/dashboard`. */
  lemma AuthPageWithToken(pathname: string, token: Option<string>)
    requires pathname in AuthRoutes() && HasToken(token)
    ensures Middleware(pathname, token) == Redirect(DashboardPath)
  {
  }

  /**
   * The whole decision: redirected to login exactly for the root or a tokenless protected path,
   * to the dashboard exactly for a signed-in visit to an auth page, and passed on otherwise.
   */
  lemma Decision(pathname: string, token: Option<string>)
    ensures Middleware(pathname, token) == Redirect(LoginPath) <==>
      pathname == "/" || (IsProtected(pathname) && !HasToken(token))
    ensures Middleware(pathname, token) == Redirect(DashboardPath) <==>
      pathname in AuthRoutes() && HasToken(token)
    ensures Middleware(pathname, token) == Next <==>
      pathname != "/" && !(IsProtected(pathname) && !HasToken(token)) && !(pathname in AuthRoutes() && HasToken(token))
  {
    AuthRoutesNotProtected();
  }

  /** The two rule sets do not overlap: no auth page is a protected path. */
  lemma AuthRoutesNotProtected()
    ensures forall pathname :: pathname in AuthRoutes() ==> !IsProtected(pathname)
  {
    assert "/auth/login"[1] != "/dashboard"[1] && "/auth/login"[1] != "/intern"[1];
    assert "/auth/register"[1] != "/dashboard"[1] && "/auth/register"[1] != "/intern"[1];
  }

  /** The prefix test is not a path-segment test: `/internal` and `/dashboard-old` count as protected. */
  lemma PrefixNotSegment()
    ensures IsProtected("/internal") && IsProtected("/dashboard-old")
    ensures Middleware("/internal", None) == Redirect(LoginPath)
  {
    assert "/intern" <= "/internal";
    assert "/dashboard" <= "/dashboard-old";
  }

  /** An empty cookie counts as no cookie. */
  lemma EmptyTokenIsNoToken(pathname: string)
    ensures Middleware(pathname, Some("")) == Middleware(pathname, None)
  {
  }

  /**
   * `config.matcher`: the paths the middleware runs on, `/dashboard` and `/intern` with any
   * sub-path, and the two auth pages.
   */
  predicate Matched(pathname: string) {
    pathname == "/dashboard" || Text.StartsWith(pathname, "/dashboard/")
    || pathname == "/intern" || Text.StartsWith(pathname, "/intern/")
    || pathname in AuthRoutes()
  }

  /** Every matched path that is not an auth page is protected, and the root is not matched at all. */
  lemma MatchedPaths(pathname: string)
    requires Matched(pathname)
    ensures pathname in AuthRoutes() || IsProtected(pathname)
    ensures pathname != "/"
  {
    if Text.StartsWith(pathname, "/dashboard/") {
      assert pathname[..10] == "/dashboard/"[..10];
    }
    if Text.StartsWith(pathname, "/intern/") {
      assert pathname[..7] == "/intern/"[..7];
    }
  }

  /** On the paths it runs on, the middleware redirects exactly a tokenless protected visit and a signed-in auth-page visit. */
  lemma MatchedDecision(pathname: string, token: Option<string>)
    requires Matched(pathname)
    ensures Middleware(pathname, token) == Redirect(LoginPath) <==> pathname !in AuthRoutes() && !HasToken(token)
    ensures Middleware(pathname, token) == Redirect(DashboardPath) <==> pathname in AuthRoutes() && HasToken(token)
  {
    MatchedPaths(pathname);
    AuthRoutesNotProtected();
    Decision(pathname, token);
  }
}
