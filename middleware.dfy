/**
 * The route guard that runs before every matched request: it reads the
 * NextAuth session cookie and either lets the request through or
 * redirects it (src/middleware.ts).
 */
module Middleware {
  import opened Options
  import opened Text

  const SessionCookie: string := "next-auth.session-token"
  const SecureSessionCookie: string := "__Secure-next-auth.session-token"

  const DashboardPrefix: string := "/dashboard"
  const LoginPath: string := "/login"
  const RegisterPath: string := "/register"
  const HomePath: string := "/"

  /** `NextResponse.next()` or `NextResponse.redirect(new URL(location, req.url))`. */
  datatype Response = Next | Redirect(location: string)

  /** `req.cookies.get(name)?.value`. */
  function Cookie(cookies: map<string, string>, name: string): (r: Option<string>)
    ensures r.Some? <==> name in cookies
    ensures r.Some? ==> r.value == cookies[name]
  {
    if name in cookies then Some(cookies[name]) else None
  }

  /**
   * The session token: the plain cookie when it holds a non-empty value,
   * otherwise whatever the `__Secure-` cookie holds.
   */
  function Token(cookies: map<string, string>): (t: Option<string>)
    ensures Truthy(Cookie(cookies, SessionCookie)) ==> t == Some(cookies[SessionCookie])
    ensures !Truthy(Cookie(cookies, SessionCookie)) ==> t == Cookie(cookies, SecureSessionCookie)
  {
    OrElse(Cookie(cookies, SessionCookie), Cookie(cookies, SecureSessionCookie))
  }

  /** The request counts as signed in when either cookie holds a non-empty value. */
  lemma SignedInIff(cookies: map<string, string>)
    ensures Truthy(Token(cookies)) <==>
      (SessionCookie in cookies && cookies[SessionCookie] != "") ||
      (SecureSessionCookie in cookies && cookies[SecureSessionCookie] != "")
  {
  }

  predicate IsAuthPage(pathname: string)
  {
    pathname == LoginPath || pathname == RegisterPath
  }

  /**
   * The decision of `middleware`: to the login page when there is no token
   * and the path starts with "/dashboard", home when there is a token and
   * the path is exactly an auth page, and through otherwise.
   */
  function Decide(cookies: map<string, string>, pathname: string): (r: Response)
    ensures r == Redirect(LoginPath) <==> !Truthy(Token(cookies)) && StartsWith(pathname, DashboardPrefix)
    ensures r == Redirect(HomePath) <==> Truthy(Token(cookies)) && IsAuthPage(pathname)
    ensures r.Next? <==>
      !(!Truthy(Token(cookies)) && StartsWith(pathname, DashboardPrefix)) &&
      !(Truthy(Token(cookies)) && IsAuthPage(pathname))
    ensures r.Redirect? ==> r.location == LoginPath || r.location == HomePath
  {
    var token := Token(cookies);
    if !Truthy(token) && StartsWith(pathname, DashboardPrefix) then Redirect(LoginPath)
    else if Truthy(token) && IsAuthPage(pathname) then Redirect(HomePath)
    else Next
  }

  /**
   * The guard matches auth pages exactly: a signed-in request for
   * "/login/x" passes. The matcher (src/middleware.ts:26) never hands
   * such a path to the middleware, so this is a fact about `Decide` alone.
   */
  lemma SubpathOfLoginPasses(cookies: map<string, string>)
    requires Truthy(Token(cookies))
    ensures Decide(cookies, "/login/x") == Next
  {
  }

  /**
   * The dashboard guard is a prefix test: `Decide` guards "/dashboard-old",
   * say, too, while an auth page is never redirected to the login page.
   * The matcher "/dashboard/:path*" (src/middleware.ts:26) does not run
   * the middleware on "/dashboard-old", so there it holds of `Decide` only.
   */
  lemma DashboardPrefixGuarded(cookies: map<string, string>, rest: string)
    requires !Truthy(Token(cookies))
    ensures Decide(cookies, DashboardPrefix + rest) == Redirect(LoginPath)
    ensures Decide(cookies, LoginPath) == Next && Decide(cookies, RegisterPath) == Next
  {
    assert (DashboardPrefix + rest)[..|DashboardPrefix|] == DashboardPrefix;
  }

  /** A request is never bounced in a loop: a redirect target is passed through. */
  lemma RedirectTargetPasses(cookies: map<string, string>, pathname: string)
    requires Decide(cookies, pathname).Redirect?
    ensures Decide(cookies, Decide(cookies, pathname).location) == Next
  {
    assert !StartsWith(LoginPath, DashboardPrefix);
    assert !StartsWith(HomePath, DashboardPrefix);
  }
}
