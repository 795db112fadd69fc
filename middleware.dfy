/**
 * The decision the admin middleware (middleware.ts) makes on a request's path and the
 * cookies it carries.
 */
module Middleware {
  import Auth

  const ADMIN_SESSION_COOKIE: string := "admin_session"
  const SESSION_TOKEN: string := "authenticated"
  const ADMIN_PREFIX: string := "/admin"
  const LOGIN_PATH: string := "/admin/login"

  /** Let the request through, or redirect it to LOGIN_PATH with `?redirect=<path>`. */
  datatype Decision = Next | RedirectToLogin(redirect: string)

  /** A path the gate guards: anything starting with "/admin" except the login page itself. */
  predicate IsProtected(pathname: string) {
    ADMIN_PREFIX <= pathname && pathname != LOGIN_PATH
  }

  predicate HasSession(cookies: map<string, string>) {
    ADMIN_SESSION_COOKIE in cookies && cookies[ADMIN_SESSION_COOKIE] == SESSION_TOKEN
  }

  function Decide(pathname: string, cookies: map<string, string>): (d: Decision)
    ensures !(ADMIN_PREFIX <= pathname) ==> d == Next
    ensures pathname == LOGIN_PATH ==> d == Next
    ensures d == Next <==> !IsProtected(pathname) || HasSession(cookies)
    ensures d.RedirectToLogin? ==> d == RedirectToLogin(pathname)
  {
    if !(ADMIN_PREFIX <= pathname) then Next
    else if pathname == LOGIN_PATH then Next
    else if ADMIN_SESSION_COOKIE in cookies && cookies[ADMIN_SESSION_COOKIE] == SESSION_TOKEN then Next
    else RedirectToLogin(pathname)
  }

  /** The decision depends on the path and the session cookie only. */
  lemma DependsOnlyOnSessionCookie(pathname: string, a: map<string, string>, b: map<string, string>)
    requires (ADMIN_SESSION_COOKIE in a) == (ADMIN_SESSION_COOKIE in b)
    requires ADMIN_SESSION_COOKIE in a ==> a[ADMIN_SESSION_COOKIE] == b[ADMIN_SESSION_COOKIE]
    ensures Decide(pathname, a) == Decide(pathname, b)
  {
  }

  /** The prefix test also guards paths that merely begin with "/admin". */
  lemma AdministratorIsProtected()
    ensures Decide("/administrator", map[]) == RedirectToLogin("/administrator")
  {
    assert ADMIN_PREFIX <= "/administrator";
  }

  /** The login exemption is an exact match: a trailing slash is guarded. */
  lemma LoginWithSlashIsProtected()
    ensures Decide("/admin/login/", map[]) == RedirectToLogin("/admin/login/")
  {
    assert ADMIN_PREFIX <= "/admin/login/";
  }

  /** The cookie name and token the auth helpers hand out are the ones the gate checks. */
  lemma SameSessionConstants()
    ensures Auth.GetSessionCookieName() == ADMIN_SESSION_COOKIE
    ensures Auth.GetSessionTokenValue() == SESSION_TOKEN
  {
  }

  /** A browser holding the cookie setAdminSession wrote passes the gate on every path. */
  lemma SessionPassesGate(jar: Auth.CookieJar, pathname: string)
    requires jar.IsAuthenticated()
    ensures Decide(pathname, jar.RequestCookies()) == Next
  {
  }

  /**
   * The gate and the `isAuthenticated` helper agree: the cookies a jar sends back pass
   * the gate's session test exactly when the jar is authenticated.
   */
  lemma GateAgreesWithIsAuthenticated(jar: Auth.CookieJar)
    ensures HasSession(jar.RequestCookies()) <==> jar.IsAuthenticated()
  {
  }

  /**
   * A jar that is not authenticated (the session cookie absent, as after
   * clearAdminSession, or holding another value) is redirected on every guarded path.
   */
  lemma UnauthenticatedIsRedirected(jar: Auth.CookieJar, pathname: string)
    requires !jar.IsAuthenticated()
    requires IsProtected(pathname)
    ensures Decide(pathname, jar.RequestCookies()) == RedirectToLogin(pathname)
  {
  }
}
