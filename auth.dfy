/**
 * Password check and admin session cookie (lib/auth.ts). The response cookie store
 * of the request is a `CookieJar` object whose map the session helpers update in place;
 * `ADMIN_PASSWORD` is passed in as an optional string.
 */
module Auth {
  import opened Wrappers

  const ADMIN_SESSION_COOKIE: string := "admin_session"
  const SESSION_TOKEN: string := "authenticated"
  /** 24 hours, in seconds. */
  const SESSION_MAX_AGE: nat := 60 * 60 * 24

  /**
   * False whenever `ADMIN_PASSWORD` is unset or empty, whatever the input; otherwise
   * true exactly when the input equals it. So the empty password never verifies.
   */
  function VerifyPassword(adminPassword: Option<string>, password: string): (ok: bool)
    ensures ok <==> adminPassword == Some(password) && password != ""
  {
    if adminPassword.None? || adminPassword.value == "" then false
    else password == adminPassword.value
  }

  function GetSessionCookieName(): string {
    ADMIN_SESSION_COOKIE
  }

  function GetSessionTokenValue(): string {
    SESSION_TOKEN
  }

  datatype SameSite = Lax | Strict | NoRestriction

  /** A cookie as the store keeps it: its value and the attributes it was set with. */
  datatype Cookie = Cookie(value: string, httpOnly: bool, secure: bool, sameSite: SameSite, maxAge: nat, path: string)

  /** The cookie setAdminSession writes; `production` is `NODE_ENV === 'production'`. */
  function SessionCookie(production: bool): (c: Cookie)
    ensures c.value == SESSION_TOKEN && c.httpOnly && c.secure == production
  {
    Cookie(SESSION_TOKEN, true, production, Lax, SESSION_MAX_AGE, "/")
  }

  class CookieJar {
    var cookies: map<string, Cookie>

    constructor (initial: map<string, Cookie>)
      ensures cookies == initial
    {
      cookies := initial;
    }

    /** isAuthenticated: the session cookie is present and holds the token. */
    function IsAuthenticated(): bool
      reads this
    {
      ADMIN_SESSION_COOKIE in cookies && cookies[ADMIN_SESSION_COOKIE].value == SESSION_TOKEN
    }

    /** The name/value pairs a later request carries back to the server. */
    function RequestCookies(): map<string, string>
      reads this
    {
      map name | name in cookies :: cookies[name].value
    }

    /** Writes the session cookie; every other cookie is kept, and the jar is then authenticated. */
    method SetAdminSession(production: bool)
      modifies this
      ensures cookies == old(cookies)[ADMIN_SESSION_COOKIE := SessionCookie(production)]
      ensures IsAuthenticated()
    {
      cookies := cookies[ADMIN_SESSION_COOKIE := SessionCookie(production)];
    }

    /** Deletes the session cookie; every other cookie is kept, and the jar is then not authenticated. */
    method ClearAdminSession()
      modifies this
      ensures cookies == old(cookies) - {ADMIN_SESSION_COOKIE}
      ensures !IsAuthenticated()
    {
      cookies := cookies - {ADMIN_SESSION_COOKIE};
    }
  }
}
