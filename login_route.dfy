/**
 * `POST /api/auth/login` (app/api/auth/login/route.ts): an ordered chain of checks on the
 * configured password and the request body, ending in the session cookie being set.
 */
module LoginRoute {
  import opened Wrappers
  import Auth

  /** A JSON value as the destructured `password` field can hold it. */
  datatype JsValue = Undefined | Null | Bool(b: bool) | Number(n: int) | Str(s: string) | Composite

  /** JavaScript truthiness (NaN is not modelled: numbers are integers). */
  predicate Truthy(v: JsValue) {
    match v
    case Undefined => false
    case Null => false
    case Bool(b) => b
    case Number(n) => n != 0
    case Str(s) => s != ""
    case Composite => true
  }

  /**
   * The request body: `Malformed` when `request.json()` or the destructuring throws
   * (not JSON, or JSON `null`); otherwise the value of its `password` field.
   */
  datatype LoginRequest = Malformed | Json(password: JsValue)

  datatype Outcome =
    | NotConfigured    // ADMIN_PASSWORD unset or empty
    | PasswordMissing  // falsy password
    | WrongPassword
    | LoggedIn
    | LoginFailed      // exception caught by the handler

  function StatusCode(o: Outcome): int {
    match o
    case NotConfigured => 500
    case PasswordMissing => 400
    case WrongPassword => 401
    case LoggedIn => 200
    case LoginFailed => 500
  }

  predicate Configured(adminPassword: Option<string>) {
    adminPassword.Some? && adminPassword.value != ""
  }

  /**
   * The early returns in order: a body that does not parse, an unset password, a falsy
   * password, a password that does not verify; only `LoggedIn` goes on to set the session.
   */
  function Decide(adminPassword: Option<string>, request: LoginRequest): (o: Outcome)
    ensures o == LoggedIn <==> request.Json? && Configured(adminPassword)
                                && request.password == Str(adminPassword.value)
    ensures !Configured(adminPassword) ==> StatusCode(o) == 500
    ensures request.Malformed? ==> o == LoginFailed
    ensures o == PasswordMissing <==> request.Json? && Configured(adminPassword) && !Truthy(request.password)
    ensures o == WrongPassword <==> request.Json? && Configured(adminPassword) && Truthy(request.password)
                                     && request.password != Str(adminPassword.value)
  {
    match request
    case Malformed => LoginFailed
    case Json(password) =>
      if !Configured(adminPassword) then NotConfigured
      else if !Truthy(password) then PasswordMissing
      // verifyPassword compares with `===`, which no non-string value passes
      else if !(password.Str? && Auth.VerifyPassword(adminPassword, password.s)) then WrongPassword
      else LoggedIn
  }

  /** Unset password: a 500 before the body's password is looked at, never 400 or 401. */
  lemma UnconfiguredNeverChecksPassword(request: LoginRequest)
    ensures Decide(None, request) in {NotConfigured, LoginFailed}
    ensures Decide(Some(""), request) in {NotConfigured, LoginFailed}
  {
  }

  /**
   * The handler: the session cookie is written, with status 200, exactly when the
   * password verifies; on every other outcome the cookie jar is untouched.
   */
  method Post(jar: Auth.CookieJar, adminPassword: Option<string>, production: bool, request: LoginRequest)
    returns (status: int)
    modifies jar
    ensures status == StatusCode(Decide(adminPassword, request))
    ensures status == 200 <==> Decide(adminPassword, request) == LoggedIn
    ensures status == 200 ==>
      && jar.cookies == old(jar.cookies)[Auth.ADMIN_SESSION_COOKIE := Auth.SessionCookie(production)]
      && jar.IsAuthenticated()
    ensures status != 200 ==> jar.cookies == old(jar.cookies)
  {
    var outcome := Decide(adminPassword, request);
    if outcome == LoggedIn {
      jar.SetAdminSession(production);
    }
    status := StatusCode(outcome);
  }
}
