/** The client-side authentication predicate and the Next.js middleware's
    routing decision, from the request path and the `token` cookie. */
module RouteGuard {
  import opened Wrappers
  import Text

  /** `isAuthenticated`: a stored token is present and non-empty. */
  function IsAuthenticated(stored: Option<string>): (b: bool)
    ensures b <==> stored.Some? && |stored.value| > 0
    ensures b == Text.Truthy(stored)
  {
    match stored
    case None => false
    case Some(t) => t != ""
  }

  const ProtectedRoutes: seq<string> := ["/admin"]
  const AuthRoutes: seq<string> := ["/login"]

  /** Some route of the list is a prefix of the path. */
  function SomeStartsWith(routes: seq<string>, pathname: string): (b: bool)
    ensures b <==> exists i :: 0 <= i < |routes| && Text.StartsWith(pathname, routes[i])
  {
    if routes == [] then false
    else Text.StartsWith(pathname, routes[0]) || SomeStartsWith(routes[1..], pathname)
  }

  /** What the middleware answers with. */
  datatype Decision = RedirectToLogin | RedirectToAdmin | Pass

  /** `middleware(request)`: `token` is the cookie's value, if the cookie is set. */
  function Middleware(pathname: string, token: Option<string>): (d: Decision)
    ensures d == RedirectToLogin <==> Text.StartsWith(pathname, "/admin") && !Text.Truthy(token)
    ensures d == RedirectToAdmin <==> Text.StartsWith(pathname, "/login") && Text.Truthy(token)
    ensures d == Pass <==>
      !(Text.StartsWith(pathname, "/admin") && !Text.Truthy(token)) &&
      !(Text.StartsWith(pathname, "/login") && Text.Truthy(token))
  {
    var isProtectedRoute := SomeStartsWith(ProtectedRoutes, pathname);
    var isAuthRoute := SomeStartsWith(AuthRoutes, pathname);
    assert isProtectedRoute == Text.StartsWith(pathname, "/admin");
    assert isAuthRoute == Text.StartsWith(pathname, "/login");
    if isProtectedRoute && !Text.Truthy(token) then RedirectToLogin
    else if isAuthRoute && Text.Truthy(token) then RedirectToAdmin
    else Pass
  }

  /** No path starts with both "/admin" and "/login", so the two redirect
      rules never compete and their order in the middleware does not matter. */
  lemma RedirectRulesExclusive(pathname: string)
    ensures !(Text.StartsWith(pathname, "/admin") && Text.StartsWith(pathname, "/login"))
  {
    if Text.StartsWith(pathname, "/admin") {
      assert pathname[1] == "/admin"[1] == 'a';
    }
  }

  /** `startsWith` is a plain prefix test: look-alike paths are guarded too. */
  lemma LookAlikePathsAreGuarded()
    ensures Middleware("/administrator", None) == RedirectToLogin
    ensures Middleware("/administrator", Some("")) == RedirectToLogin
    ensures Middleware("/login-help", Some("abc")) == RedirectToAdmin
  {
    assert "/admin" <= "/administrator";
    assert "/login" <= "/login-help";
  }
}
