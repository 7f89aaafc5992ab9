/** The authentication middleware: which paths are public, and the
    redirect-or-continue decision given whether a session token is present.
 */
module Middleware {
  import opened Js

  predicate IsPublicPath(path: string) {
    path == "/login" || path == "/" || path == "/demo" || StartsWith(path, "/api/")
  }

  datatype Decision = Next | Redirect(location: string)

  function Decide(path: string, hasToken: bool): (d: Decision)
    ensures d == Redirect("/login") <==> !IsPublicPath(path) && !hasToken
    ensures d == Redirect("/dashboard") <==> path == "/login" && hasToken
    ensures d == Next <==> (IsPublicPath(path) && !(path == "/login" && hasToken)) || (!IsPublicPath(path) && hasToken)
  {
    if !IsPublicPath(path) && !hasToken then Redirect("/login")
    else if IsPublicPath(path) && path == "/login" && hasToken then Redirect("/dashboard")
    else Next
  }

  /** The `matcher` of the middleware configuration: `/dashboard/:path*`
      (the page itself or any path below it) and `/login`. */
  predicate Matched(path: string) {
    path == "/login" || path == "/dashboard" || StartsWith(path, "/dashboard/")
  }

  /** A request as the framework handles it: the middleware runs only on
      matched paths; every other request continues. */
  function Handle(path: string, hasToken: bool): (d: Decision)
    ensures !Matched(path) ==> d == Next
  {
    if Matched(path) then Decide(path, hasToken) else Next
  }

  /** A public path is never sent to the login page. */
  lemma PublicNeverToLogin(path: string, hasToken: bool)
    requires IsPublicPath(path)
    ensures Handle(path, hasToken) != Redirect("/login")
  {
  }

  /** On the paths it runs on, the middleware sends the dashboard to login
      without a token and login to the dashboard with one. */
  lemma MatchedPathDecisions(path: string, hasToken: bool)
    requires Matched(path)
    ensures Handle(path, hasToken) == Redirect("/login") <==> path != "/login" && !hasToken
    ensures Handle(path, hasToken) == Redirect("/dashboard") <==> path == "/login" && hasToken
    ensures Handle(path, hasToken) == Next <==> (path == "/login") != hasToken
  {
    if path != "/login" {
      assert path == "/dashboard" || path[..11] == "/dashboard/";
      assert path[..5][1] == 'd';
    }
  }

  /** A non-public path outside the matcher, such as `/settings`, is never
      redirected: the matcher is narrower than the public-path test. */
  lemma UnmatchedPathUnguarded()
    ensures Decide("/settings", false) == Redirect("/login")
    ensures Handle("/settings", false) == Next
  {
    assert "/settings"[..5][1] == 's';
    assert !StartsWith("/settings", "/dashboard/");
  }
}
