/** The route guard of middleware.ts: a decision on the `user_id` cookie and the
    request path. */
module Middleware {
  import opened Common

  datatype Response = Next | Redirect(location: string)

  predicate StartsWith(s: string, prefix: string) {
    |prefix| <= |s| && s[..|prefix|] == prefix
  }

  /** A cookie counts only when it is present and non-empty. */
  predicate LoggedIn(cookie: Option<string>) {
    cookie.Some? && cookie.value != ""
  }

  predicate AuthPage(path: string) {
    path == "/login" || path == "/signup"
  }

  /** `middleware(request)`. */
  function Guard(cookie: Option<string>, path: string): (r: Response)
    ensures r == Redirect("/dashboard") <==> LoggedIn(cookie) && AuthPage(path)
    ensures r == Redirect("/login") <==> !LoggedIn(cookie) && StartsWith(path, "/dashboard")
    ensures r == Next <==> !(LoggedIn(cookie) && AuthPage(path)) && !(!LoggedIn(cookie) && StartsWith(path, "/dashboard"))
  {
    if LoggedIn(cookie) && AuthPage(path) then Redirect("/dashboard")
    else if !LoggedIn(cookie) && StartsWith(path, "/dashboard") then Redirect("/login")
    else Next
  }

  /** `matcher: ["/dashboard/:path*", "/login", "/signup"]`: `/dashboard` itself and
      every path below it, and the two auth pages. */
  predicate Matched(path: string) {
    path == "/dashboard" || StartsWith(path, "/dashboard/") || AuthPage(path)
  }

  /** What a request receives: the guard runs only on matched paths. */
  function Route(cookie: Option<string>, path: string): (r: Response)
    ensures !Matched(path) ==> r == Next
    ensures Matched(path) ==> r == Guard(cookie, path)
  {
    if Matched(path) then Guard(cookie, path) else Next
  }

  /** A signed-in visitor is never sent to the login page, and a signed-out one is
      never sent to the dashboard. */
  lemma RedirectsExclusive(cookie: Option<string>, path: string)
    ensures LoggedIn(cookie) ==> Route(cookie, path) != Redirect("/login")
    ensures !LoggedIn(cookie) ==> Route(cookie, path) != Redirect("/dashboard")
  {
  }

  /** The middleware never redirects to a path it would itself redirect for the
      same cookie. */
  lemma RedirectTargetServed(cookie: Option<string>, path: string)
    ensures Route(cookie, path).Redirect? ==> Route(cookie, Route(cookie, path).location) == Next
  {
    if Route(cookie, path) == Redirect("/dashboard") {
      assert !AuthPage("/dashboard");
    } else if Route(cookie, path) == Redirect("/login") {
      assert !StartsWith("/login", "/dashboard");
    }
  }

  /** Every page below the dashboard is guarded; a path that merely begins with the
      same letters, like "/dashboards", is not. */
  lemma GuardedPaths(cookie: Option<string>, rest: string)
    requires !LoggedIn(cookie)
    ensures Route(cookie, "/dashboard/" + rest) == Redirect("/login")
    ensures Route(cookie, "/dashboards") == Next
  {
    var p := "/dashboard/" + rest;
    assert p[..11] == "/dashboard/";
    assert p[..10] == "/dashboard";
    assert "/dashboards"[..10] == "/dashboard";
    assert "/dashboards"[10] != "/dashboard/"[10];
  }
}
