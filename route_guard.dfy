/** The route guard that runs before every page request (app/middleware.ts):
    it decides from the request path, the `token` cookie and the
    `authorization` header whether to redirect to the login page, redirect to
    the dashboard, or let the request through. */
module RouteGuard {
  import opened Js

  /** The three answers of the guard. */
  datatype Decision = RedirectToLogin | RedirectToDashboard | Next

  const LoginPath: string := "/login"
  const DashboardPath: string := "/dashboard"

  /** Routes that need no authentication, recognised by prefix. */
  const PublicRoutes: seq<string> := ["/login", "/register"]

  /** The page of one document. */
  function DocumentPath(id: string): (p: string)
    ensures StartsWith(p, "/dashboard/document/") && p[|"/dashboard/document/"|..] == id
  {
    "/dashboard/document/" + id
  }

  /** `routes.some(route => pathname.startsWith(route))` */
  function SomePrefix(routes: seq<string>, pathname: string): (r: bool)
    ensures r <==> exists i :: 0 <= i < |routes| && StartsWith(pathname, routes[i])
  {
    if routes == [] then false
    else if StartsWith(pathname, routes[0]) then true
    else
      var rest := SomePrefix(routes[1..], pathname);
      assert forall i :: 1 <= i < |routes| ==> routes[i] == routes[1..][i - 1];
      rest
  }

  predicate IsPublicRoute(pathname: string)
  {
    SomePrefix(PublicRoutes, pathname)
  }

  /** A path is public exactly when it starts with "/login" or "/register";
      since this is a prefix test, "/registered" and "/login-help" are public too. */
  lemma PublicRouteByPrefix(pathname: string)
    ensures IsPublicRoute(pathname) <==> StartsWith(pathname, "/login") || StartsWith(pathname, "/register")
  {
    assert PublicRoutes[0] == "/login" && PublicRoutes[1] == "/register";
  }

  lemma PrefixTestExamples()
    ensures IsPublicRoute("/registered")
    ensures IsPublicRoute(LoginPath)
    ensures !IsPublicRoute(DashboardPath)
    ensures !IsPublicRoute("/")
  {
    PublicRouteByPrefix("/registered");
    assert "/registered"[..|"/register"|] == "/register";
    PublicRouteByPrefix(LoginPath);
    assert LoginPath[..|"/login"|] == "/login";
    PublicRouteByPrefix(DashboardPath);
    assert DashboardPath[..|"/login"|] != "/login" by { assert DashboardPath[1] != "/login"[1]; }
    assert DashboardPath[..|"/register"|] != "/register" by { assert DashboardPath[1] != "/register"[1]; }
    PublicRouteByPrefix("/");
  }

  /** The guard. `cookieToken` is the value of the `token` cookie and
      `authorization` the `authorization` request header, each absent when
      the request has none. */
  function Middleware(pathname: string, cookieToken: Option<string>, authorization: Option<string>): (d: Decision)
    ensures d == RedirectToLogin <==>
      !IsPublicRoute(pathname) && !Truthy(cookieToken) && !Truthy(authorization)
    ensures d == RedirectToDashboard <==> IsPublicRoute(pathname) && Truthy(cookieToken)
    ensures d == Next <==>
      (IsPublicRoute(pathname) && !Truthy(cookieToken)) ||
      (!IsPublicRoute(pathname) && (Truthy(cookieToken) || Truthy(authorization)))
  {
    var isPublic := IsPublicRoute(pathname);
    if !isPublic && !Truthy(cookieToken) && !Truthy(authorization) then
      RedirectToLogin
    else if isPublic && Truthy(cookieToken) then
      RedirectToDashboard
    else
      Next
  }

  /** Where a redirect sends the browser: to the public login page, or to the
      protected dashboard. */
  function Target(d: Decision): (t: string)
    requires d != Next
    ensures d == RedirectToLogin ==> t == LoginPath && IsPublicRoute(t)
    ensures d == RedirectToDashboard ==> t == DashboardPath && !IsPublicRoute(t)
  {
    PrefixTestExamples();
    if d == RedirectToLogin then LoginPath else DashboardPath
  }

  /** The guard never loops: the request a redirect produces, carrying the same
      cookie and header, is let through. */
  lemma NoRedirectLoop(pathname: string, cookieToken: Option<string>, authorization: Option<string>)
    requires Middleware(pathname, cookieToken, authorization) != Next
    ensures Middleware(Target(Middleware(pathname, cookieToken, authorization)), cookieToken, authorization) == Next
  {
  }

  /** The cookie alone decides for public routes; the header is only consulted
      for protected routes without a cookie. */
  lemma HeaderOnlyMattersWithoutCookie(pathname: string, cookieToken: Option<string>, a1: Option<string>, a2: Option<string>)
    requires IsPublicRoute(pathname) || Truthy(cookieToken)
    ensures Middleware(pathname, cookieToken, a1) == Middleware(pathname, cookieToken, a2)
  {
  }
}
