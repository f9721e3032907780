/** The edge middleware: a dashboard page without a session token is redirected to the login
    page, which is told where to come back to; the login page with a token is redirected to
    the dashboard; everything else passes. Redirect targets are built on an allowed origin. */
module Middleware {
  import opened Common
  import opened UrlEncoding
  import opened Http
  import opened Origins

  const ProtectedRoutes: seq<string> := ["/dashboard"]

  /** `/register` is deliberately not an auth route: a stale token there would bounce a new
      user through the dashboard back to the login page. */
  const AuthRoutes: seq<string> := ["/login"]

  /** A request as the middleware sees it: its path, its `token` cookie, its headers. */
  datatype Request = Request(pathname: string, token: Option<string>, headers: Headers)

  /** `/^(localhost|0\.0\.0\.0)(:|$)/`: a local development host, with or without a port. */
  predicate IsLocalDevHost(host: string) {
    (StartsWith(host, "localhost") && (|host| == 9 || host[9] == ':')) ||
    (StartsWith(host, "0.0.0.0") && (|host| == 7 || host[7] == ':'))
  }

  /** The scheme used when no `X-Forwarded-Proto` is given. */
  function DefaultProto(host: Option<string>): string {
    if host.Some? && IsLocalDevHost(host.value) then "http" else "https"
  }

  function HeaderOrigin(h: Headers): Option<string> {
    var host := Or(h.forwardedHost, h.host);
    var proto := if Truthy(h.forwardedProto) then h.forwardedProto.value else DefaultProto(host);
    if Truthy(host) then Some(proto + "://" + host.value) else None
  }

  /** `getOrigin`: the origin the headers name when it is allowed, else the production origin;
      the result is always an allowed origin. */
  function GetOrigin(h: Headers): (r: string)
    ensures r in AllowedOrigins
    ensures HeaderOrigin(h).Some? && HeaderOrigin(h).value in AllowedOrigins ==> r == HeaderOrigin(h).value
    ensures HeaderOrigin(h).None? || HeaderOrigin(h).value !in AllowedOrigins ==> r == ProductionOrigin
  {
    var candidate := HeaderOrigin(h);
    if candidate.Some? && candidate.value in AllowedOrigins then candidate.value else ProductionOrigin
  }

  predicate IsProtectedRoute(pathname: string) {
    exists i :: 0 <= i < |ProtectedRoutes| && StartsWith(pathname, ProtectedRoutes[i])
  }

  predicate IsAuthRoute(pathname: string) {
    exists i :: 0 <= i < |AuthRoutes| && StartsWith(pathname, AuthRoutes[i])
  }

  /** The login page, told to return to `pathname` after signing in. */
  function LoginUrl(origin: string, pathname: string): string {
    origin + "/login?" + Serialize([("redirect", pathname)])
  }

  /** What the middleware answers. */
  function Decide(req: Request): (r: Response)
    ensures r.Redirect? || r.Next?
    ensures r.Redirect? ==> r.status == 302 && r.cookies == map[]
    ensures IsProtectedRoute(req.pathname) && !Truthy(req.token) ==>
      r.Redirect? && r.location == LoginUrl(GetOrigin(req.headers), req.pathname)
    ensures IsAuthRoute(req.pathname) && Truthy(req.token) ==>
      r.Redirect? && r.location == GetOrigin(req.headers) + "/dashboard"
    ensures r.Next? <==> !(IsProtectedRoute(req.pathname) && !Truthy(req.token)) &&
                         !(IsAuthRoute(req.pathname) && Truthy(req.token))
  {
    if IsProtectedRoute(req.pathname) && !Truthy(req.token) then
      Redirect(302, LoginUrl(GetOrigin(req.headers), req.pathname), map[])
    else if IsAuthRoute(req.pathname) && Truthy(req.token) then
      Redirect(302, GetOrigin(req.headers) + "/dashboard", map[])
    else
      Next
  }

  /** `config.matcher`: `/dashboard`, anything below it, and `/login`. */
  predicate Matches(pathname: string) {
    pathname == "/dashboard" || StartsWith(pathname, "/dashboard/") || pathname == "/login"
  }

  /** The answer to any request: paths outside the matcher never reach the middleware. */
  function Handle(req: Request): (r: Response)
    ensures !Matches(req.pathname) ==> r.Next?
    ensures Matches(req.pathname) ==> r == Decide(req)
  {
    if Matches(req.pathname) then Decide(req) else Next
  }

  // ---------------------------------------------------------------- properties

  /** Among the paths the matcher lets through, the dashboard paths are exactly the protected
      ones and `/login` is the only auth route; no path is both. */
  lemma MatchedRoutes(pathname: string)
    requires Matches(pathname)
    ensures IsProtectedRoute(pathname) <==> StartsWith(pathname, "/dashboard")
    ensures IsAuthRoute(pathname) <==> pathname == "/login"
    ensures !(IsProtectedRoute(pathname) && IsAuthRoute(pathname))
  {
    if StartsWith(pathname, "/dashboard/") {
      StartsWithTransitive(pathname, "/dashboard/", "/dashboard");
    }
    if StartsWith(pathname, "/dashboard") {
      assert StartsWith(pathname, ProtectedRoutes[0]);
      assert pathname[1] == 'd';
      assert !StartsWith(pathname, AuthRoutes[0]);
    } else {
      assert pathname == "/login";
      assert StartsWith(pathname, AuthRoutes[0]);
    }
  }

  /** The login page reads back, in its `redirect` parameter, exactly the path that was asked for. */
  lemma RedirectParamRoundTrip(origin: string, pathname: string)
    requires origin in AllowedOrigins
    ensures QueryGet(QueryOf(LoginUrl(origin, pathname)), "redirect") == Some(pathname)
  {
    var pairs := [("redirect", pathname)];
    AllowedOriginsHaveNoQuery(origin);
    assert LoginUrl(origin, pathname) == (origin + "/login") + "?" + Serialize(pairs);
    QueryOfConcat(origin + "/login", Serialize(pairs));
    ParseSerialize(pairs);
    LookupFirst(pairs, "redirect", 0);
  }

  /** The redirect it issues is not redirected again when followed with the same cookie: the
      middleware never starts a loop. */
  lemma NoRedirectLoop(req: Request)
    requires Matches(req.pathname)
    ensures var r := Decide(req);
      r.Redirect? ==>
        var target := if Truthy(req.token) then "/dashboard" else "/login";
        Decide(Request(target, req.token, req.headers)).Next?
  {
    MatchedRoutes(req.pathname);
    MatchedRoutes("/dashboard");
    MatchedRoutes("/login");
  }

  /** Without `X-Forwarded-Proto`, the scheme follows the host: plain HTTP for a local
      development host, HTTPS for any other. */
  lemma DefaultSchemeByHost(h: Headers)
    requires !Truthy(h.forwardedProto) && Truthy(Or(h.forwardedHost, h.host))
    ensures var host := Or(h.forwardedHost, h.host).value;
      HeaderOrigin(h) == Some((if IsLocalDevHost(host) then "http://" else "https://") + host)
  {
    var host := Or(h.forwardedHost, h.host).value;
    assert DefaultProto(Some(host)) + "://" + host ==
           (if IsLocalDevHost(host) then "http://" else "https://") + host;
  }

  /** A local development server on port 3000, reached without a forwarded scheme, is given
      its own plain-HTTP origin. */
  lemma LocalDevOrigin(h: Headers)
    requires !Truthy(h.forwardedProto) && Or(h.forwardedHost, h.host) == Some("localhost:3000")
    ensures GetOrigin(h) == "http://localhost:3000"
  {
    assert IsLocalDevHost("localhost:3000");
    DefaultSchemeByHost(h);
    assert "http://" + "localhost:3000" == "http://localhost:3000";
    assert "http://localhost:3000" in AllowedOrigins;
  }
}
