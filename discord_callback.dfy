/** `GET /api/auth/discord/callback`: where Discord sends the browser back. The handler checks
    the provider error, the presence of `code` and `state`, and the state against the state
    cookie, in that order. Only then does it exchange the code with the backend. Every answer
    is a redirect that clears both flow cookies. A successful one also sets the session token
    and can resume a checkout for the tier kept in the tier cookie. The backend's answer is an
    input. */
module DiscordCallback {
  import opened Common
  import opened Utf8
  import opened UrlEncoding
  import opened Http
  import opened Tiers
  import opened Origins
  import opened DiscordEnv

  const DefaultApiServerUrl: string := "http://owls-insight-api-server"
  const SessionMaxAge: int := 7 * 24 * 60 * 60

  // ---------------------------------------------------------------- origin

  predicate EndsAuthority(c: char) { c in "/?#\\" }

  /** The authority of the rest of an absolute URL: everything up to its path, query or fragment. */
  function TakeAuthority(s: string): (r: string)
    ensures StartsWith(s, r)
    ensures forall i :: 0 <= i < |r| ==> !EndsAuthority(r[i])
    ensures |r| == |s| || EndsAuthority(s[|r|])
  {
    if s == [] || EndsAuthority(s[0]) then "" else [s[0]] + TakeAuthority(s[1..])
  }

  /** An `http:` or `https:` URL split into its scheme and what follows `://`. */
  function SplitScheme(u: string): Option<(string, string)> {
    if StartsWith(u, "https://") then Some(("https", u[8..]))
    else if StartsWith(u, "http://") then Some(("http", u[7..]))
    else None
  }

  /** The host and port of an authority: what follows its last `@`, which leaves out the
      userinfo. `HostOfSuffix` characterises it. */
  function HostOf(a: string): string {
    if a == [] then ""
    else
      var rest := HostOf(a[1..]);
      if |rest| == |a| - 1 && a[0] != '@' then a else rest
  }

  /** The host is the longest suffix of the authority free of `@`. */
  lemma {:induction false} HostOfSuffix(a: string)
    ensures var r := HostOf(a);
            |r| <= |a| && a[|a| - |r|..] == r && '@' !in r &&
            (|r| == |a| || a[|a| - |r| - 1] == '@')
  {
    if a != [] {
      HostOfSuffix(a[1..]);
      var rest := HostOf(a[1..]);
      if |rest| == |a| - 1 && a[0] != '@' {
        assert a == [a[0]] + a[1..];
      } else {
        assert a[|a| - |rest|..] == a[1..][|a| - 1 - |rest|..];
        if |rest| < |a| - 1 {
          assert a[|a| - |rest| - 1] == a[1..][|a| - 1 - |rest| - 1];
        }
      }
    }
  }

  /** An authority without `@` is all host. */
  lemma {:induction false} HostOfNoUserinfo(a: string)
    requires '@' !in a
    ensures HostOf(a) == a
  {
    if a != [] {
      HostOfNoUserinfo(a[1..]);
      assert a[0] in a;
    }
  }

  /** The authority of an `http:` or `https:` URL. */
  function AuthorityOf(u: string): string
    requires SplitScheme(u).Some?
  {
    TakeAuthority(SplitScheme(u).value.1)
  }

  /** A redirect URI from which `new URL(...).origin` can be read: a special scheme and a
      non-empty host. */
  predicate ValidRedirectUri(u: string) {
    SplitScheme(u).Some? && HostOf(AuthorityOf(u)) != ""
  }

  /** `new URL(u).origin`: the scheme, `://` and the host and port of the authority, without
      any userinfo. `OriginOfParts` places each part in u. */
  function OriginOf(u: string): (r: string)
    requires ValidRedirectUri(u)
    ensures '?' !in r
    ensures StartsWith(r, "https://") || StartsWith(r, "http://")
  {
    var p := SplitScheme(u).value;
    var a := AuthorityOf(u);
    var h := HostOf(a);
    HostOfChars(a);
    assert '?' !in a;
    StartsWithConcat(p.0 + "://", h);
    p.0 + "://" + h
  }

  /** The host takes its characters from the authority. */
  lemma {:induction false} HostOfChars(a: string)
    ensures forall c :: c in HostOf(a) ==> c in a
  {
    if a != [] {
      HostOfChars(a[1..]);
      assert forall c :: c in a[1..] ==> c in a;
    }
  }

  /** The origin keeps u's scheme and `://`, then the host: a non-empty suffix of the
      authority that follows its last `@`, holding no path, query or fragment character. */
  lemma OriginOfParts(u: string)
    requires ValidRedirectUri(u)
    ensures '@' !in OriginOf(u)
    ensures var n, r := |SplitScheme(u).value.0| + 3, OriginOf(u);
            |r| > n && r[..n] == u[..n] &&
            (forall i :: n <= i < |r| ==> !EndsAuthority(r[i])) &&
            var a, h := AuthorityOf(u), r[n..];
            |h| <= |a| && a[|a| - |h|..] == h && (|h| == |a| || a[|a| - |h| - 1] == '@')
  {
    var p := SplitScheme(u).value;
    var a := AuthorityOf(u);
    var h := HostOf(a);
    var n := |p.0| + 3;
    HostOfSuffix(a);
    var r := OriginOf(u);
    assert r == (p.0 + "://") + h;
    assert u[..n] == p.0 + "://";
    assert r[..n] == p.0 + "://";
    assert r[n..] == h;
    assert forall i :: 0 <= i < |h| ==> h[i] == a[|a| - |h| + i];
  }

  /** Without userinfo the origin is the prefix of u that ends where the path, query or
      fragment begins. */
  lemma OriginWithoutUserinfo(u: string)
    requires ValidRedirectUri(u) && '@' !in AuthorityOf(u)
    ensures StartsWith(u, OriginOf(u))
    ensures |OriginOf(u)| == |u| || EndsAuthority(u[|OriginOf(u)|])
  {
    var p := SplitScheme(u).value;
    var a := AuthorityOf(u);
    HostOfNoUserinfo(a);
    assert OriginOf(u) == p.0 + "://" + a;
    assert u == p.0 + "://" + p.1;
    assert p.1 == a + p.1[|a|..];
    assert u == (p.0 + "://" + a) + p.1[|a|..];
  }

  /** The userinfo of a redirect URI is not part of its origin. */
  lemma UserinfoDropped()
    ensures ValidRedirectUri("https://u@h/cb")
    ensures OriginOf("https://u@h/cb") == "https://h"
  {
    ExampleSplit();
    ExampleAuthority();
    ExampleHost();
  }

  lemma ExampleSplit()
    ensures SplitScheme("https://u@h/cb") == Some(("https", "u@h/cb"))
  {
    assert "https://u@h/cb"[..8] == "https://";
    assert "https://u@h/cb"[8..] == "u@h/cb";
  }

  lemma ExampleAuthority()
    ensures TakeAuthority("u@h/cb") == "u@h"
  {
    assert TakeAuthority("/cb") == "";
    assert TakeAuthority("h/cb") == "h";
    assert TakeAuthority("@h/cb") == "@h";
  }

  lemma ExampleHost()
    ensures HostOf("u@h") == "h"
  {
    assert "u@h"[1..] == "@h";
    assert "@h"[1..] == "h";
    assert "h"[1..] == "";
  }




  /** The origin the request's headers name: the forwarded (else plain) host, with the
      forwarded (else `https`) scheme; `None` without a host. */
  function HeaderOrigin(h: Headers): Option<string> {
    var host := Or(h.forwardedHost, h.host);
    if Truthy(host) then Some(OrElse(h.forwardedProto, "https") + "://" + host.value) else None
  }

  /** `getOrigin`: the origin the headers name when it is allowed, otherwise the redirect
      URI's origin. */
  function GetOrigin(env: Env, h: Headers): (r: string)
    requires ValidRedirectUri(RedirectUri(env))
    ensures r in AllowedOrigins || r == OriginOf(RedirectUri(env))
    ensures HeaderOrigin(h).Some? && HeaderOrigin(h).value in AllowedOrigins ==> r == HeaderOrigin(h).value
    ensures !(HeaderOrigin(h).Some? && HeaderOrigin(h).value in AllowedOrigins) ==> r == OriginOf(RedirectUri(env))
    ensures '?' !in r
  {
    var candidate := HeaderOrigin(h);
    if candidate.Some? && candidate.value in AllowedOrigins then
      AllowedOriginsHaveNoQuery(candidate.value);
      candidate.value
    else
      OriginOf(RedirectUri(env))
  }

  // ---------------------------------------------------------------- state check

  /** `crypto.timingSafeEqual` on two buffers of the same length. */
  predicate TimingSafeEqual(a: seq<byte>, b: seq<byte>)
    requires |a| == |b|
  {
    forall i :: 0 <= i < |a| ==> a[i] == b[i]
  }

  /** The state check on the UTF-8 buffers of the two strings: equal lengths, then equal bytes. */
  predicate StateMatches(state: string, stored: string) {
    var a := Encode(state);
    var b := Encode(stored);
    |a| == |b| && TimingSafeEqual(a, b)
  }

  /** Comparing the buffers accepts exactly the returned state that equals the stored one. */
  lemma StateMatchesIff(state: string, stored: string)
    ensures StateMatches(state, stored) <==> state == stored
  {
    if StateMatches(state, stored) {
      assert Encode(state) == Encode(stored);
      EncodeInjective(state, stored);
    }
  }

  // ---------------------------------------------------------------- decision

  /** A cookie that tells the browser to drop it. */
  const Cleared: SetCookie := SetCookie("", ExpiredAtEpoch, false, false, Unspecified, "/")

  /** This route marks the session cookie `secure` in production, and whenever the configured
      redirect URI is unset or does not mention `localhost`. */
  predicate IsProduction(env: Env) {
    env.nodeEnv == Some("production") ||
    !(env.redirectUriVar.Some? && Contains(env.redirectUriVar.value, "localhost"))
  }

  function SessionCookie(env: Env, token: string): SetCookie {
    SetCookie(token, MaxAge(SessionMaxAge), true, IsProduction(env), Lax, "/")
  }

  /** The `code`, `state` and `error` parameters of the callback URL. */
  datatype Params = Params(code: Option<string>, state: Option<string>, error: Option<string>)

  function ParamsOf(query: string): Params {
    Params(QueryGet(query, "code"), QueryGet(query, "state"), QueryGet(query, "error"))
  }

  function Cookie(cookies: map<string, string>, name: string): Option<string> {
    if name in cookies then Some(cookies[name]) else None
  }

  const ProviderDenied: string := "Authorization denied"

  /** The reason the checks before the exchange reject the request, or `None` when they pass. */
  function Precheck(query: string, cookies: map<string, string>): (r: Option<string>)
    ensures var p := ParamsOf(query); var stored := Cookie(cookies, StateCookie);
      r.None? <==> !Truthy(p.error) && Truthy(p.code) && Truthy(p.state) && stored == p.state
    ensures r.Some? ==> r.value in {ProviderDenied, "missing_params", "expired_state", "invalid_state"}
    ensures Truthy(ParamsOf(query).error) ==> r == Some(ProviderDenied)
    ensures var p := ParamsOf(query);
      !Truthy(p.error) && (!Truthy(p.code) || !Truthy(p.state)) ==> r == Some("missing_params")
    ensures var p := ParamsOf(query); var stored := Cookie(cookies, StateCookie);
      !Truthy(p.error) && Truthy(p.code) && Truthy(p.state) && !Truthy(stored) ==> r == Some("expired_state")
    ensures var p := ParamsOf(query); var stored := Cookie(cookies, StateCookie);
      !Truthy(p.error) && Truthy(p.code) && Truthy(p.state) && Truthy(stored) && stored != p.state ==>
        r == Some("invalid_state")
  {
    var p := ParamsOf(query);
    var stored := Cookie(cookies, StateCookie);
    if Truthy(p.error) then Some(ProviderDenied)
    else if !Truthy(p.code) || !Truthy(p.state) then Some("missing_params")
    else if !Truthy(stored) then Some("expired_state")
    else
      StateMatchesIff(p.state.value, stored.value);
      if !StateMatches(p.state.value, stored.value) then Some("invalid_state") else None
  }

  /** The body of a backend answer: `data.token` and `data.error`. */
  datatype ExchangeBody = ExchangeBody(token: Option<string>, error: Option<string>)

  /** The `POST` the route sends to the backend: address, `X-Internal-Auth`, `code`, `redirectUri`. */
  datatype ExchangeCall = ExchangeCall(url: string, internalAuth: string, code: string, redirectUri: string)

  /** The code exchange the route performs; `None` when the checks reject the request first. */
  function ExchangeCallFor(env: Env, query: string, cookies: map<string, string>): (r: Option<ExchangeCall>)
    ensures r.Some? <==> Precheck(query, cookies).None?
    ensures r.Some? ==> r.value.code == ParamsOf(query).code.value && r.value.redirectUri == RedirectUri(env)
  {
    if Precheck(query, cookies).None? then
      Some(ExchangeCall(OrElse(env.apiServerUrl, DefaultApiServerUrl) + "/api/v1/auth/discord/callback",
                        OrElse(env.internalAuthSecret, ""), ParamsOf(query).code.value, RedirectUri(env)))
    else None
  }

  datatype Verdict = Rejected(reason: string) | SignedIn(token: Option<string>)

  /** How the request ends: the first failed check, the backend's error, a failed exchange, or
      a sign-in carrying the backend's token when it sent a non-empty one. */
  function VerdictOf(query: string, cookies: map<string, string>, exchange: Outcome<ExchangeBody>): (r: Verdict)
    ensures r.SignedIn? <==> Precheck(query, cookies).None? && exchange.Ok?
    ensures r.SignedIn? ==> r.token == (if Truthy(exchange.body.token) then exchange.body.token else None)
    ensures r.Rejected? && Precheck(query, cookies).None? && exchange.NotOk? ==>
      r.reason == OrElse(exchange.body.error, "discord_auth_failed")
    ensures r.Rejected? && Precheck(query, cookies).None? && exchange.Threw? ==> r.reason == "service_unavailable"
    ensures r.Rejected? ==> r.reason != ""
  {
    match Precheck(query, cookies)
    case Some(reason) => Rejected(reason)
    case None =>
      match exchange
      case Threw(_) => Rejected("service_unavailable")
      case NotOk(body) => Rejected(OrElse(body.error, "discord_auth_failed"))
      case Ok(body) => SignedIn(if Truthy(body.token) then body.token else None)
  }

  /** `errorRedirect`: back to the login page with the reason, clearing both flow cookies. */
  function ErrorResponse(env: Env, h: Headers, reason: string): (r: Response)
    requires ValidRedirectUri(RedirectUri(env))
    ensures r.Redirect? && r.status == 307
    ensures r.location == GetOrigin(env, h) + "/login?error=" + EncodeURIComponent(reason)
    ensures r.cookies == map[StateCookie := Cleared, TierCookie := Cleared]
  {
    Redirect(307, GetOrigin(env, h) + "/login?error=" + EncodeURIComponent(reason),
             map[StateCookie := Cleared, TierCookie := Cleared])
  }

  /** Where a sign-in lands: the checkout for the tier kept in the tier cookie, else the dashboard. */
  function SuccessPath(cookies: map<string, string>): (r: string)
    ensures StartsWith(r, "/dashboard")
  {
    var tier := Cookie(cookies, TierCookie);
    if CarriesPaidTier(tier) then "/dashboard?start_checkout=" + tier.value else "/dashboard"
  }

  /** A sign-in: to the dashboard (or the checkout), with the session cookie when the backend
      sent a token, and both flow cookies cleared. */
  function SuccessResponse(env: Env, h: Headers, cookies: map<string, string>, token: Option<string>): (r: Response)
    requires ValidRedirectUri(RedirectUri(env))
    ensures r.Redirect? && r.status == 307
    ensures r.location == GetOrigin(env, h) + SuccessPath(cookies)
    ensures StateCookie in r.cookies && r.cookies[StateCookie] == Cleared
    ensures TierCookie in r.cookies && r.cookies[TierCookie] == Cleared
    ensures TokenCookie in r.cookies <==> token.Some?
    ensures token.Some? ==> r.cookies[TokenCookie] == SessionCookie(env, token.value)
    ensures r.cookies.Keys <= {StateCookie, TierCookie, TokenCookie}
  {
    CookieNamesDistinct();
    var cleared := map[StateCookie := Cleared, TierCookie := Cleared];
    var jar := if token.Some? then cleared[TokenCookie := SessionCookie(env, token.value)] else cleared;
    Redirect(307, GetOrigin(env, h) + SuccessPath(cookies), jar)
  }

  /** The response for a request that ends with verdict `v`. */
  function Respond(env: Env, h: Headers, cookies: map<string, string>, v: Verdict): (r: Response)
    requires ValidRedirectUri(RedirectUri(env))
    ensures r.Redirect? && r.status == 307
    ensures StartsWith(r.location, GetOrigin(env, h))
    ensures StateCookie in r.cookies && r.cookies[StateCookie] == Cleared
    ensures TierCookie in r.cookies && r.cookies[TierCookie] == Cleared
    ensures TokenCookie in r.cookies <==> v.SignedIn? && v.token.Some?
    ensures TokenCookie in r.cookies ==> r.cookies[TokenCookie] == SessionCookie(env, v.token.value)
    ensures r.cookies.Keys <= {StateCookie, TierCookie, TokenCookie}
    ensures v.SignedIn? ==> r == SuccessResponse(env, h, cookies, v.token)
    ensures v.Rejected? ==> r == ErrorResponse(env, h, v.reason)
  {
    match v
    case Rejected(reason) =>
      ErrorResponseOnOrigin(env, h, reason);
      ErrorResponse(env, h, reason)
    case SignedIn(token) =>
      SuccessResponseOnOrigin(env, h, cookies, token);
      SuccessResponse(env, h, cookies, token)
  }

  lemma SuccessResponseOnOrigin(env: Env, h: Headers, cookies: map<string, string>, token: Option<string>)
    requires ValidRedirectUri(RedirectUri(env))
    ensures StartsWith(SuccessResponse(env, h, cookies, token).location, GetOrigin(env, h))
  {
    StartsWithConcat(GetOrigin(env, h), SuccessPath(cookies));
  }

  lemma ErrorResponseOnOrigin(env: Env, h: Headers, reason: string)
    requires ValidRedirectUri(RedirectUri(env))
    ensures StartsWith(ErrorResponse(env, h, reason).location, GetOrigin(env, h))
    ensures ErrorResponse(env, h, reason).cookies.Keys == {StateCookie, TierCookie}
  {
    var o := GetOrigin(env, h);
    var rest := "/login?error=" + EncodeURIComponent(reason);
    StartsWithConcat(o, rest);
    assert o + "/login?error=" + EncodeURIComponent(reason) == o + rest;
  }

  /** The response of the route: the error redirect for the first failed check, the backend's
      refusal or a failed exchange; the sign-in redirect for an accepted exchange. */
  function Decide(env: Env, query: string, cookies: map<string, string>, h: Headers,
                  exchange: Outcome<ExchangeBody>): (r: Response)
    requires ValidRedirectUri(RedirectUri(env))
    ensures Precheck(query, cookies).Some? ==> r == ErrorResponse(env, h, Precheck(query, cookies).value)
    ensures Precheck(query, cookies).None? && exchange.Ok? ==>
      r == SuccessResponse(env, h, cookies, if Truthy(exchange.body.token) then exchange.body.token else None)
    ensures Precheck(query, cookies).None? && exchange.NotOk? ==>
      r == ErrorResponse(env, h, OrElse(exchange.body.error, "discord_auth_failed"))
    ensures Precheck(query, cookies).None? && exchange.Threw? ==> r == ErrorResponse(env, h, "service_unavailable")
  {
    Respond(env, h, cookies, VerdictOf(query, cookies, exchange))
  }

  // ---------------------------------------------------------------- handler

  method ErrorRedirect(env: Env, h: Headers, reason: string) returns (resp: Response)
    requires ValidRedirectUri(RedirectUri(env))
    ensures resp == ErrorResponse(env, h, reason)
  {
    var origin := GetOrigin(env, h);
    var nr := new ResponseCookies();
    nr.Set(StateCookie, Cleared);
    nr.Set(TierCookie, Cleared);
    resp := Redirect(307, origin + "/login?error=" + EncodeURIComponent(reason), nr.entries);
  }

  /** The checks before the exchange, in the handler's order; `reason` is the first that fails. */
  method CheckRequest(query: string, cookies: map<string, string>) returns (reason: Option<string>)
    ensures reason == Precheck(query, cookies)
  {
    var code := QueryGet(query, "code");
    var state := QueryGet(query, "state");
    var error := QueryGet(query, "error");
    if Truthy(error) {
      return Some(ProviderDenied);
    }
    if !Truthy(code) || !Truthy(state) {
      return Some("missing_params");
    }
    var storedState := Cookie(cookies, StateCookie);
    if !Truthy(storedState) {
      return Some("expired_state");
    }
    var stateBuffer := Encode(state.value);
    var storedBuffer := Encode(storedState.value);
    if |stateBuffer| != |storedBuffer| || !TimingSafeEqual(stateBuffer, storedBuffer) {
      return Some("invalid_state");
    }
    return None;
  }

  /** The answer to an accepted exchange: the landing page, the session cookie, the cleared
      flow cookies. */
  method SignIn(env: Env, h: Headers, cookies: map<string, string>, data: ExchangeBody) returns (resp: Response)
    requires ValidRedirectUri(RedirectUri(env))
    ensures resp == SuccessResponse(env, h, cookies, if Truthy(data.token) then data.token else None)
  {
    var oauthTier := Cookie(cookies, TierCookie);
    var origin := GetOrigin(env, h);
    var redirectUrl := origin + "/dashboard";
    if CarriesPaidTier(oauthTier) {
      redirectUrl := origin + "/dashboard?start_checkout=" + oauthTier.value;
    }
    var nr := new ResponseCookies();
    if Truthy(data.token) {
      nr.Set(TokenCookie, SessionCookie(env, data.token.value));
    }
    nr.Set(StateCookie, Cleared);
    nr.Set(TierCookie, Cleared);
    CookieNamesDistinct();
    resp := Redirect(307, redirectUrl, nr.entries);
  }

  /** The route handler; `call` is the exchange it sends, if any. */
  method Get(env: Env, query: string, cookies: map<string, string>, h: Headers,
             exchange: Outcome<ExchangeBody>) returns (call: Option<ExchangeCall>, resp: Response)
    requires ValidRedirectUri(RedirectUri(env))
    ensures call == ExchangeCallFor(env, query, cookies)
    ensures resp == Decide(env, query, cookies, h, exchange)
  {
    var reason := CheckRequest(query, cookies);
    if reason.Some? {
      call := None;
      resp := ErrorRedirect(env, h, reason.value);
      return;
    }
    var code := QueryGet(query, "code").value;
    call := Some(ExchangeCall(OrElse(env.apiServerUrl, DefaultApiServerUrl) + "/api/v1/auth/discord/callback",
                              OrElse(env.internalAuthSecret, ""), code, RedirectUri(env)));
    match exchange {
      case Threw(_) =>
        resp := ErrorRedirect(env, h, "service_unavailable");
      case NotOk(data) =>
        resp := ErrorRedirect(env, h, OrElse(data.error, "discord_auth_failed"));
      case Ok(data) =>
        resp := SignIn(env, h, cookies, data);
    }
  }

  // ---------------------------------------------------------------- properties

  /** When the checks reject the request, the backend is not consulted: its answer cannot
      change the response. */
  lemma NoExchangeNoInfluence(env: Env, query: string, cookies: map<string, string>, h: Headers,
                              e1: Outcome<ExchangeBody>, e2: Outcome<ExchangeBody>)
    requires ValidRedirectUri(RedirectUri(env))
    requires ExchangeCallFor(env, query, cookies).None?
    ensures Decide(env, query, cookies, h, e1) == Decide(env, query, cookies, h, e2)
  {
  }

  lemma ErrorNameDecodes()
    ensures FormDecode("error") == "error"
  {
    assert FormEncode("error") == "error";
    FormRoundTrip("error");
  }

  /** The query of an error redirect holds the reason, and nothing else. */
  lemma ErrorQueryParses(reason: string)
    ensures ParseQuery("error=" + EncodeURIComponent(reason)) == [("error", reason)]
  {
    var x := EncodeURIComponent(reason);
    var s := "error=" + x;
    NoSeparator(x, '&');
    assert '&' !in s;
    SplitNoSep(s, '&');
    assert s == "error" + "=" + x;
    SplitAtFirstConcat("error", '=', x);
    ErrorNameDecodes();
    ComponentRoundTrip(reason);
    assert ParsePieces([s]) == [ParsePiece(s)] + ParsePieces([]);
  }

  /** On any origin without `?`, the login address with an error reads back that error. */
  lemma ErrorLocationReadable(origin: string, reason: string)
    requires '?' !in origin
    ensures QueryGet(QueryOf(origin + "/login?error=" + EncodeURIComponent(reason)), "error") == Some(reason)
  {
    var s := "error=" + EncodeURIComponent(reason);
    assert origin + "/login?error=" + EncodeURIComponent(reason) == (origin + "/login") + "?" + s;
    QueryOfConcat(origin + "/login", s);
    ErrorQueryParses(reason);
  }

  /** The `error` parameter of an error redirect reads back as the reason it was given. */
  lemma ErrorReasonReadable(env: Env, h: Headers, reason: string)
    requires ValidRedirectUri(RedirectUri(env))
    ensures QueryGet(QueryOf(ErrorResponse(env, h, reason).location), "error") == Some(reason)
  {
    ErrorLocationReadable(GetOrigin(env, h), reason);
  }
}
