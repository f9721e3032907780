/** `GET /api/auth/discord`: starts the Discord sign-in. It answers 503 when no client id is
    configured; otherwise it sends the browser to Discord's authorize page with a fresh CSRF
    state, and stores that state (and a requested paid tier) in short-lived cookies. The
    random state is an input. */
module DiscordAuthorize {
  import opened Common
  import opened UrlEncoding
  import opened Http
  import opened DiscordEnv

  const AuthorizeEndpoint: string := "https://discord.com/oauth2/authorize"
  const NotConfigured: string := "Discord OAuth not configured"

  /** The parameters of the authorize URL, in the order they are serialised. */
  function AuthorizeParams(clientId: string, redirectUri: string, state: string): seq<(string, string)> {
    [("client_id", clientId), ("redirect_uri", redirectUri), ("response_type", "code"),
     ("scope", "identify email"), ("state", state), ("prompt", "consent")]
  }

  /** The address of Discord's authorize page carrying `params` as its query. */
  function AuthorizeUrl(params: seq<(string, string)>): (r: string)
    ensures StartsWith(r, AuthorizeEndpoint + "?")
    ensures ParseQuery(QueryOf(r)) == params
  {
    assert '?' !in AuthorizeEndpoint;
    QueryOfConcat(AuthorizeEndpoint, Serialize(params));
    ParseSerialize(params);
    AuthorizeEndpoint + "?" + Serialize(params)
  }

  /** This route marks its cookies `secure` only when `NODE_ENV` is `production`. */
  predicate IsProduction(env: Env) {
    env.nodeEnv == Some("production")
  }

  /** The attributes of both flow cookies: HTTP-only, `lax`, site-wide, five minutes. */
  function FlowCookie(env: Env, value: string): SetCookie {
    SetCookie(value, MaxAge(300), true, IsProduction(env), Lax, "/")
  }

  /** The `tier` query parameter of the request. */
  function TierParam(requestQuery: string): Option<string> {
    QueryGet(requestQuery, "tier")
  }

  /** The cookies of the redirect: the state, and the tier when the request names a paid one. */
  function FlowCookies(env: Env, requestQuery: string, state: string): (r: map<string, SetCookie>)
    ensures StateCookie in r && r[StateCookie] == FlowCookie(env, state)
    ensures TierCookie in r <==> CarriesPaidTier(TierParam(requestQuery))
    ensures TierCookie in r ==> r[TierCookie] == FlowCookie(env, TierParam(requestQuery).value)
    ensures r.Keys <= {StateCookie, TierCookie}
  {
    CookieNamesDistinct();
    var tier := TierParam(requestQuery);
    var cookies := map[StateCookie := FlowCookie(env, state)];
    if CarriesPaidTier(tier) then cookies[TierCookie := FlowCookie(env, tier.value)] else cookies
  }

  /** The response of the route for a request with query `requestQuery`, given the state
      that `crypto.randomUUID` produced. */
  function Authorize(env: Env, requestQuery: string, state: string): (r: Response)
    ensures !Truthy(env.clientId) ==> r == JsonError(503, NotConfigured)
    ensures Truthy(env.clientId) ==> r.Redirect? && r.status == 302
    ensures r.Redirect? ==> StartsWith(r.location, AuthorizeEndpoint + "?")
    ensures r.Redirect? ==>
      ParseQuery(QueryOf(r.location)) == AuthorizeParams(env.clientId.value, RedirectUri(env), state)
    ensures r.Redirect? ==> r.cookies == FlowCookies(env, requestQuery, state)
  {
    if !Truthy(env.clientId) then
      JsonError(503, NotConfigured)
    else
      Redirect(302, AuthorizeUrl(AuthorizeParams(env.clientId.value, RedirectUri(env), state)),
               FlowCookies(env, requestQuery, state))
  }

  /** The route handler: builds the cookies on a response and answers with the raw redirect. */
  method Get(env: Env, requestQuery: string, state: string) returns (resp: Response)
    ensures resp == Authorize(env, requestQuery, state)
  {
    if !Truthy(env.clientId) {
      return JsonError(503, NotConfigured);
    }
    var params := AuthorizeParams(env.clientId.value, RedirectUri(env), state);
    var url := AuthorizeUrl(params);
    var nr := new ResponseCookies();
    nr.Set(StateCookie, FlowCookie(env, state));
    var tier := TierParam(requestQuery);
    if CarriesPaidTier(tier) {
      nr.Set(TierCookie, FlowCookie(env, tier.value));
    }
    CookieNamesDistinct();
    resp := Redirect(302, url, nr.entries);
  }

  /** Discord receives, in the `state` parameter, exactly the value kept in the state cookie. */
  lemma StateEchoedInLocation(env: Env, requestQuery: string, state: string)
    requires Truthy(env.clientId)
    ensures var r := Authorize(env, requestQuery, state);
      QueryGet(QueryOf(r.location), "state") == Some(state) && r.cookies[StateCookie].value == state
  {
    var params := AuthorizeParams(env.clientId.value, RedirectUri(env), state);
    LookupFirst(params, "state", 4);
  }

  /** Discord is told to return to the configured redirect URI, with the route's client id. */
  lemma ClientAndRedirectInLocation(env: Env, requestQuery: string, state: string)
    requires Truthy(env.clientId)
    ensures var r := Authorize(env, requestQuery, state);
      QueryGet(QueryOf(r.location), "client_id") == env.clientId &&
      QueryGet(QueryOf(r.location), "redirect_uri") == Some(RedirectUri(env))
  {
    var params := AuthorizeParams(env.clientId.value, RedirectUri(env), state);
    LookupFirst(params, "client_id", 0);
    LookupFirst(params, "redirect_uri", 1);
  }
}
