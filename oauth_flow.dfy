/** The two Discord routes together, with the browser in between: the cookies the first route
    sets are the cookies the second one reads, and Discord sends back the `state` it found in
    the authorize URL. */
module OAuthFlow {
  import opened Common
  import opened UrlEncoding
  import opened Http
  import opened DiscordEnv
  import A = DiscordAuthorize
  import opened DiscordCallback

  /** The query of Discord's redirect back to the callback after consent. */
  function ReturnQuery(code: string, state: string): string {
    Serialize([("code", code), ("state", state)])
  }

  /** The state Discord found in the authorize URL of a started sign-in. */
  function StateSentToDiscord(env: Env, requestQuery: string, state: string): Option<string>
    requires Truthy(env.clientId)
  {
    QueryGet(QueryOf(A.Authorize(env, requestQuery, state).location), "state")
  }

  /** The browser's cookies once the authorize redirect (whose cookies are `FlowCookies`) has
      been received. */
  function CookiesAfterAuthorize(env: Env, requestQuery: string, state: string, jar: map<string, string>): map<string, string> {
    StoreCookies(jar, A.FlowCookies(env, requestQuery, state))
  }

  lemma ReturnParams(code: string, state: string)
    ensures ParamsOf(ReturnQuery(code, state)) == Params(Some(code), Some(state), None)
  {
    var pairs := [("code", code), ("state", state)];
    ParseSerialize(pairs);
    LookupFirst(pairs, "code", 0);
    LookupFirst(pairs, "state", 1);
    assert Lookup(pairs, "error").None?;
  }

  lemma StoredStateAfterAuthorize(env: Env, requestQuery: string, state: string, jar: map<string, string>)
    ensures Cookie(CookiesAfterAuthorize(env, requestQuery, state, jar), StateCookie) == Some(state)
  {
    var c := A.FlowCookies(env, requestQuery, state);
    assert !Expires(c[StateCookie]);
  }

  /** A sign-in started by the first route and returned by Discord with the state it was given
      passes every check: the code goes to the backend, and an accepted exchange signs in. */
  lemma StateRoundTrip(env: Env, requestQuery: string, state: string, code: string,
                       jar: map<string, string>, body: ExchangeBody)
    requires Truthy(env.clientId) && state != "" && code != ""
    ensures StateSentToDiscord(env, requestQuery, state) == Some(state)
    ensures var q := ReturnQuery(code, state);
      var cookies := CookiesAfterAuthorize(env, requestQuery, state, jar);
      ExchangeCallFor(env, q, cookies).Some? && ExchangeCallFor(env, q, cookies).value.code == code &&
      VerdictOf(q, cookies, Ok(body)).SignedIn?
  {
    A.StateEchoedInLocation(env, requestQuery, state);
    SignInWithEchoedState(env, requestQuery, state, code, jar, body);
  }

  lemma SignInWithEchoedState(env: Env, requestQuery: string, state: string, code: string,
                              jar: map<string, string>, body: ExchangeBody)
    requires state != "" && code != ""
    ensures var q := ReturnQuery(code, state);
      var cookies := CookiesAfterAuthorize(env, requestQuery, state, jar);
      ExchangeCallFor(env, q, cookies).Some? && ExchangeCallFor(env, q, cookies).value.code == code &&
      VerdictOf(q, cookies, Ok(body)).SignedIn?
  {
    var q := ReturnQuery(code, state);
    var cookies := CookiesAfterAuthorize(env, requestQuery, state, jar);
    ReturnParams(code, state);
    StoredStateAfterAuthorize(env, requestQuery, state, jar);
    assert Precheck(q, cookies).None?;
  }

  /** A returned state that differs from the one the browser holds is refused before the
      exchange, whatever the backend would have said. */
  lemma TamperedStateRejected(env: Env, requestQuery: string, state: string, forged: string, code: string,
                              jar: map<string, string>, exchange: Outcome<ExchangeBody>)
    requires state != "" && forged != "" && code != "" && forged != state
    ensures var q := ReturnQuery(code, forged);
      var cookies := CookiesAfterAuthorize(env, requestQuery, state, jar);
      ExchangeCallFor(env, q, cookies).None? && VerdictOf(q, cookies, exchange) == Rejected("invalid_state")
  {
    var q := ReturnQuery(code, forged);
    var cookies := CookiesAfterAuthorize(env, requestQuery, state, jar);
    ReturnParams(code, forged);
    StoredStateAfterAuthorize(env, requestQuery, state, jar);
    StateMatchesIff(forged, state);
    assert Precheck(q, cookies) == Some("invalid_state");
  }

  /** Every answer of the callback drops the state cookie, so no later callback request, with
      any query, reaches the exchange until a new sign-in is started. */
  lemma CallbackConsumesState(env: Env, query: string, cookies: map<string, string>, h: Headers,
                              exchange: Outcome<ExchangeBody>, laterQuery: string)
    requires ValidRedirectUri(RedirectUri(env))
    ensures var after := StoreCookies(cookies, Decide(env, query, cookies, h, exchange).cookies);
      StateCookie !in after && TierCookie !in after && ExchangeCallFor(env, laterQuery, after).None?
  {
    var r := Decide(env, query, cookies, h, exchange);
    assert Expires(r.cookies[StateCookie]) && Expires(r.cookies[TierCookie]);
  }

  /** Replaying Discord's redirect after it was used ends with `expired_state`. */
  lemma ReplayExpires(env: Env, code: string, state: string, cookies: map<string, string>, h: Headers,
                      e1: Outcome<ExchangeBody>, e2: Outcome<ExchangeBody>)
    requires ValidRedirectUri(RedirectUri(env)) && code != "" && state != ""
    ensures var q := ReturnQuery(code, state);
      var after := StoreCookies(cookies, Decide(env, q, cookies, h, e1).cookies);
      VerdictOf(q, after, e2) == Rejected("expired_state")
  {
    var q := ReturnQuery(code, state);
    CallbackConsumesState(env, q, cookies, h, e1, q);
    ReturnParams(code, state);
  }

  /** A paid tier named when the sign-in starts is where the sign-in lands: the checkout for
      that tier. */
  lemma TierRoundTrip(env: Env, requestQuery: string, state: string, jar: map<string, string>)
    requires CarriesPaidTier(A.TierParam(requestQuery))
    ensures SuccessPath(CookiesAfterAuthorize(env, requestQuery, state, jar)) ==
            "/dashboard?start_checkout=" + A.TierParam(requestQuery).value
  {
    var c := A.FlowCookies(env, requestQuery, state);
    assert !Expires(c[TierCookie]);
  }

  /** Without a paid tier in the request, and no tier cookie left from an earlier attempt, the
      sign-in lands on the dashboard. */
  lemma NoTierLandsOnDashboard(env: Env, requestQuery: string, state: string, jar: map<string, string>)
    requires !CarriesPaidTier(A.TierParam(requestQuery)) && TierCookie !in jar
    ensures SuccessPath(CookiesAfterAuthorize(env, requestQuery, state, jar)) == "/dashboard"
  {
  }

  /** The first route never clears a tier cookie: a paid tier kept from an earlier, unfinished
      sign-in still sends a later sign-in without a tier to that tier's checkout. */
  lemma EarlierTierCookieSurvives(env: Env, requestQuery: string, state: string, jar: map<string, string>)
    requires !CarriesPaidTier(A.TierParam(requestQuery))
    requires TierCookie in jar && jar[TierCookie] == "mvp"
    ensures SuccessPath(CookiesAfterAuthorize(env, requestQuery, state, jar)) == "/dashboard?start_checkout=mvp"
  {
    var cookies := CookiesAfterAuthorize(env, requestQuery, state, jar);
    assert TierCookie !in A.FlowCookies(env, requestQuery, state);
    assert Cookie(cookies, TierCookie) == Some("mvp");
    assert CarriesPaidTier(Some("mvp"));
  }
}
