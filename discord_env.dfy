/** The configuration both Discord OAuth routes read from the process environment, and the
    names of the cookies that carry the flow from the first route to the second. */
module DiscordEnv {
  import opened Common
  import opened Tiers

  /** `DISCORD_CLIENT_ID`, `DISCORD_REDIRECT_URI`, `NODE_ENV`, `API_SERVER_URL` and
      `INTERNAL_AUTH_SECRET`; an unset variable is `None`. */
  datatype Env = Env(clientId: Option<string>, redirectUriVar: Option<string>, nodeEnv: Option<string>,
                     apiServerUrl: Option<string>, internalAuthSecret: Option<string>)

  const DefaultRedirectUri: string := "https://owlsinsight.com/api/auth/discord/callback"

  const StateCookie: string := "discord_oauth_state"
  const TierCookie: string := "discord_oauth_tier"
  const TokenCookie: string := "token"

  /** The redirect URI both routes use: the variable when it is set and non-empty, else the
      production callback. */
  function RedirectUri(env: Env): (r: string)
    ensures r != ""
    ensures Truthy(env.redirectUriVar) ==> r == env.redirectUriVar.value
    ensures !Truthy(env.redirectUriVar) ==> r == DefaultRedirectUri
  {
    OrElse(env.redirectUriVar, DefaultRedirectUri)
  }

  /** A `tier` value (query parameter or cookie) that names a paid tier; anything else,
      including an absent or empty value, is ignored by both routes. */
  predicate CarriesPaidTier(t: Option<string>) {
    Truthy(t) && IsPaidTier(t.value)
  }

  lemma CookieNamesDistinct()
    ensures StateCookie != TierCookie && StateCookie != TokenCookie && TierCookie != TokenCookie
  {
  }
}
