# Owls Insight web front end: sign-in, session and dashboard rules in Dafny

This project models the decision logic of the Owls Insight web application, a Next.js front
end for a sports-odds API. It covers:

- the Discord OAuth 2.0 authorization-code sign-in: the authorize route, which sends the
  browser to Discord with a CSRF `state` kept in a cookie, and the callback route, which checks
  that state and exchanges the code with the backend;
- the edge middleware that guards the dashboard and bounces signed-in users off the login page;
- the login, register, reset-password and verify-email pages;
- the client session provider (`AuthContext`) and its copy of the session in `localStorage`;
- the dashboard's overview, API-keys, billing and account pages, its sidebar and its header.

Every network request is replaced by an input that says how it turned out:
`Http.Outcome` is `Ok(body)`, `NotOk(body)` or `Threw(message)`; a timeout is a throw. Handlers
written as `async` functions that change page state (`isLoading`, dialogs, status) are classes
whose methods are split at the request: `Begin…` up to the request, `Finish…` with its outcome.
Pure expressions of the source are functions. The library behaviour the routes rely on is
modelled once, in small modules of its own:

- `Common`: JavaScript truthiness of optional strings, `a || b`, `startsWith`, ASCII
  `toUpperCase`, `substring(0, n)`;
- `Utf8`: `Buffer.from(string)`;
- `UrlEncoding`: `URLSearchParams` serialisation and parsing and `encodeURIComponent`;
- `Http`: responses, `Set-Cookie` entries, the response cookie jar, the browser's cookie store;
- `Tiers`, `Origins`: the tier lists and the origin allow-list;
- `Forms`: schema issues, field messages, toasts and the end of a submit.

The main results are:

- `OAuthFlow`: a sign-in started by the authorize route and returned by Discord with the state
  it was given passes every check; a forged state is refused before the exchange; every
  callback answer clears the state cookie, so a replay ends in `expired_state`.
- `Middleware`/`LoginPage`: the `redirect` parameter survives the middleware → login round trip,
  and the middleware never redirects in a loop.
- `PasswordPolicy`: every password the schemas accept is rated Strong, and the converse fails.
- `LoginPage`: the written open-redirect filter lets `/\evil.com` through (see Findings); the
  intended filter is proved to keep the user on the site.

## Model

| member | source | states |
|---|---|---|
| Common.Or | src/contexts/AuthContext.tsx:129 | `a \|\| b` on optional strings: the first operand when it is a non-empty string, else the second |
| Common.OrElse | src/app/api/auth/discord/route.ts:7-8 | `a \|\| "fallback"`: the value when non-empty, else the fallback; never empty when the fallback is not |
| Common.Upper | src/components/dashboard/Header.tsx:29 | `toUpperCase` (ASCII): same length, each character upper-cased |
| Common.Prefix | src/components/dashboard/Header.tsx:29 | `substring(0, n)`: a prefix of the string, of length n or the whole string when shorter |
| Utf8.Encode | src/app/api/auth/discord/callback/route.ts:63-64 | `Buffer.from(s)`: the UTF-8 bytes, at least one per character |
| Utf8.DecodeEncode | src/app/api/auth/discord/callback/route.ts:63-64 | decoding the UTF-8 bytes of a string gives the string back |
| Utf8.EncodeInjective | src/app/api/auth/discord/callback/route.ts:63-66 | two strings have the same UTF-8 bytes exactly when they are equal |
| Utf8.EncodeAppend | src/app/api/auth/discord/callback/route.ts:63-64 | the bytes of a concatenation are the concatenation of the bytes |
| UrlEncoding.FormEncode | src/app/api/auth/discord/route.ts:18-27 | `URLSearchParams` value encoding: the output holds only unreserved characters, `+` and `%XX` escapes |
| UrlEncoding.EncodeURIComponent | src/app/api/auth/discord/callback/route.ts:34 | the output holds only unreserved characters and `%XX` escapes, so no `&`, `=`, `?` or `#` |
| UrlEncoding.FormRoundTrip | src/app/api/auth/discord/route.ts:18-27 | decoding a form-encoded string gives the string back |
| UrlEncoding.ComponentRoundTrip | src/app/api/auth/discord/callback/route.ts:34-45 | `searchParams.get` reads back exactly the string `encodeURIComponent` encoded |
| UrlEncoding.ParseSerialize | src/app/api/auth/discord/route.ts:18-27 | parsing a serialised parameter list gives the list back, names, values and order |
| UrlEncoding.LookupFirst | src/app/api/auth/discord/callback/route.ts:43-45 | `get(name)` is the value of the first pair with that name |
| UrlEncoding.QueryOfConcat | src/app/api/auth/discord/route.ts:27 | the query of `base + "?" + q`, for a base without `?`, is q |
| Http.StoreCookies | src/app/api/auth/discord/callback/route.ts:36-37 | a browser keeps each live cookie it is sent, drops each expired one, and keeps the rest of its jar unchanged (also lines 113-120) |
| Http.ResponseCookies.Set | src/app/api/auth/discord/route.ts:36-42 | `cookies.set` replaces the entry under that name and no other |
| Http.ResponseCookies.constructor | src/app/api/auth/discord/route.ts:32 | a new response has no cookies |
| Origins.AllowedOriginsHaveNoQuery | src/middleware.ts:12-16 | no allowed origin contains `?`, so a path appended to one starts the URL's path |
| DiscordEnv.RedirectUri | src/app/api/auth/discord/route.ts:7-8 | the configured redirect URI when set and non-empty, else the production callback |
| DiscordAuthorize.AuthorizeUrl | src/app/api/auth/discord/route.ts:18-27 | the URL starts with Discord's authorize endpoint and its query parses back to exactly the given parameters |
| DiscordAuthorize.FlowCookies | src/app/api/auth/discord/route.ts:36-55 | the state cookie always; the tier cookie exactly when the `tier` parameter names a paid tier, with that tier; no other cookie |
| DiscordAuthorize.Authorize | src/app/api/auth/discord/route.ts:10-59 | 503 with the error when no client id is set; otherwise a 302 to Discord whose query is client id, redirect URI, `code`, `identify email`, state, `consent`, with the flow cookies |
| DiscordAuthorize.Get | src/app/api/auth/discord/route.ts:10-59 | the handler, building the cookies step by step, answers what `Authorize` specifies |
| DiscordAuthorize.StateEchoedInLocation | src/app/api/auth/discord/route.ts:16-36 | the `state` Discord receives is the value of the state cookie |
| DiscordAuthorize.ClientAndRedirectInLocation | src/app/api/auth/discord/route.ts:19-20 | Discord receives the route's client id and the configured redirect URI |
| DiscordCallback.TakeAuthority | src/app/api/auth/discord/callback/route.ts:27 | the authority is the longest prefix of the rest of the URL holding no `/`, `?`, `#` or `\`: it runs up to the first of them or to the end |
| DiscordCallback.HeaderOrigin | src/app/api/auth/discord/callback/route.ts:19-22 | the forwarded (else plain) host with the forwarded scheme or `https`; none without a host |
| DiscordCallback.HostOfSuffix | src/app/api/auth/discord/callback/route.ts:27 | the host is a suffix of the authority with no `@`, and either the whole authority or preceded by `@` |
| DiscordCallback.HostOfNoUserinfo | src/app/api/auth/discord/callback/route.ts:27 | an authority without `@` is all host |
| DiscordCallback.OriginOf | src/app/api/auth/discord/callback/route.ts:27 | `new URL(u).origin`: it starts with `https://` or `http://` and holds no `?` |
| DiscordCallback.OriginOfParts | src/app/api/auth/discord/callback/route.ts:27 | the origin keeps u's scheme and `://`, then a non-empty host taken from the authority after its last `@`; it holds no `@` and no path, query or fragment character |
| DiscordCallback.OriginWithoutUserinfo | src/app/api/auth/discord/callback/route.ts:27 | without userinfo the origin is the prefix of u that ends where the path, query or fragment begins |
| DiscordCallback.UserinfoDropped | src/app/api/auth/discord/callback/route.ts:27 | the origin of `https://u@h/cb` is `https://h` |
| DiscordCallback.GetOrigin | src/app/api/auth/discord/callback/route.ts:18-28 | the header origin (default scheme `https`) when it is allowed; whenever it is missing or not allowed, the origin of the redirect URI |
| DiscordCallback.StateMatchesIff | src/app/api/auth/discord/callback/route.ts:63-68 | the length check plus `timingSafeEqual` on the UTF-8 buffers accepts exactly a returned state equal to the stored one |
| DiscordCallback.Precheck | src/app/api/auth/discord/callback/route.ts:47-68 | the checks pass exactly when there is no provider error, code and state are present and the stored state equals the returned one; a provider error always gives "Authorization denied"; otherwise a missing code or state gives `missing_params`, a missing state cookie `expired_state`, and a different stored state `invalid_state` |
| DiscordCallback.CheckRequest | src/app/api/auth/discord/callback/route.ts:42-68 | the handler's checks, in their order, return the reason `Precheck` specifies |
| DiscordCallback.ExchangeCallFor | src/app/api/auth/discord/callback/route.ts:70-80 | the backend is called exactly when the checks pass, with the returned code and the configured redirect URI |
| DiscordCallback.VerdictOf | src/app/api/auth/discord/callback/route.ts:47-126 | a sign-in exactly when the checks pass and the exchange is OK, with the body's non-empty token; the body's error or `discord_auth_failed` on a refusal; `service_unavailable` on a throw |
| DiscordCallback.ErrorResponse | src/app/api/auth/discord/callback/route.ts:31-39 | a 307 to `{origin}/login?error=…` that clears both flow cookies |
| DiscordCallback.SuccessPath | src/app/api/auth/discord/callback/route.ts:89-98 | the landing path is under `/dashboard` |
| DiscordCallback.SuccessResponse | src/app/api/auth/discord/callback/route.ts:93-120 | a 307 to the dashboard (or the checkout of the paid tier in the tier cookie), setting the session cookie exactly when a token came, clearing both flow cookies |
| DiscordCallback.Respond | src/app/api/auth/discord/callback/route.ts:31-39 | every answer is a 307 on the origin that clears both flow cookies; a session cookie only on a sign-in with a token (also lines 89-122) |
| DiscordCallback.ErrorResponseOnOrigin | src/app/api/auth/discord/callback/route.ts:31-39 | the error redirect's location starts with the origin, and it sets only the two flow cookies |
| DiscordCallback.SuccessResponseOnOrigin | src/app/api/auth/discord/callback/route.ts:113-122 | the sign-in redirect's location starts with the origin |
| DiscordCallback.Decide | src/app/api/auth/discord/callback/route.ts:41-126 | the error redirect with the first failed check's reason; after an accepted exchange the sign-in redirect with the body's non-empty token; after a refusal the error redirect with the body's error or `discord_auth_failed`; after a throw with `service_unavailable` |
| DiscordCallback.ErrorRedirect | src/app/api/auth/discord/callback/route.ts:31-39 | the handler's error redirect answers what `ErrorResponse` specifies |
| DiscordCallback.SignIn | src/app/api/auth/discord/callback/route.ts:88-122 | the handler's success path answers what `SuccessResponse` specifies |
| DiscordCallback.Get | src/app/api/auth/discord/callback/route.ts:41-127 | the handler sends the exchange `ExchangeCallFor` specifies and answers what `Respond` gives for the `VerdictOf` verdict |
| DiscordCallback.NoExchangeNoInfluence | src/app/api/auth/discord/callback/route.ts:47-68 | when the checks reject a request the backend's answer cannot change the response |
| DiscordCallback.ErrorQueryParses | src/app/api/auth/discord/callback/route.ts:34 | the query of an error redirect parses to the single pair `error` = reason |
| DiscordCallback.ErrorLocationReadable | src/app/api/auth/discord/callback/route.ts:33-35 | on any origin without `?`, the login address built with an error reads back, in `error`, exactly that error |
| DiscordCallback.ErrorReasonReadable | src/app/api/auth/discord/callback/route.ts:34 | the login page reads back, in `error`, exactly the reason the route gave |
| OAuthFlow.ReturnParams | src/app/api/auth/discord/callback/route.ts:43-45 | Discord's return query carries the code and the state and no `error` |
| OAuthFlow.StoredStateAfterAuthorize | src/app/api/auth/discord/route.ts:36-42 | after the authorize redirect the browser holds the state in the state cookie |
| OAuthFlow.StateRoundTrip | src/app/api/auth/discord/route.ts:16-42 | a started sign-in returned with the state it sent passes every check, sends its code to the backend, and signs in on an OK exchange |
| OAuthFlow.TamperedStateRejected | src/app/api/auth/discord/callback/route.ts:63-68 | a returned state other than the stored one ends in `invalid_state` with no exchange, whatever the backend would say |
| OAuthFlow.CallbackConsumesState | src/app/api/auth/discord/callback/route.ts:36-37 | after any callback answer the browser holds neither flow cookie, so no later callback reaches the exchange (also lines 113-120) |
| OAuthFlow.ReplayExpires | src/app/api/auth/discord/callback/route.ts:57-60 | replaying Discord's redirect after it was used ends with `expired_state` |
| OAuthFlow.TierRoundTrip | src/app/api/auth/discord/route.ts:45-55 | a paid tier named when the sign-in starts is the checkout the sign-in lands on |
| OAuthFlow.NoTierLandsOnDashboard | src/app/api/auth/discord/callback/route.ts:94-98 | without a paid tier, and no earlier tier cookie, the sign-in lands on `/dashboard` |
| OAuthFlow.EarlierTierCookieSurvives | src/app/api/auth/discord/route.ts:44-55 | the authorize route never clears a tier cookie, so one left from an unfinished sign-in still sends a later sign-in to checkout |
| Middleware.GetOrigin | src/middleware.ts:19-31 | always an allowed origin: the header origin when allowed (scheme `http` by default for local hosts), else production |
| Middleware.Decide | src/middleware.ts:33-62 | a 302 to the login page with the path when a protected path has no token; a 302 to the dashboard for `/login` with a token; otherwise pass |
| Middleware.Handle | src/middleware.ts:64-66 | paths outside the matcher always pass; others get `Decide` |
| Middleware.IsLocalDevHost | src/middleware.ts:23 | the pattern `^(localhost\|0\.0\.0\.0)(:\|$)`: one of the two local names, alone or followed by a port |
| Middleware.DefaultProto | src/middleware.ts:22-23 | `http` for a local development host, else `https` |
| Middleware.HeaderOrigin | src/middleware.ts:20-25 | the forwarded (else plain) host with the forwarded or default scheme; none without a host |
| Middleware.IsProtectedRoute | src/middleware.ts:38-40 | the path starts with a protected route, that is `/dashboard` |
| Middleware.IsAuthRoute | src/middleware.ts:43 | the path starts with an auth route, that is `/login` |
| Middleware.LoginUrl | src/middleware.ts:50-51 | the login page on the origin with the single query parameter `redirect` set to the path |
| Middleware.Matches | src/middleware.ts:64-66 | the matcher: `/dashboard`, any path below it, and `/login` |
| Middleware.MatchedRoutes | src/middleware.ts:38-66 | among matched paths, the protected ones are exactly those under `/dashboard`, the only auth route is `/login`, and no path is both (also lines 5 and 10) |
| Middleware.RedirectParamRoundTrip | src/middleware.ts:50-51 | the `redirect` parameter of the login URL reads back exactly as the requested path |
| Middleware.NoRedirectLoop | src/middleware.ts:48-59 | following a redirect with the same cookie is not redirected again |
| Middleware.LocalDevOrigin | src/middleware.ts:19-31 | any request whose host is `localhost:3000` and that names no forwarded scheme gets the origin `http://localhost:3000` |
| Middleware.DefaultSchemeByHost | src/middleware.ts:20-25 | without a forwarded scheme, the origin is `http://` plus the host for a local development host and `https://` plus the host for any other |
| PasswordPolicy.FailedRules | src/app/register/page.tsx:26-32 | exactly the rules the password fails, each once, in the schema's order (min, upper, lower, digit, special); none exactly when it is acceptable |
| PasswordPolicy.MessageInjective | src/app/register/page.tsx:28-32 | each rule has a message of its own |
| PasswordPolicy.Messages | src/app/register/page.tsx:28-32 | each rule's own message, in the list's order; a rule's message occurs exactly when the rule is listed |
| PasswordPolicy.PasswordIssues | src/app/register/page.tsx:26-32 | the message of each failed rule and of no other, in the schema's order; each of the five messages is present exactly when its rule fails; none exactly when the password is acceptable; the length message first for a short password |
| PasswordPolicy.CountTrue | src/app/register/page.tsx:43-52 | the count of criteria met is at most the number of criteria |
| PasswordPolicy.Score | src/app/register/page.tsx:43-52 | the score is between 0 and 6 |
| PasswordPolicy.Strength | src/app/register/page.tsx:43-52 | the six successive increments compute the score |
| PasswordPolicy.RatingOf | src/app/register/page.tsx:54-64 | Weak exactly up to 2, Strong exactly above 4, Medium between |
| PasswordPolicy.StrengthMeter | src/app/register/page.tsx:66-83 | nothing for an empty password; otherwise six segments, segment i lit in the rating's colour exactly when i is below the score, with the rating's text and class |
| PasswordPolicy.LitPrefix | src/app/register/page.tsx:71-76 | six segments lit on a prefix of length k have k lit segments |
| PasswordPolicy.MeterShowsScore | src/app/register/page.tsx:71-76 | the meter lights exactly as many segments as the score |
| PasswordPolicy.AcceptableIsStrong | src/app/register/page.tsx:26-58 | every password the schema accepts scores at least 5 and is rated Strong |
| PasswordPolicy.StrongIsNotAcceptable | src/app/register/page.tsx:26-58 | a Strong password can still be refused: `abcdefghijk1!` lacks only an upper-case letter |
| Forms.FieldMessage | src/app/register/page.tsx:35-38 | the message under a field exists exactly when an issue names that field, and it is the first such issue |
| Forms.FieldMessageAppend | src/app/register/page.tsx:23-38 | on two issue lists one after the other, a field shows the first list's message when it has one |
| Forms.ThrownMessage | src/app/login/page.tsx:57 | `error instanceof Error ? error.message : fallback` |
| Forms.Submitted | src/app/login/page.tsx:50-61 | navigation exactly when the awaited call resolved, with the success toast; otherwise the thrown message or the fallback |
| LoginPage.LoginIssues | src/app/login/page.tsx:23-26 | no issue exactly when the email is valid and the password non-empty |
| LoginPage.RedirectToAsWritten | src/app/login/page.tsx:36-40 | the written filter: always starts with `/` and not `//`; keeps a parameter that does |
| LoginPage.LeavesSiteByFirstTwo | src/app/login/page.tsx:36-40 | without tabs or newlines up front, an address leaves the site exactly when it starts with two slash-like characters |
| LoginPage.LeavesSite | src/app/login/page.tsx:36-40 | a path-relative address the browser resolves to another host: after tabs and newlines are dropped it starts with two characters each `/` or `\` |
| LoginPage.AsWrittenCheckLeaks | src/app/login/page.tsx:36-40 | the written filter keeps `/\evil.com` and `/<TAB>/evil.com`, both of which leave the site |
| LoginPage.RedirectTo | src/app/login/page.tsx:36-40 | the intended filter: always a path that starts with `/` and stays on the site; keeps such a parameter |
| LoginPage.RedirectToRefinesAsWritten | src/app/login/page.tsx:36-40 | the intended filter differs from the written one only by refusing addresses that leave the site |
| LoginPage.RedirectToIdempotent | src/app/login/page.tsx:38-40 | each filter keeps its own answer |
| LoginPage.ReturnsToProtectedPath | src/app/login/page.tsx:37-40 | a dashboard path the middleware sent to the login page is where both filters return |
| LoginPage.DashboardPathPasses | src/app/login/page.tsx:38-40 | every path under `/dashboard` passes both filters |
| LoginPage.OnSubmit | src/app/login/page.tsx:50-61 | navigation exactly after a resolved login, to the written filter's answer (so a path that starts with `/` and not `//`), with the welcome toast; otherwise the thrown message or "Login failed" |
| LoginPage.OnSubmitLeavesSite | src/app/login/page.tsx:36-55 | after `redirect=/%5Cevil.com` a successful sign-in navigates to `/\evil.com`, which leaves the site |
| LoginPage.OnSubmitIntended | src/app/login/page.tsx:36-61 | the submit with the intended filter: navigation exactly after a resolved login, always to a path on the site |
| RegisterPage.RegisterIssues | src/app/register/page.tsx:23-38 | no issue exactly when the email is valid, the password acceptable and the confirmation equal; the mismatch shows on the confirmation field; the first password rule shows on the password field |
| RegisterPage.OnField | src/app/register/page.tsx:26-32 | every message of a string check is reported on that field, in order |
| RegisterPage.OnSubmit | src/app/register/page.tsx:103-114 | the dashboard opens exactly when the sign-up resolved, with the success toast; a thrown `Error` toasts its message (the backend refusal `AuthContext.RegisterError` composed); any other throw toasts "Registration failed" |
| ResetPasswordPage.ResetIssues | src/app/reset-password/page.tsx:22-36 | no issue exactly when the password is acceptable and the confirmation equal |
| ResetPasswordPage.SameRulesAsRegister | src/app/reset-password/page.tsx:22-36 | the reset schema reports what the register schema reports with a valid email |
| ResetPasswordPage.ResetPasswordForm.constructor | src/app/reset-password/page.tsx:96-103 | `ready` with a token; otherwise the error status with the no-token message |
| ResetPasswordPage.ResetPasswordForm.HandleSubmit | src/app/reset-password/page.tsx:111-116 | a request exactly when the schema passes, a token exists and no earlier submit was accepted; then `submitting`, and at most one request per page |
| ResetPasswordPage.ResetPasswordForm.Complete | src/app/reset-password/page.tsx:118-139 | success exactly on an OK answer; otherwise the error status with the body's error, the fallback, or the thrown message |
| ResetPasswordPage.ResetPasswordForm.RedirectScheduled | src/app/reset-password/page.tsx:143-147 | the move to the dashboard is scheduled exactly on success |
| ResetPasswordPage.ResetPasswordForm.ShowsForm | src/app/reset-password/page.tsx:211 | the form is shown exactly in the `ready` status |
| ResetPasswordPage.ResetPasswordForm.Title | src/app/reset-password/page.tsx:143-166 | "Password Reset!" exactly when the redirect is scheduled |
| ResetPasswordPage.SubmitTwice | src/app/reset-password/page.tsx:111-116 | two valid submits send one request |
| ResetPasswordPage.RetryAfterFailure | src/app/reset-password/page.tsx:113-139 | a failed request cannot be retried on the same page |
| AuthContext.RegisterError | src/contexts/AuthContext.tsx:128-130 | the refused sign-up's error, else its first detail, else "Registration failed" |
| AuthContext.AuthProvider.constructor | src/contexts/AuthContext.tsx:39-41 | nobody signed in, loading |
| AuthContext.AuthProvider.Hydrate | src/contexts/AuthContext.tsx:78-90 | a stored snapshot is shown; an unreadable stored text is removed |
| AuthContext.AuthProvider.ValidateSession | src/contexts/AuthContext.tsx:44-75 | an accepted session is shown and stored, a refused one cleared and removed, anything else changes nothing; loading ends |
| AuthContext.AuthProvider.Login | src/contexts/AuthContext.tsx:99-116 | a refusal throws the error (or "Login failed") and changes nothing; an OK answer shows the user and revalidates; a revalidated session is also stored, a refused one removed from storage |
| AuthContext.AuthProvider.Register | src/contexts/AuthContext.tsx:118-135 | as login, throwing `RegisterError`: a refusal changes nothing; an OK answer shows the user and revalidates, storing an accepted session and removing a refused one |
| AuthContext.AuthProvider.Logout | src/contexts/AuthContext.tsx:137-155 | nobody is signed in and the stored copy is gone, whatever the request did |
| AuthContext.AuthProvider.IsAuthenticated | src/contexts/AuthContext.tsx:161 | someone is signed in |
| AuthContext.ReloadAfterValidation | src/contexts/AuthContext.tsx:50-86 | a reload after an accepted session shows the same user and subscription at once |
| AuthContext.ReloadAfterLogout | src/contexts/AuthContext.tsx:150-154 | a reload after logout shows nobody (also lines 81-86) |
| AuthContext.UnreadableIsDropped | src/contexts/AuthContext.tsx:87-89 | a stored text that cannot be read is gone after the next load |
| BillingPage.CurrentTier | src/app/dashboard/billing/page.tsx:60-62 | a known tier: the subscription's when known, else free |
| BillingPage.Rank | src/app/dashboard/billing/page.tsx:235-238 | the tier order free < bench < rookie < mvp |
| BillingPage.IsUpgrade | src/app/dashboard/billing/page.tsx:235-238 | the written `isUpgrade` test: from free, or a card above bench or rookie |
| BillingPage.UpgradeIsRankOrder | src/app/dashboard/billing/page.tsx:235-238 | `isUpgrade` holds exactly when the card's tier ranks above the current one |
| BillingPage.CardButtonFor | src/app/dashboard/billing/page.tsx:283-304 | "Current Plan" exactly on the current tier, "Upgrade" exactly above it, "Manage in Portal" exactly below it |
| BillingPage.ShowsManageBilling | src/app/dashboard/billing/page.tsx:183 | "Manage Billing" is shown on every paid plan |
| BillingPage.PlanLine | src/app/dashboard/billing/page.tsx:170 | "No active plan" for free, else the tier's price per month |
| BillingPage.CeilDiv | src/app/dashboard/billing/page.tsx:68 | `Math.ceil(a / d)`: the least q with a at most d·q |
| BillingPage.TrialDaysRemaining | src/app/dashboard/billing/page.tsx:64-69 | a number exactly while trialing with an end date; 0 once the end has passed; otherwise the whole days left, rounded up |
| BillingPage.EndingOf | src/app/dashboard/billing/page.tsx:88-98 | no toast exactly on an OK answer, which moves to its URL when there is one; otherwise the error, fallback or thrown message |
| BillingPage.BillingView.constructor | src/app/dashboard/billing/page.tsx:57 | nothing is loading |
| BillingPage.BillingView.BeginUpgrade | src/app/dashboard/billing/page.tsx:74-86 | the card's tier is loading; checkout returns to the billing page with `checkout=success` or `canceled` |
| BillingPage.BillingView.FinishUpgrade | src/app/dashboard/billing/page.tsx:88-101 | nothing is loading afterwards, whatever happened |
| BillingPage.BillingView.BeginManageBilling | src/app/dashboard/billing/page.tsx:104-114 | the portal is loading and returns to the billing page |
| BillingPage.BillingView.FinishManageBilling | src/app/dashboard/billing/page.tsx:116-129 | nothing is loading afterwards, whatever happened |
| BillingPage.BillingView.UpgradeDisabled | src/app/dashboard/billing/page.tsx:290 | a card's button is disabled while that card's checkout loads |
| BillingPage.BillingView.PortalDisabled | src/app/dashboard/billing/page.tsx:186 | the portal button is disabled while the portal loads |
| BillingPage.CheckoutCycle | src/app/dashboard/billing/page.tsx:75 | a started checkout disables only its own card, not the portal, and nothing once it ends (also lines 100, 290, 186) |
| KeysPage.GenerateEnabled | src/app/dashboard/keys/page.tsx:167 | enabled exactly below the key limit, verified and not on the free tier |
| KeysPage.IsVerified | src/app/dashboard/keys/page.tsx:47 | the signed-in user's email is verified |
| KeysPage.IsFreeTier | src/app/dashboard/keys/page.tsx:48 | the subscription's tier is missing, empty or `free` |
| KeysPage.Tooltip | src/app/dashboard/keys/page.tsx:169 | the free-tier tip first, then the verification tip; none exactly when verified on a paid tier |
| KeysPage.TooltipExplainsDisabled | src/app/dashboard/keys/page.tsx:167-169 | an enabled button has no tooltip; a button disabled below the key limit has one |
| KeysPage.OneBannerExplains | src/app/dashboard/keys/page.tsx:167-194 | never both banners, and one whenever the button is disabled below the key limit |
| KeysPage.KeyLabel | src/app/dashboard/keys/page.tsx:242 | `name \|\| "Unnamed"`: the key's name when it is non-empty, else "Unnamed" |
| KeysPage.DeleteLabel | src/app/dashboard/keys/page.tsx:342 | `keyToDelete?.name \|\| "this key"`: the selected key's name when it is non-empty, else "this key" |
| KeysPage.KeysView.constructor | src/app/dashboard/keys/page.tsx:49-59 | no keys, a limit of 5, loading, no dialog |
| KeysPage.KeysView.FetchKeysDone | src/app/dashboard/keys/page.tsx:67-82 | a body with `success` replaces keys and limit; a throw shows "Failed to load API keys"; loading ends |
| KeysPage.KeysView.OpenGenerate | src/app/dashboard/keys/page.tsx:165-167 | the generate dialog opens only when the button is enabled |
| KeysPage.KeysView.BeginGenerate | src/app/dashboard/keys/page.tsx:84-92 | generating; the typed name is sent, none when empty |
| KeysPage.KeysView.FinishGenerate | src/app/dashboard/keys/page.tsx:94-110 | on OK the new key is shown in its own dialog and the list refetched; otherwise the error toast and nothing else changes |
| KeysPage.KeysView.SelectKeyToDelete | src/app/dashboard/keys/page.tsx:275-278 | the key is selected and the delete dialog opens |
| KeysPage.KeysView.BeginDelete | src/app/dashboard/keys/page.tsx:122-124 | nothing at all without a selection; otherwise the selected key's id is sent |
| KeysPage.KeysView.FinishDelete | src/app/dashboard/keys/page.tsx:125-146 | on OK the dialog closes and the list is refetched; otherwise the dialog stays on the same key |
| KeysPage.KeysView.ConfirmNewKey | src/app/dashboard/keys/page.tsx:402-405 | the dialog closes and the key is forgotten |
| KeysPage.FreeTierCannotGenerate | src/app/dashboard/keys/page.tsx:48 | a free account never opens the generate dialog (also line 167) |
| KeysPage.NewKeyShownOnce | src/app/dashboard/keys/page.tsx:100-102 | a generated key is shown until confirmed and gone afterwards (also lines 402-405) |
| KeysPage.DeleteWithoutSelection | src/app/dashboard/keys/page.tsx:123 | pressing delete with no key selected sends nothing |
| OverviewPage.DisplayTier | src/app/dashboard/page.tsx:77-79 | a paid tier: the subscription's when paid, else bench |
| OverviewPage.TierLimits | src/app/dashboard/page.tsx:80-86 | bench 10000/20, rookie 75000/120, mvp 300000/400 per month/minute |
| OverviewPage.LimitsGrowWithTier | src/app/dashboard/page.tsx:80-86 | a higher tier has higher limits, per month and per minute |
| OverviewPage.UpgradeBanner | src/app/dashboard/page.tsx:228-233 | no banner exactly on mvp; "Rookie or MVP" on bench, "MVP" on rookie |
| OverviewPage.BannerIffHigherTier | src/app/dashboard/page.tsx:228-233 | the banner is shown exactly when a higher paid tier exists |
| OverviewPage.AccessLabel | src/app/dashboard/page.tsx:174-178 | "Full access" on mvp, "Standard access" on rookie, "Basic access" otherwise |
| OverviewPage.UsageFrom | src/app/dashboard/page.tsx:43-52 | usage exactly for a body with `success` and a first entry; its counters are that entry's, or 0/20 and 0/10000 when missing; its totals are the body's, each 0 when missing |
| OverviewPage.MaxKeysShown | src/app/dashboard/page.tsx:150 | `keys?.maxKeys \|\| 5`: the loaded limit when non-zero, else 5; never 0 |
| OverviewPage.OverviewView.constructor | src/app/dashboard/page.tsx:27-29 | nothing loaded, loading |
| OverviewPage.OverviewView.FetchDone | src/app/dashboard/page.tsx:31-74 | a failed request sets nothing; usage only from an OK, readable answer; keys only when the usage body did not throw and the keys answer is OK with `success`; loading ends |
| OverviewPage.LoadedKeyLimit | src/app/dashboard/page.tsx:150 | the page always shows a non-zero key limit, 5 when a request failed |
| AccountPage.Join | src/app/dashboard/account/page.tsx:151 | `join`: empty for no item, the item for one |
| AccountPage.JoinSnoc | src/app/dashboard/account/page.tsx:151 | joining one more item appends the separator and the item, so a list of details is its items with ". " between each two |
| AccountPage.ErrorMessage | src/app/dashboard/account/page.tsx:149-153 | a list of details joined by ". ", else a non-empty detail, else the error, else the fallback |
| AccountPage.ErrorMessageEmpty | src/app/dashboard/account/page.tsx:149-153 | the message is empty exactly for a details list that is empty or one empty item |
| AccountPage.ShowsChangeForm | src/app/dashboard/account/page.tsx:96 | the form is offered exactly to a signed-in user with a password |
| AccountPage.SubmitDisabled | src/app/dashboard/account/page.tsx:234 | disabled while loading or while any field is empty |
| AccountPage.ConstraintsMet | src/app/dashboard/account/page.tsx:192-227 | the browser's `required` and `minLength` 8 checks on the form |
| AccountPage.ChangePasswordForm.constructor | src/app/dashboard/account/page.tsx:124-127 | empty fields, not loading |
| AccountPage.ChangePasswordForm.Edit | src/app/dashboard/account/page.tsx:190-227 | typing sets the three fields |
| AccountPage.ChangePasswordForm.BeginSubmit | src/app/dashboard/account/page.tsx:129-137 | different new passwords are refused with no request and no loading; otherwise loading and the request (also lines 192, 207-208, 226-227) |
| AccountPage.ChangePasswordForm.FinishSubmit | src/app/dashboard/account/page.tsx:138-166 | on success the fields are cleared and the user refreshed; otherwise the composed error and the fields kept; loading ends |
| AccountPage.ChangeOnce | src/app/dashboard/account/page.tsx:157-160 | after a successful change the button is disabled; after a refusal it is not (also lines 234) |
| VerifyEmailPage.VerifyResult | src/app/verify-email/page.tsx:44-55 | verified exactly on an OK answer with `success`; otherwise failed with the body's error, "Verification failed", or the network message |
| VerifyEmailPage.VerifyEmailView.constructor | src/app/verify-email/page.tsx:22-29 | verifying with a token, idle without; no cooldown |
| VerifyEmailPage.VerifyEmailView.VerifyDone | src/app/verify-email/page.tsx:32-59 | the status and message of `VerifyResult`; the user is refreshed and "Email verified successfully!" toasted exactly on success |
| VerifyEmailPage.VerifyEmailView.Tick | src/app/verify-email/page.tsx:62-68 | the cooldown drops by one while positive, and never below 0 |
| VerifyEmailPage.VerifyEmailView.ResendButtonShown | src/app/verify-email/page.tsx:137-167 | on the waiting page always; on the failure page for a signed-in user whose email is unverified |
| VerifyEmailPage.VerifyEmailView.ResendDisabled | src/app/verify-email/page.tsx:137-167 | disabled while sending, while the cooldown runs, and on the waiting page with nobody signed in |
| VerifyEmailPage.VerifyEmailView.ClickResend | src/app/verify-email/page.tsx:70-71 | a resend starts exactly when the button is shown and enabled (also lines 137-140, 165-167) |
| VerifyEmailPage.VerifyEmailView.ResendDone | src/app/verify-email/page.tsx:70-88 | a sent email starts the 60-second cooldown; otherwise the error toast and no cooldown change |
| VerifyEmailPage.VerifyEmailView.ResendCaption | src/app/verify-email/page.tsx:144-175 | "Sending..." while sending, the countdown while cooling down, the invitation otherwise |
| VerifyEmailPage.VerifyEmailView.Title | src/app/verify-email/page.tsx:103-107 | the title for each status |
| VerifyEmailPage.PromptIffEnabled | src/app/verify-email/page.tsx:140-175 | for a signed-in user the button invites a resend exactly when it is enabled |
| VerifyEmailPage.CooldownRunsOut | src/app/verify-email/page.tsx:62-82 | after a resend the button is still disabled after 59 ticks and enabled after 60 |
| Sidebar.IsActive | src/components/dashboard/Sidebar.tsx:46-49 | Overview is highlighted only on `/dashboard` itself; any other entry on every path starting with its address |
| Sidebar.ActiveEntryDetermines | src/components/dashboard/Sidebar.tsx:16-49 | Overview is highlighted exactly on `/dashboard`; any other entry only on paths sharing its address's twelfth character |
| Sidebar.AtMostOneActive | src/components/dashboard/Sidebar.tsx:16-49 | no path highlights two entries |
| Sidebar.KeysPathHighlightsKeys | src/components/dashboard/Sidebar.tsx:17-49 | every path under `/dashboard/keys` highlights API Keys and not Overview |
| Sidebar.HighlightedPagesAreProtected | src/components/dashboard/Sidebar.tsx:16-49 | a highlighted entry means a page the middleware guards |
| Header.DisplayName | src/components/dashboard/Header.tsx:27 | the Discord name, else the email, else "Unknown" (no user, or neither name nor email); never empty |
| Header.Initials | src/components/dashboard/Header.tsx:28-32 | at most two characters: the upper-cased start of the Discord name, else of the email, else "??" |
| Header.InitialsOfDisplayName | src/components/dashboard/Header.tsx:27-32 | whenever a name is shown, the initials are the upper-cased start of that very name, and not empty |
| Header.UpperPrefix | src/components/dashboard/Header.tsx:29-31 | upper-casing keeps a prefix a prefix |
| Header.HeaderTier | src/components/dashboard/Header.tsx:34 | the subscription's tier when set and non-empty, else "free" |
| Header.PlanLabel | src/components/dashboard/Header.tsx:70 | the tier with its first character upper-cased, the rest unchanged, then " Plan" |

## Left out

- Network I/O, `AbortController`, `AbortSignal.timeout` and aborted requests: every request is
  an input outcome; a timeout is a throw; an aborted fetch, which the keys and overview pages
  ignore, is not modelled.
- `crypto.randomUUID`: the state is a parameter. `crypto.timingSafeEqual` is byte equality after
  the length check; its constant running time cannot be expressed.
- DiscordCallback members require a redirect URI with an `http:` or `https:` scheme and a host:
  with a malformed `DISCORD_REDIRECT_URI` the route's `new URL(...)` throws and Next.js answers
  500, which is not modelled.
- DiscordCallback.OriginOf drops userinfo but does not normalise the host: a default port (`:443` on https, `:80` on http) is kept, and scheme and host case and IDNA are not modelled.
- LoginPage.LeavesSite models the parts of WHATWG URL parsing that matter for a path-relative
  address (tab and newline removal, `\` read as `/`), not the whole parser.
- Zod's email pattern is an input boolean. The refine of the register and reset schemas is
  modelled as running even when a string check failed (zod 3 behaviour).
- `toUpperCase` is ASCII upper-casing, strings are sequences of code points rather than UTF-16
  units, and lone surrogates are not modelled; the `substring(0, 2)` of a name with characters
  outside the Basic Multilingual Plane can differ.
- UrlEncoding: `URLSearchParams` decoding of malformed `%` escapes (lossy UTF-8 decoding) is
  modelled only as far as the round trips need; `'` is treated as `encodeURIComponent` does.
- Dates and clocks: `getTrialDaysRemaining` takes the milliseconds left as an input; an
  unparseable date (NaN) is not modelled; `toLocaleDateString` and cookie expiry over time are
  left out.
- React rendering, the display of toasts (handlers return them as values), router navigation, timers: the 3-second redirect of the reset page
  is the predicate `RedirectScheduled`; the one-second interval of the verify page is `Tick`.
  The logout navigation race is left out because it concerns rendering order.
- The `isLoading` flags of the login and register pages only disable their buttons;
  `onSubmit` is modelled by how it ends.
- The billing page's status line, trial banner text and badge colours, the keys page's "N of M
  keys used" line, the dialogs' `onOpenChange`, the typing of the key name, and the reset
  page's checklist colours are presentation.
- The header's avatar image and its badge colours are presentation.
- The usage page, the landing pages and the thin proxy routes under `src/app/api/` are not part
  of this model; the proxies' one rule (set `token` only on an OK answer with a token) is the
  callback's `SuccessResponse` rule.

## Findings

| source | as written | input that shows it | evidently intended | confidence | as-written member | corrected member |
|---|---|---|---|---|---|---|
| src/app/login/page.tsx:36-40 | the return address is accepted when it starts with `/` and not `//` | `/login?redirect=/%5Cevil.com` (the address `/\evil.com`) or `/login?redirect=/%09/evil.com`; the browser reads both as `//evil.com` and leaves the site after sign-in | accept only addresses the browser resolves on this site, as the comment "prevent open redirect attacks" says | medium, not executed | LoginPage.RedirectToAsWritten, used by LoginPage.OnSubmit (exhibited by LoginPage.AsWrittenCheckLeaks and LoginPage.OnSubmitLeavesSite) | LoginPage.RedirectTo (proved never to leave the site, used by LoginPage.OnSubmitIntended) |
