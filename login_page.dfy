/** The login page: its form rules, the page it returns to after signing in (read from the
    `redirect` parameter the middleware sets), and how a submit ends. */
module LoginPage {
  import opened Common
  import opened UrlEncoding
  import opened Origins
  import opened Forms
  import M = Middleware

  const PasswordRequired: string := "Password is required"
  const Welcome: string := "Welcome back!"
  const LoginFailed: string := "Login failed"
  const Fallback: string := "/dashboard"

  /** `loginSchema`: a valid email address (whether zod's email pattern accepts it is an input)
      and a non-empty password. */
  function LoginIssues(emailValid: bool, password: string): (r: seq<Issue>)
    ensures r == [] <==> emailValid && password != ""
    ensures !emailValid ==> FieldMessage(r, Email) == Some(InvalidEmail)
    ensures password == "" ==> FieldMessage(r, Password) == Some(PasswordRequired)
  {
    (if !emailValid then [Issue(Email, InvalidEmail)] else []) +
    (if |password| < 1 then [Issue(Password, PasswordRequired)] else [])
  }

  // ---------------------------------------------------------------- the return address

  /** `redirectTo` as the page computes it: the parameter when it starts with `/` but not
      with `//`, else the dashboard. */
  function RedirectToAsWritten(redirectParam: Option<string>): (r: string)
    ensures StartsWith(r, "/") && !StartsWith(r, "//")
    ensures Truthy(redirectParam) && StartsWith(redirectParam.value, "/") && !StartsWith(redirectParam.value, "//")
            ==> r == redirectParam.value
  {
    if Truthy(redirectParam) && StartsWith(redirectParam.value, "/") && !StartsWith(redirectParam.value, "//") then
      redirectParam.value
    else
      assert Fallback[..1] == "/" && Fallback[1] == 'd';
      Fallback
  }

  predicate IsTabOrNewline(c: char) { c == '\t' || c == '\n' || c == '\r' }

  /** The URL parser drops every tab, line feed and carriage return of its input. */
  function StripTabsAndNewlines(s: string): string {
    if s == [] then "" else (if IsTabOrNewline(s[0]) then "" else [s[0]]) + StripTabsAndNewlines(s[1..])
  }

  /** Against an `https:` base, a backslash is read as a slash. */
  predicate IsSlashLike(c: char) { c == '/' || c == '\\' }

  /** A path-relative address that a browser resolves to another host: after the parser's
      clean-up it begins with two slashes (or backslashes), which start an authority. */
  predicate LeavesSite(href: string) {
    var t := StripTabsAndNewlines(href);
    |t| >= 2 && IsSlashLike(t[0]) && IsSlashLike(t[1])
  }

  /** With no tab or newline in its first two characters, an address leaves the site exactly
      when those two characters are slashes or backslashes. */
  lemma LeavesSiteByFirstTwo(s: string)
    requires |s| >= 2 && !IsTabOrNewline(s[0]) && !IsTabOrNewline(s[1])
    ensures LeavesSite(s) <==> IsSlashLike(s[0]) && IsSlashLike(s[1])
  {
    assert StripTabsAndNewlines(s) == [s[0]] + StripTabsAndNewlines(s[1..]);
    assert StripTabsAndNewlines(s[1..]) == [s[1]] + StripTabsAndNewlines(s[2..]);
  }

  /** The check of `RedirectToAsWritten` lets through addresses that take the browser to
      another host: after `/login?redirect=/%5Cevil.com` or `/login?redirect=/%09/evil.com`
      the user is sent to `https://evil.com/` once signed in. */
  lemma AsWrittenCheckLeaks()
    ensures RedirectToAsWritten(Some("/\\evil.com")) == "/\\evil.com" && LeavesSite("/\\evil.com")
    ensures RedirectToAsWritten(Some("/\t/evil.com")) == "/\t/evil.com" && LeavesSite("/\t/evil.com")
  {
    PassesAsWritten("/\\evil.com");
    PassesAsWritten("/\t/evil.com");
    BackslashLeaves();
    TabLeaves();
  }

  lemma PassesAsWritten(s: string)
    requires |s| >= 2 && s[0] == '/' && s[1] != '/'
    ensures RedirectToAsWritten(Some(s)) == s
  {
    assert s[..1] == "/";
  }

  lemma BackslashLeaves()
    ensures LeavesSite("/\\evil.com")
  {
    LeavesSiteByFirstTwo("/\\evil.com");
  }

  lemma TabLeaves()
    ensures LeavesSite("/\t/evil.com")
  {
    var tab := "/\t/evil.com";
    var rest := tab[2..];
    assert StripTabsAndNewlines(tab) == "/" + StripTabsAndNewlines(tab[1..]);
    assert StripTabsAndNewlines(tab[1..]) == StripTabsAndNewlines(rest);
    assert StripTabsAndNewlines(rest) == "/" + StripTabsAndNewlines(rest[1..]);
  }

  /** `redirectTo` with the check the page intends: a path on this site. The parameter is
      used when it starts with `/` and the browser would not read it as another host. */
  function RedirectTo(redirectParam: Option<string>): (r: string)
    ensures StartsWith(r, "/") && !LeavesSite(r)
    ensures Truthy(redirectParam) && StartsWith(redirectParam.value, "/") && !LeavesSite(redirectParam.value)
            ==> r == redirectParam.value
  {
    if Truthy(redirectParam) && StartsWith(redirectParam.value, "/") && !LeavesSite(redirectParam.value) then
      redirectParam.value
    else
      assert Fallback[..1] == "/" && Fallback[1] == 'd';
      LeavesSiteByFirstTwo(Fallback);
      Fallback
  }

  /** The intended check refuses everything the written one refuses, and beyond that only
      addresses that leave the site. */
  lemma RedirectToRefinesAsWritten(redirectParam: Option<string>)
    ensures RedirectTo(redirectParam) == RedirectToAsWritten(redirectParam) ||
            (RedirectToAsWritten(redirectParam) == redirectParam.value && LeavesSite(redirectParam.value) &&
             RedirectTo(redirectParam) == Fallback)
  {
    if Truthy(redirectParam) && StartsWith(redirectParam.value, "//") {
      var s := redirectParam.value;
      assert s[..2] == "//";
      assert s[0] == '/' && s[1] == '/';
      LeavesSiteByFirstTwo(s);
    }
  }

  /** Either check, applied to its own answer, keeps it. */
  lemma RedirectToIdempotent(redirectParam: Option<string>)
    ensures RedirectTo(Some(RedirectTo(redirectParam))) == RedirectTo(redirectParam)
    ensures RedirectToAsWritten(Some(RedirectToAsWritten(redirectParam))) == RedirectToAsWritten(redirectParam)
  {
  }

  /** A dashboard path that the middleware sent to the login page is where the user returns
      to: the address survives the round trip through the `redirect` parameter and passes
      both checks. */
  lemma ReturnsToProtectedPath(req: M.Request)
    requires M.IsProtectedRoute(req.pathname) && !Truthy(req.token)
    ensures var loc := M.Decide(req).location;
      RedirectTo(QueryGet(QueryOf(loc), "redirect")) == req.pathname &&
      RedirectToAsWritten(QueryGet(QueryOf(loc), "redirect")) == req.pathname
  {
    assert StartsWith(req.pathname, M.ProtectedRoutes[0]);
    ReturnsToDashboardPath(M.GetOrigin(req.headers), req.pathname);
  }

  lemma ReturnsToDashboardPath(origin: string, p: string)
    requires origin in AllowedOrigins && StartsWith(p, "/dashboard")
    ensures var param := QueryGet(QueryOf(M.LoginUrl(origin, p)), "redirect");
      RedirectTo(param) == p && RedirectToAsWritten(param) == p
  {
    M.RedirectParamRoundTrip(origin, p);
    DashboardPathPasses(p);
  }

  lemma DashboardPathPasses(p: string)
    requires StartsWith(p, "/dashboard")
    ensures RedirectTo(Some(p)) == p && RedirectToAsWritten(Some(p)) == p
  {
    assert p[..1] == "/" && p[1] == 'd';
    LeavesSiteByFirstTwo(p);
  }

  // ---------------------------------------------------------------- submit

  /** How `onSubmit` ends, with the page's own check: a welcome and the return address, or the
      thrown message. */
  function OnSubmit(redirectParam: Option<string>, login: Completion): (e: Effect)
    ensures e.navigate.Some? <==> login.Resolved?
    ensures login.Resolved? ==> e.navigate == Some(RedirectToAsWritten(redirectParam))
    ensures e.navigate.Some? ==> StartsWith(e.navigate.value, "/") && !StartsWith(e.navigate.value, "//")
    ensures login.Resolved? ==> e.toast == SuccessToast(Welcome)
    ensures login.ThrewError? ==> e.toast == ErrorToast(login.message)
    ensures login.ThrewOther? ==> e.toast == ErrorToast(LoginFailed)
  {
    Submitted(login, Welcome, RedirectToAsWritten(redirectParam), LoginFailed)
  }

  /** After `/login?redirect=/%5Cevil.com`, a successful sign-in takes the user off the site. */
  lemma OnSubmitLeavesSite()
    ensures OnSubmit(Some("/\\evil.com"), Resolved).navigate == Some("/\\evil.com")
    ensures LeavesSite(OnSubmit(Some("/\\evil.com"), Resolved).navigate.value)
  {
    AsWrittenCheckLeaks();
  }

  /** `onSubmit` with the intended check: it only ever navigates to a path on this site. */
  function OnSubmitIntended(redirectParam: Option<string>, login: Completion): (e: Effect)
    ensures e.navigate.Some? <==> login.Resolved?
    ensures login.Resolved? ==> e.navigate == Some(RedirectTo(redirectParam))
    ensures e.navigate.Some? ==> StartsWith(e.navigate.value, "/") && !LeavesSite(e.navigate.value)
    ensures login.Resolved? ==> e.toast == SuccessToast(Welcome)
    ensures login.ThrewError? ==> e.toast == ErrorToast(login.message)
    ensures login.ThrewOther? ==> e.toast == ErrorToast(LoginFailed)
  {
    Submitted(login, Welcome, RedirectTo(redirectParam), LoginFailed)
  }
}
