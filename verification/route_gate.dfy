/** The request-routing policy of `middleware.ts`: a total decision from whether the
    request carries a session token and its path. Rules are tried in order and the
    first that fires decides. */
module RouteGate {
  import opened Text

  datatype Decision = Pass | RedirectHome | RedirectLogin

  /** The two pages a signed-in user is sent away from. */
  predicate IsAuthPage(path: string)
  {
    path == "/login" || path == "/register"
  }

  /** Paths let through whatever the token state (rule 2). */
  predicate IsPublic(path: string)
  {
    path == "/" || StartsWith(path, "/api/auth") || IsAuthPage(path)
  }

  /** Paths an anonymous request is sent to the login page from (rules 3 and 4,
      without rule 4's `path == "/"` disjunct). Raw prefix tests: "/dashboardX" is
      protected too. */
  predicate IsProtected(path: string)
  {
    StartsWith(path, "/dashboard") || StartsWith(path, "/api/videos")
  }

  /** The middleware as written, rule by rule. */
  function Gate(hasToken: bool, path: string): (d: Decision)
    ensures d == RedirectHome <==> hasToken && IsAuthPage(path)
    ensures d == RedirectLogin <==> !hasToken && !IsPublic(path) && IsProtected(path)
    ensures d == Pass <==> (hasToken ==> !IsAuthPage(path)) && (!hasToken ==> IsPublic(path) || !IsProtected(path))
    ensures d == RedirectLogin ==> !hasToken
  {
    if hasToken && IsAuthPage(path) then RedirectHome
    else if IsPublic(path) then Pass
    else if !hasToken && StartsWith(path, "/dashboard") then RedirectLogin
    else if !hasToken && (path == "/" || StartsWith(path, "/api/videos")) then RedirectLogin
    else Pass
  }

  /** Rule 4's `path == "/"` disjunct never decides anything: dropping it gives the
      same decision for every request, because "/" has already passed at rule 2. */
  function GateWithoutDeadDisjunct(hasToken: bool, path: string): Decision
  {
    if hasToken && IsAuthPage(path) then RedirectHome
    else if IsPublic(path) then Pass
    else if !hasToken && StartsWith(path, "/dashboard") then RedirectLogin
    else if !hasToken && StartsWith(path, "/api/videos") then RedirectLogin
    else Pass
  }

  lemma HomeDisjunctIsDead(hasToken: bool, path: string)
    ensures Gate(hasToken, path) == GateWithoutDeadDisjunct(hasToken, path)
  {
  }

  /** Rule 1 is checked before rule 2: the auth pages are public, yet a signed-in
      request for them is redirected home. */
  lemma SignedInAuthPageGoesHome(path: string)
    requires IsAuthPage(path)
    ensures IsPublic(path)
    ensures Gate(true, path) == RedirectHome
    ensures Gate(false, path) == Pass
  {
  }

  /** Home and the auth callback area pass whatever the token state. */
  lemma PublicPathsPass(hasToken: bool, path: string)
    requires path == "/" || StartsWith(path, "/api/auth")
    ensures Gate(hasToken, path) == Pass
  {
    if StartsWith(path, "/api/auth") {
      assert path[1] == 'a';
    }
  }

  /** The dashboard test is a raw prefix test. */
  lemma DashboardPrefixIsRaw()
    ensures Gate(false, "/dashboardX") == RedirectLogin
    ensures Gate(true, "/dashboardX") == Pass
    ensures Gate(false, "/api/videos/1") == RedirectLogin
    ensures Gate(false, "/api/image") == Pass
  {
    assert StartsWith("/dashboardX", "/dashboard");
    assert StartsWith("/api/videos/1", "/api/videos");
    assert "/api/image"[..9][5] != "/api/auth"[5];
  }
}
