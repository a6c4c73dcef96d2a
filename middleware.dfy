/** The request middleware (src/middleware.ts): which paths it runs on,
    which paths are public, and the redirects that enforce sign-in. */
module Middleware {
  import opened Common

  const PublicRoutes: seq<string> := ["/", "/login", "/signup", "/api/auth"]

  /** A path is public when it is one of the public routes or lies below one
      (the route followed by `/`). */
  predicate IsPublic(path: string)
  {
    exists route :: route in PublicRoutes && (path == route || StartsWith(path, route + "/"))
  }

  /** The four routes spelled out. Below `/` only paths starting `//` count,
      so `/` does not make every path public. */
  lemma IsPublicExplicit(path: string)
    ensures IsPublic(path) <==>
      || path == "/" || path == "/login" || path == "/signup" || path == "/api/auth"
      || StartsWith(path, "//") || StartsWith(path, "/login/")
      || StartsWith(path, "/signup/") || StartsWith(path, "/api/auth/")
  {
    assert "/" + "/" == "//";
    assert "/login" + "/" == "/login/";
    assert "/signup" + "/" == "/signup/";
    assert "/api/auth" + "/" == "/api/auth/";
    if IsPublic(path) {
      var route :| route in PublicRoutes && (path == route || StartsWith(path, route + "/"));
    }
  }

  /** A prefix is ruled out by one differing (or missing) character. */
  lemma NotStartsWithAt(s: string, prefix: string, i: nat)
    requires i < |prefix| && (i >= |s| || s[i] != prefix[i])
    ensures !StartsWith(s, prefix)
  {
    if |prefix| <= |s| {
      assert s[..|prefix|][i] == s[i];
    }
  }

  /** Sample verdicts: sub-pages of public routes are public, look-alikes and
      the app's pages are not. */
  lemma PublicExamples()
    ensures IsPublic("/login/reset") && IsPublic("/api/auth/callback")
    ensures !IsPublic("/dashboard") && !IsPublic("/loginx") && !IsPublic("/api/authx")
  {
    IsPublicExplicit("/login/reset");
    IsPublicExplicit("/api/auth/callback");
    assert "/login/reset"[..7] == "/login/";
    assert "/api/auth/callback"[..10] == "/api/auth/";
    IsPublicExplicit("/dashboard");
    NotStartsWithAt("/dashboard", "//", 1);
    NotStartsWithAt("/dashboard", "/login/", 1);
    NotStartsWithAt("/dashboard", "/signup/", 1);
    NotStartsWithAt("/dashboard", "/api/auth/", 1);
    IsPublicExplicit("/loginx");
    NotStartsWithAt("/loginx", "//", 1);
    NotStartsWithAt("/loginx", "/login/", 6);
    NotStartsWithAt("/loginx", "/signup/", 1);
    NotStartsWithAt("/loginx", "/api/auth/", 1);
    IsPublicExplicit("/api/authx");
    NotStartsWithAt("/api/authx", "//", 1);
    NotStartsWithAt("/api/authx", "/login/", 1);
    NotStartsWithAt("/api/authx", "/signup/", 1);
    NotStartsWithAt("/api/authx", "/api/auth/", 9);
  }

  /** What the middleware answers. */
  datatype Decision =
    | PassThrough
    /** Redirect to `/login?redirectedFrom=<path>`. */
    | ToLogin(redirectedFrom: string)
    /** Redirect to `/dashboard`. */
    | ToDashboard

  /** The path a redirect leads to. */
  function Target(d: Decision): string
    requires !d.PassThrough?
  {
    if d.ToLogin? then "/login" else "/dashboard"
  }

  /** The middleware on one request path, given whether the session lookup found a session. */
  function Decide(path: string, hasSession: bool): (d: Decision)
    ensures d == ToLogin(path) <==> !IsPublic(path) && !hasSession
    ensures d == ToDashboard <==> hasSession && (path == "/login" || path == "/signup")
    ensures d.ToLogin? ==> d.redirectedFrom == path
  {
    if !IsPublic(path) && !hasSession then ToLogin(path)
    else if hasSession && (path == "/login" || path == "/signup") then ToDashboard
    else PassThrough
  }

  /** A signed-out visitor reaches only public paths; a signed-in one is never sent to sign in. */
  lemma AccessRules(path: string, hasSession: bool)
    ensures !hasSession && Decide(path, hasSession) == PassThrough ==> IsPublic(path)
    ensures hasSession ==> !Decide(path, hasSession).ToLogin?
  {
  }

  /** No redirect loop: following either redirect with the same session passes through. */
  lemma {:induction false} NoRedirectLoop(path: string, hasSession: bool)
    requires !Decide(path, hasSession).PassThrough?
    ensures Decide(Target(Decide(path, hasSession)), hasSession) == PassThrough
  {
    IsPublicExplicit("/login");
    if hasSession {
      assert Decide(path, hasSession) == ToDashboard;
      assert "/dashboard" != "/login" && "/dashboard" != "/signup";
    }
  }

  /** The prefixes the matcher excludes after the leading `/`; the `.` of
      `favicon.ico` is a regular-expression wildcard. */
  predicate Excluded(rest: string)
  {
    || StartsWith(rest, "_next/static")
    || StartsWith(rest, "_next/image")
    || (|rest| >= 11 && rest[..7] == "favicon" && rest[8..11] == "ico")
    || StartsWith(rest, "public/")
  }

  /** `config.matcher`: the paths the middleware runs on. */
  predicate Matched(path: string)
  {
    |path| >= 1 && path[0] == '/' && !Excluded(path[1..])
  }

  /** The whole middleware: paths outside the matcher are served untouched. */
  function Handle(path: string, hasSession: bool): (d: Decision)
    ensures d.ToLogin? <==> Matched(path) && !IsPublic(path) && !hasSession
    ensures d.ToLogin? ==> d.redirectedFrom == path
    ensures d == ToDashboard <==> Matched(path) && hasSession && (path == "/login" || path == "/signup")
  {
    if Matched(path) then Decide(path, hasSession) else PassThrough
  }

  /** Static assets are never redirected, even for a signed-out visitor,
      while an app page is. */
  lemma StaticAssetsPass(hasSession: bool)
    ensures Handle("/_next/static/chunk.js", hasSession) == PassThrough
    ensures Handle("/favicon.ico", hasSession) == PassThrough
  {
    assert "/_next/static/chunk.js"[1..][..12] == "_next/static";
    assert "/favicon.ico"[1..][..7] == "favicon" && "/favicon.ico"[1..][8..11] == "ico";
  }

  lemma DashboardNeedsSignIn()
    ensures Handle("/dashboard", false) == ToLogin("/dashboard")
  {
    var rest := "/dashboard"[1..];
    assert rest == "dashboard";
    NotStartsWithAt(rest, "_next/static", 0);
    NotStartsWithAt(rest, "_next/image", 0);
    NotStartsWithAt(rest, "public/", 0);
    assert rest[..7][0] == 'd';
    PublicExamples();
  }
}
