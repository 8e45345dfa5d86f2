/**
 * The request gate (middleware.ts). Every request whose path the route
 * matcher selects is decided from two things only: the pathname and whether
 * a `token` cookie with a non-empty value is present. The token itself is
 * never checked.
 */
module Middleware {
  import opened Common

  /** `NextResponse.next()` or `NextResponse.redirect(new URL(location, request.url))`. */
  datatype Decision = Next | Redirect(location: string)

  /** Paths that need no session, matched by plain prefix. */
  const PublicPaths: seq<string> := ["/login", "/api/auth/login", "/api/auth/register", "/api/seed"]

  /** Paths that a request without a session may still reach. */
  const StaticPrefixes: seq<string> := ["/_next", "/favicon.ico", "/public"]

  predicate IsPublic(pathname: string)
  {
    StartsWithAny(pathname, PublicPaths)
  }

  predicate IsStatic(pathname: string)
  {
    StartsWithAny(pathname, StaticPrefixes)
  }

  /** `request.cookies.get('token')?.value` is truthy: a cookie is there and it is not empty. */
  predicate HasToken(token: Option<string>)
  {
    token.Some? && Truthy(token.value)
  }

  /** The `middleware` function. */
  function Decide(pathname: string, token: Option<string>): (d: Decision)
    ensures d.Redirect? ==> d.location == "/dashboard" || d.location == "/login"
    ensures d == Redirect("/dashboard") ==> HasToken(token)
    ensures d == Redirect("/login") ==> !HasToken(token)
  {
    if IsPublic(pathname) && HasToken(token) then Redirect("/dashboard")
    else if !IsPublic(pathname) && !HasToken(token) && !IsStatic(pathname) then Redirect("/login")
    else Next
  }

  /**
   * The route matcher `/((?!_next/static|_next/image|favicon.ico).*)`: the
   * middleware does not run on these paths. The `.` in `favicon.ico` is a
   * regular-expression wildcard, so any one character may stand between
   * "favicon" and "ico".
   */
  predicate MatcherSkips(pathname: string)
  {
    || StartsWith(pathname, "/_next/static")
    || StartsWith(pathname, "/_next/image")
    || (|pathname| >= 12 && pathname[..8] == "/favicon" && pathname[9..12] == "ico")
  }

  /** What a request meets: the matcher first, then the middleware. */
  function Gate(pathname: string, token: Option<string>): (d: Decision)
    ensures d.Redirect? ==> d == Decide(pathname, token) && !MatcherSkips(pathname)
    ensures MatcherSkips(pathname) ==> d == Next
  {
    if MatcherSkips(pathname) then Next else Decide(pathname, token)
  }

  /** A path is public exactly when it starts with one of the four public prefixes. */
  lemma PublicPathIff(pathname: string)
    ensures IsPublic(pathname) <==>
      || StartsWith(pathname, "/login")
      || StartsWith(pathname, "/api/auth/login")
      || StartsWith(pathname, "/api/auth/register")
      || StartsWith(pathname, "/api/seed")
  {
    StartsWithAnyIff(pathname, PublicPaths);
    if IsPublic(pathname) {
      var i :| 0 <= i < |PublicPaths| && StartsWith(pathname, PublicPaths[i]);
    }
    if StartsWith(pathname, "/login") {
      assert StartsWith(pathname, PublicPaths[0]);
    } else if StartsWith(pathname, "/api/auth/login") {
      assert StartsWith(pathname, PublicPaths[1]);
    } else if StartsWith(pathname, "/api/auth/register") {
      assert StartsWith(pathname, PublicPaths[2]);
    } else if StartsWith(pathname, "/api/seed") {
      assert StartsWith(pathname, PublicPaths[3]);
    }
  }

  /** The test has no notion of path segments: `/login-x`, `/loginfoo` and `/login/x` are all public. */
  lemma LoginLookalikesArePublic(suffix: string)
    ensures IsPublic("/login" + suffix)
  {
    var p := "/login" + suffix;
    assert p[..|"/login"|] == "/login";
  }

  /** Every public path begins `/l` or `/a`. */
  lemma PublicSecondChar(pathname: string)
    requires IsPublic(pathname)
    ensures |pathname| >= 2 && (pathname[1] == 'l' || pathname[1] == 'a')
  {
    PublicPathIff(pathname);
    if StartsWith(pathname, "/login") {
      assert pathname[1] == pathname[..6][1];
    } else if StartsWith(pathname, "/api/auth/login") {
      assert pathname[1] == pathname[..15][1];
    } else if StartsWith(pathname, "/api/auth/register") {
      assert pathname[1] == pathname[..18][1];
    } else {
      assert pathname[1] == pathname[..9][1];
    }
  }

  /** The matcher never skips a public path: skipped paths begin `/_` or `/f`. */
  lemma PublicNotSkipped(pathname: string)
    requires IsPublic(pathname)
    ensures !MatcherSkips(pathname)
  {
    PublicSecondChar(pathname);
  }

  /**
   * A public path with a token is sent to the dashboard, whatever the token
   * holds, and a public path without one passes.
   */
  lemma PublicPathDecision(pathname: string, token: Option<string>)
    requires IsPublic(pathname)
    ensures HasToken(token) ==> Gate(pathname, token) == Redirect("/dashboard")
    ensures !HasToken(token) ==> Gate(pathname, token) == Next
  {
    PublicNotSkipped(pathname);
  }

  /**
   * A protected path without a token is sent to the login page unless it is
   * static or skipped by the matcher; with any non-empty token it passes.
   */
  lemma ProtectedPathDecision(pathname: string, token: Option<string>)
    requires !IsPublic(pathname)
    ensures !HasToken(token) && !IsStatic(pathname) && !MatcherSkips(pathname) ==>
      Gate(pathname, token) == Redirect("/login")
    ensures HasToken(token) || IsStatic(pathname) || MatcherSkips(pathname) ==>
      Gate(pathname, token) == Next
  {
  }

  /** Nothing verifies the token: any two non-empty tokens get the same decision on every path. */
  lemma TokenNeverVerified(pathname: string, t1: Option<string>, t2: Option<string>)
    requires HasToken(t1) && HasToken(t2)
    ensures Gate(pathname, t1) == Gate(pathname, t2)
  {
  }

  /** `/dashboard` is protected and `/login` is public; neither is skipped by the matcher. */
  lemma RedirectTargets()
    ensures !IsPublic("/dashboard") && !IsStatic("/dashboard") && !MatcherSkips("/dashboard")
    ensures IsPublic("/login") && !MatcherSkips("/login")
  {
    var d := "/dashboard";
    assert |d| == 10 && d[1] == 'd';
    PrefixChar(d, "/login", 1);
    PrefixChar(d, "/api/auth/login", 1);
    PrefixChar(d, "/api/auth/register", 1);
    PrefixChar(d, "/api/seed", 1);
    PrefixChar(d, "/_next", 1);
    PrefixChar(d, "/public", 1);
    PublicPathIff(d);
    StartsWithAnyIff(d, StaticPrefixes);
    LoginLookalikesArePublic("");
    assert "/login" + "" == "/login";
    PublicNotSkipped("/login");
  }

  /** No redirect loop: following a redirect with the same cookie passes at once. */
  lemma NoRedirectLoop(pathname: string, token: Option<string>)
    ensures Gate(pathname, token).Redirect? ==> Gate(Gate(pathname, token).location, token) == Next
  {
    RedirectTargets();
  }

  /**
   * The paths the matcher is meant to skip would pass the middleware anyway,
   * since they are static; the matcher only changes the outcome for the
   * `favicon?ico` lookalikes, which reach any page without a session.
   */
  lemma MatcherSkipsPassingPaths(pathname: string, token: Option<string>)
    requires StartsWith(pathname, "/_next/static") || StartsWith(pathname, "/_next/image")
      || StartsWith(pathname, "/favicon.ico")
    ensures MatcherSkips(pathname) && Decide(pathname, token) == Next
  {
    if IsPublic(pathname) {
      PublicNotSkipped(pathname);
    }
    StartsWithAnyIff(pathname, StaticPrefixes);
    if StartsWith(pathname, "/_next/static") {
      assert pathname[..6] == pathname[..13][..6];
      assert StartsWith(pathname, StaticPrefixes[0]);
    } else if StartsWith(pathname, "/_next/image") {
      assert pathname[..6] == pathname[..12][..6];
      assert StartsWith(pathname, StaticPrefixes[0]);
    } else {
      assert pathname[..8] == pathname[..12][..8];
      assert pathname[9..12] == pathname[..12][9..12];
      assert StartsWith(pathname, StaticPrefixes[1]);
    }
  }

  /** A lookalike of the favicon path is skipped by the matcher although the middleware would send it to login. */
  lemma FaviconLookalikeUnprotected()
    ensures MatcherSkips("/favicon-ico") && Gate("/favicon-ico", None) == Next
    ensures Decide("/favicon-ico", None) == Redirect("/login")
  {
    var p := "/favicon-ico";
    assert |p| == 12 && p[1] == 'f' && p[8] == '-';
    assert p[..8] == "/favicon" && p[9..12] == "ico";
    PrefixChar(p, "/login", 1);
    PrefixChar(p, "/api/auth/login", 1);
    PrefixChar(p, "/api/auth/register", 1);
    PrefixChar(p, "/api/seed", 1);
    PrefixChar(p, "/_next", 1);
    PrefixChar(p, "/favicon.ico", 8);
    PrefixChar(p, "/public", 1);
    PublicPathIff(p);
    StartsWithAnyIff(p, StaticPrefixes);
  }
}
