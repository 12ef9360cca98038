/** The page gate (middleware.ts): the three public pages pass, every other
    matched path needs a session or is sent to the home page. */
module Middleware {

  /** `publicRoutes`. */
  const PublicRoutes: seq<string> := ["/", "/counselors", "/how-it-works"]

  /** `publicRoutes.some(route => path === route)`: exact equality, so
      sub-paths are not public. */
  predicate IsPublic(path: string) {
    exists i :: 0 <= i < |PublicRoutes| && path == PublicRoutes[i]
  }

  /** The prefixes the matcher's negative lookahead excludes after the
      leading slash. */
  const Excluded: seq<string> := ["api", "_next", "_static", "_vercel", "favicon.ico", "sitemap.xml"]

  /** `'/((?!api|_next|_static|_vercel|favicon.ico|sitemap.xml).*)'`: a path
      whose first segment does not start with an excluded prefix. */
  predicate Matched(path: string) {
    |path| >= 1 && path[0] == '/' && forall i :: 0 <= i < |Excluded| ==> !(Excluded[i] <= path[1..])
  }

  datatype Decision = Next | RedirectHome

  /** `middleware`: public pages pass whatever the session; other pages
      pass with a session and redirect to "/" without one. A path the
      matcher leaves out is never gated. */
  function Gate(path: string, hasSession: bool): (d: Decision)
    ensures d == RedirectHome <==> Matched(path) && !IsPublic(path) && !hasSession
  {
    if !Matched(path) then Next
    else if IsPublic(path) then Next
    else if !hasSession then RedirectHome
    else Next
  }

  /** The redirect target is public, so following it never redirects
      again. */
  lemma RedirectTargetPasses(hasSession: bool)
    ensures IsPublic("/") && Gate("/", hasSession) == Next
  {
    assert PublicRoutes[0] == "/";
  }

  /** A sub-path of a public page is gated. */
  lemma SubPathNotPublic()
    ensures !IsPublic("/counselors/x") && Gate("/counselors/x", false) == RedirectHome
  {
    assert Matched("/counselors/x") by {
      var rest := "/counselors/x"[1..];
      assert rest[0] == 'c';
      forall i | 0 <= i < |Excluded| ensures !(Excluded[i] <= rest) {
        assert Excluded[i][0] != 'c';
      }
    }
  }

  /** API routes are outside the matcher: the handlers check the session
      themselves. */
  lemma ApiNeverRedirected(rest: string, hasSession: bool)
    ensures Gate("/api" + rest, hasSession) == Next
  {
    var path := "/api" + rest;
    assert path[1..] == "api" + rest;
    assert Excluded[0] <= path[1..];
  }

  /** With a session every path passes. */
  lemma SessionAlwaysPasses(path: string)
    ensures Gate(path, true) == Next
  {
  }
}
