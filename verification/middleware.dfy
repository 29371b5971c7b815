/**
 * The request gate in front of the dashboard: the authentication API always
 * passes, a signed-in visitor of the login page is sent to the dashboard,
 * an anonymous visitor of the dashboard is sent to the login page, and
 * everything else passes. The session lookup is a boolean input.
 */
module Middleware {
  import opened JsBuiltins

  /** `NextResponse.next()` or `NextResponse.redirect(target)`. */
  datatype Decision = Next | Redirect(target: string)

  const AuthApiPrefix: string := "/api/auth"
  const LoginPath: string := "/login"
  const DashboardPath: string := "/"

  /** The routing decision for a request to `pathname`, with or without a session. */
  function Gate(pathname: string, hasSession: bool): (d: Decision)
    ensures StartsWith(pathname, AuthApiPrefix) ==> d == Next
    ensures d.Redirect? <==> (pathname == LoginPath && hasSession) || (pathname == DashboardPath && !hasSession)
    ensures d == Redirect(DashboardPath) <==> pathname == LoginPath && hasSession
    ensures d == Redirect(LoginPath) <==> pathname == DashboardPath && !hasSession
  {
    if StartsWith(pathname, AuthApiPrefix) then Next
    else if pathname == LoginPath then
      if hasSession then Redirect(DashboardPath) else Next
    else if pathname == DashboardPath && !hasSession then Redirect(LoginPath)
    else Next
  }

  /** Following a redirect with the same session state never redirects again. */
  lemma NoRedirectLoop(pathname: string, hasSession: bool)
    ensures Gate(pathname, hasSession).Redirect? ==> Gate(Gate(pathname, hasSession).target, hasSession) == Next
  {
    assert !StartsWith(DashboardPath, AuthApiPrefix) && !StartsWith(LoginPath, AuthApiPrefix);
  }

  /**
   * The negative lookahead of the matcher `/((?!api|_next/static|_next/image|favicon.ico).*)`:
   * the text after the leading slash starts with one of the excluded words;
   * the unescaped `.` in `favicon.ico` matches any character.
   */
  predicate Excluded(rest: string) {
    || StartsWith(rest, "api")
    || StartsWith(rest, "_next/static")
    || StartsWith(rest, "_next/image")
    || (|rest| >= 11 && rest[..7] == "favicon" && rest[8..11] == "ico")
  }

  /** The middleware runs for this path: it starts with '/' and the rest is not excluded. */
  predicate Matches(path: string) {
    path != [] && path[0] == '/' && !Excluded(path[1..])
  }

  /**
   * The four excluded prefixes, whatever follows them, and any character in
   * place of the dot of `favicon.ico`; a path without a leading slash is
   * never matched.
   */
  lemma MatcherExclusions(tail: string, c: char)
    ensures !Matches("/api" + tail)
    ensures !Matches("/_next/static" + tail)
    ensures !Matches("/_next/image" + tail)
    ensures !Matches("/favicon" + [c] + "ico" + tail)
    ensures !Matches("") && !Matches("api" + tail)
  {
    assert ("/api" + tail)[1..][..3] == "api";
    assert ("/_next/static" + tail)[1..][..12] == "_next/static";
    assert ("/_next/image" + tail)[1..][..11] == "_next/image";
    var rest := ("/favicon" + [c] + "ico" + tail)[1..];
    assert rest == "favicon" + [c] + "ico" + tail;
    assert rest[..7] == "favicon" && rest[8..11] == "ico";
  }

  /** A path whose first character after the slash starts none of the excluded words is matched. */
  lemma MatcherAdmits(rest: string)
    requires rest == [] || rest[0] !in "a_f"
    ensures Matches("/" + rest)
  {
    assert ("/" + rest)[1..] == rest;
    if rest != [] {
      assert !StartsWith(rest, "api") by { assert |rest| < 3 || rest[..3][0] != 'a'; }
      assert !StartsWith(rest, "_next/static") by { assert |rest| < 12 || rest[..12][0] != '_'; }
      assert !StartsWith(rest, "_next/image") by { assert |rest| < 11 || rest[..11][0] != '_'; }
      assert |rest| < 11 || rest[..7][0] != 'f';
    }
  }

  /** What a request gets: the gate's decision where the middleware runs, and `next` elsewhere. */
  function Handle(path: string, hasSession: bool): (d: Decision)
    ensures !Matches(path) ==> d == Next
    ensures Matches(path) ==> d == Gate(path, hasSession)
  {
    if Matches(path) then Gate(path, hasSession) else Next
  }

  /** Every path under the authentication API is excluded, so the gate's first branch is never reached. */
  lemma MatcherSkipsAuthApi(path: string)
    requires StartsWith(path, AuthApiPrefix)
    ensures !Matches(path)
  {
    assert path[1..][..3] == "api";
  }

  /** Both paths the gate redirects on do reach it. */
  lemma MatcherReachesRedirects()
    ensures Matches(DashboardPath) && Matches(LoginPath)
  {
    var rest := LoginPath[1..];
    assert rest == "login" && rest[0] == 'l';
    assert !StartsWith(rest, "api") by { assert rest[..3][0] != "api"[0]; }
    assert !StartsWith(rest, "_next/static") by { assert |rest| < 12; }
    assert !StartsWith(rest, "_next/image") by { assert |rest| < 11; }
  }

  /** The matcher never changes the outcome: excluded paths would have passed the gate anyway. */
  lemma MatcherIsTransparent(path: string, hasSession: bool)
    ensures Handle(path, hasSession) == Gate(path, hasSession)
  {
    if !Matches(path) && Gate(path, hasSession).Redirect? {
      MatcherReachesRedirects();
    }
  }
}
