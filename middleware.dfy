/** The route gate (middleware.ts): before an admin page is served, a
    request without a valid session is sent to the login page, and a request
    for the login page that already has one is sent to the dashboard. The
    gate runs only on paths the matcher `/admin/:path*` selects. */
module Middleware {
  import opened Common
  import opened Session

  const AdminPrefix := "/admin"
  const LoginPath := "/admin/login"
  const DashboardPath := "/admin/dashboard"

  /** `NextResponse.next()` or `NextResponse.redirect(location)`. */
  datatype Response = PassThrough | Redirect(location: string)

  predicate IsAdminRoute(path: string)
  {
    AdminPrefix <= path
  }

  lemma LoginPathIsAdminRoute()
    ensures IsAdminRoute(LoginPath) && IsAdminRoute(DashboardPath)
  {
    assert LoginPath[..|AdminPrefix|] == AdminPrefix;
    assert DashboardPath[..|AdminPrefix|] == AdminPrefix;
  }

  /** `middleware(request)`, given the request path and its `auth-token`
      cookie value. */
  function Decide(path: string, token: FieldValue, codec: TokenCodec): (r: Response)
    ensures r == Redirect(LoginPath) <==>
      IsAdminRoute(path) && path != LoginPath && SessionOfToken(token, codec) == None
    ensures r == Redirect(DashboardPath) <==> path == LoginPath && SessionOfToken(token, codec).Some?
    ensures r == PassThrough <==>
      !IsAdminRoute(path)
      || (path != LoginPath && SessionOfToken(token, codec).Some?)
      || (path == LoginPath && SessionOfToken(token, codec) == None)
  {
    LoginPathIsAdminRoute();
    var isAdminRoute := IsAdminRoute(path);
    var isLoginPage := path == LoginPath;
    if isAdminRoute && !isLoginPage && !Truthy(token) then Redirect(LoginPath)
    else if isAdminRoute && !isLoginPage && VerifyToken(codec, token.s) == None then Redirect(LoginPath)
    else if isLoginPage && Truthy(token) && VerifyToken(codec, token.s).Some? then Redirect(DashboardPath)
    else PassThrough
  }

  /** `config.matcher = '/admin/:path*'`: `/admin` itself and every path
      below it. */
  predicate MatcherSelects(path: string)
  {
    path == AdminPrefix || AdminPrefix + "/" <= path
  }

  /** What a request meets: the gate on the paths the matcher selects, and
      nothing on the others. */
  function Handle(path: string, token: FieldValue, codec: TokenCodec): (r: Response)
    ensures !IsAdminRoute(path) ==> r == PassThrough
    ensures r == Redirect(LoginPath) <==>
      MatcherSelects(path) && path != LoginPath && SessionOfToken(token, codec) == None
    ensures r == Redirect(DashboardPath) <==> path == LoginPath && SessionOfToken(token, codec).Some?
    ensures r == PassThrough <==>
      !MatcherSelects(path)
      || (path != LoginPath && SessionOfToken(token, codec).Some?)
      || (path == LoginPath && SessionOfToken(token, codec) == None)
  {
    LoginPathIsAdminRoute();
    assert MatcherSelects(LoginPath) by { assert LoginPath[..|AdminPrefix + "/"|] == AdminPrefix + "/"; }
    assert MatcherSelects(path) ==> IsAdminRoute(path) by {
      if AdminPrefix + "/" <= path { assert path[..|AdminPrefix|] == AdminPrefix; }
    }
    if MatcherSelects(path) then Decide(path, token, codec) else PassThrough
  }

  /** No redirect loop: a redirect never targets the path it came from, and
      following it with the same cookie is let through. */
  lemma {:induction false} RedirectSettles(path: string, token: FieldValue, codec: TokenCodec)
    ensures Handle(path, token, codec).Redirect? ==>
      Handle(path, token, codec).location != path
      && Handle(Handle(path, token, codec).location, token, codec) == PassThrough
  {
    LoginPathIsAdminRoute();
    assert LoginPath != DashboardPath;
    assert MatcherSelects(DashboardPath) by {
      assert DashboardPath[..|AdminPrefix + "/"|] == AdminPrefix + "/";
    }
  }

  /** The matcher, not the prefix test, decides what is gated: a path that
      merely starts with `/admin`, such as `/administrator`, would be
      redirected by the gate but never reaches it. */
  lemma PrefixOnlyPathNotGated(token: FieldValue, codec: TokenCodec)
    requires SessionOfToken(token, codec) == None
    ensures Decide("/administrator", token, codec) == Redirect(LoginPath)
    ensures Handle("/administrator", token, codec) == PassThrough
  {
    assert IsAdminRoute("/administrator") by { assert "/administrator"[..|AdminPrefix|] == AdminPrefix; }
    assert !MatcherSelects("/administrator") by { assert "/administrator"[|AdminPrefix|] != '/'; }
  }

  /** The gate and the action guard agree: a path under the admin prefix
      is let through exactly when the cookie jar holds a session. */
  lemma GateAgreesWithSession(path: string, jar: CookieJar, codec: TokenCodec)
    requires MatcherSelects(path) && path != LoginPath
    ensures Handle(path, jar.Get(AuthCookieName), codec) == PassThrough <==> GetSession(jar, codec).Some?
  {
  }
}
