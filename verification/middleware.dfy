/**
 * The request gate of middleware.ts: which paths are public, and whether a
 * request passes through, is sent to the login page, or is sent on to the
 * dashboard. The environment and the outcome of the session check are
 * inputs; cookie refreshing is not modelled.
 */
module Middleware {
  import opened Outcomes
  import opened Text

  /** The outcome of `supabase.auth.getUser()`. */
  datatype SessionCheck = SignedIn(userId: string) | SignedOut | CheckThrew

  datatype Decision =
    | PassThrough
    | RedirectToLogin(redirectTo: string)
    | RedirectToDashboard

  /** The prefixes under which every path is public. */
  const PublicPrefixes: seq<string> := ["/login", "/signup", "/forgot-password", "/auth", "/accept-invite"]

  /**
   * A path is public when it is the root or starts with one of the public
   * prefixes. The match is on the raw prefix, so "/authors" is public too.
   */
  predicate IsPublicRoute(pathname: string) {
    pathname == "/" || exists k :: 0 <= k < |PublicPrefixes| && StartsWith(pathname, PublicPrefixes[k])
  }

  /**
   * The prefix match is closed under extension: whatever follows a public
   * path other than the root is public too.
   */
  lemma PublicRouteExtends(pathname: string, suffix: string)
    requires IsPublicRoute(pathname) && pathname != "/"
    ensures IsPublicRoute(pathname + suffix)
  {
    var k :| 0 <= k < |PublicPrefixes| && StartsWith(pathname, PublicPrefixes[k]);
    assert (pathname + suffix)[..|PublicPrefixes[k]|] == pathname[..|PublicPrefixes[k]|];
  }

  /** A thrown session check counts as no user. */
  predicate Authenticated(session: SessionCheck) {
    session.SignedIn?
  }

  /** The paths a signed-in user is sent away from. */
  predicate IsAuthPage(pathname: string) {
    StartsWith(pathname, "/login") || StartsWith(pathname, "/signup")
  }

  /**
   * `middleware`: without a configured URL and key every request passes;
   * otherwise a visitor without a user on a non-public path goes to /login
   * carrying the original path, a user on /login or /signup goes to
   * /dashboard, and everything else passes.
   */
  function Decide(supabaseUrl: Option<string>, supabaseKey: Option<string>, session: SessionCheck, pathname: string): (d: Decision)
    ensures !(Present(supabaseUrl) && Present(supabaseKey)) ==> d == PassThrough
    ensures Present(supabaseUrl) && Present(supabaseKey) ==>
              (d.RedirectToLogin? <==> !Authenticated(session) && !IsPublicRoute(pathname))
              && (d.RedirectToDashboard? <==> Authenticated(session) && IsAuthPage(pathname))
    ensures d.RedirectToLogin? ==> d.redirectTo == pathname
  {
    if !(Present(supabaseUrl) && Present(supabaseKey)) then PassThrough
    else if !Authenticated(session) && !IsPublicRoute(pathname) then RedirectToLogin(pathname)
    else if Authenticated(session) && IsAuthPage(pathname) then RedirectToDashboard
    else PassThrough
  }

  /** A failing session check is handled exactly like a signed-out visitor. */
  lemma ThrowIsSignedOut(supabaseUrl: Option<string>, supabaseKey: Option<string>, pathname: string)
    ensures Decide(supabaseUrl, supabaseKey, CheckThrew, pathname) == Decide(supabaseUrl, supabaseKey, SignedOut, pathname)
  {
  }

  /** The prefix match makes "/authors" and "/login-help" public, and "/dashboard" is not. */
  lemma PublicRouteExamples()
    ensures IsPublicRoute("/authors") && IsPublicRoute("/login-help") && IsPublicRoute("/")
    ensures !IsPublicRoute("/dashboard")
  {
    assert StartsWith("/authors", PublicPrefixes[3]);
    assert StartsWith("/login-help", PublicPrefixes[0]);
    forall k | 0 <= k < |PublicPrefixes|
      ensures !StartsWith("/dashboard", PublicPrefixes[k])
    {
      assert PublicPrefixes[k][1] != 'd';
      assert "/dashboard"[1] == 'd';
    }
  }

  /** The target of a redirect decision. */
  function Target(d: Decision): (pathname: string)
    requires !d.PassThrough?
    ensures d.RedirectToLogin? ==> pathname == "/login"
    ensures d.RedirectToDashboard? ==> pathname == "/dashboard"
  {
    if d.RedirectToLogin? then "/login" else "/dashboard"
  }

  /** No redirect loops: following any redirect, with the same session, lands on a path that passes. */
  lemma NoRedirectLoop(supabaseUrl: Option<string>, supabaseKey: Option<string>, session: SessionCheck, pathname: string)
    requires !Decide(supabaseUrl, supabaseKey, session, pathname).PassThrough?
    ensures Decide(supabaseUrl, supabaseKey, session, Target(Decide(supabaseUrl, supabaseKey, session, pathname))) == PassThrough
  {
    assert StartsWith("/login", PublicPrefixes[0]);
    PublicRouteExamples();
  }
}
