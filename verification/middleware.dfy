/**
 * The request middleware: a visitor without a session token is sent from the
 * dashboard to the landing page, and a signed-in visitor is sent from the
 * landing page to the dashboard. It runs only on the paths its matcher lists.
 */
module Middleware {
  import opened Wrappers
  import Auth

  /** The part of `req.nextUrl` the middleware reads and clones. */
  datatype Url = Url(origin: string, pathname: string, search: string)

  datatype Decision = Redirect(to: Url) | Next

  const Landing := "/"
  const DashboardPath := "/dashboard"

  /** `pathname.startsWith("/dashboard")` */
  predicate Gated(pathname: string) {
    DashboardPath <= pathname
  }

  /** `middleware(req)`: the first branch that applies decides; a redirect is a
      clone of the request URL with only the pathname replaced. */
  function Decide(token: Option<Auth.Jwt>, url: Url): (d: Decision)
    ensures d.Redirect? ==> d.to.origin == url.origin && d.to.search == url.search
    ensures d == Redirect(url.(pathname := Landing)) <==> token.None? && Gated(url.pathname)
    ensures d == Redirect(url.(pathname := DashboardPath)) <==> token.Some? && url.pathname == Landing
    ensures d == Next <==> !(token.None? && Gated(url.pathname)) && !(token.Some? && url.pathname == Landing)
  {
    if token.None? && Gated(url.pathname) then
      Redirect(url.(pathname := Landing))
    else if token.Some? && url.pathname == Landing then
      Redirect(url.(pathname := DashboardPath))
    else
      Next
  }

  /** `config.matcher`: "/" and "/dashboard/:path*" (the dashboard and any
      number of further segments). */
  predicate Matched(pathname: string) {
    pathname == Landing || pathname == DashboardPath || DashboardPath + "/" <= pathname
  }

  /** What a request sees: the middleware's decision on matched paths, and
      pass-through elsewhere. */
  function Effective(token: Option<Auth.Jwt>, url: Url): (d: Decision)
    ensures !Matched(url.pathname) ==> d == Next
    ensures Matched(url.pathname) ==> d == Decide(token, url)
  {
    if Matched(url.pathname) then Decide(token, url) else Next
  }

  /** The two redirects never both apply, and neither loops: the landing page
      is not gated, and a redirect's target is never redirected again for the
      same token. */
  lemma RedirectsExclusive(token: Option<Auth.Jwt>, url: Url)
    ensures !(token.None? && Gated(url.pathname) && token.Some? && url.pathname == Landing)
    ensures !Gated(Landing)
    ensures Decide(token, url).Redirect? ==> Decide(token, Decide(token, url).to) == Next
  {
    assert !Gated(Landing) by {
      assert |Landing| < |DashboardPath|;
    }
  }

  /** On the matched paths, a visitor without a token is redirected exactly
      when the path is not the landing page. */
  lemma {:induction false} MatchedGating(url: Url)
    requires Matched(url.pathname)
    ensures Decide(None, url).Redirect? <==> url.pathname != Landing
  {
    if DashboardPath + "/" <= url.pathname {
      assert url.pathname[..|DashboardPath|] == (DashboardPath + "/")[..|DashboardPath|];
    }
  }

  /** The test is a prefix match, so "/dashboardX" would be gated; the matcher
      keeps the middleware from running there at all. */
  lemma PrefixGatesUnmatchedPath(origin: string, search: string)
    ensures Decide(None, Url(origin, "/dashboardX", search)) == Redirect(Url(origin, Landing, search))
    ensures Effective(None, Url(origin, "/dashboardX", search)) == Next
  {
    assert Gated("/dashboardX");
    assert !("/dashboard/" <= "/dashboardX") by {
      assert "/dashboardX"[10] != "/dashboard/"[10];
    }
  }
}
