/**
 * Route protection (middleware.ts): a decision on whether a session exists and on the request
 * path, made with literal prefix tests.
 */
module Middleware {
  import opened StringOps

  /** The parts of the request URL the decision reads or keeps. */
  datatype Url = Url(pathname: string, search: string)

  datatype Decision = Redirect(to: Url) | Next

  const DashboardPath := "/dashboard"
  const LoginPath := "/auth/login"
  const RegisterPath := "/auth/register"

  predicate IsProtected(pathname: string) {
    StartsWith(pathname, DashboardPath)
  }

  predicate IsAuthPage(pathname: string) {
    StartsWith(pathname, LoginPath) || StartsWith(pathname, RegisterPath)
  }

  /** `middleware`: the redirect cloned from the request URL with only the path replaced. */
  function Decide(hasSession: bool, url: Url): (d: Decision)
    ensures !hasSession && IsProtected(url.pathname) ==> d == Redirect(url.(pathname := LoginPath))
    ensures hasSession && IsAuthPage(url.pathname) ==> d == Redirect(url.(pathname := DashboardPath))
    ensures d == Next <==> (hasSession || !IsProtected(url.pathname)) && (!hasSession || !IsAuthPage(url.pathname))
  {
    if !hasSession && IsProtected(url.pathname) then Redirect(url.(pathname := LoginPath))
    else if hasSession && IsAuthPage(url.pathname) then Redirect(url.(pathname := DashboardPath))
    else Next
  }

  /** Following a redirect with the same session state is let through: no redirect loop. */
  lemma NoRedirectLoop(hasSession: bool, url: Url)
    requires Decide(hasSession, url).Redirect?
    ensures Decide(hasSession, Decide(hasSession, url).to) == Next
  {
    assert !StartsWith(LoginPath, DashboardPath) by {
      assert LoginPath[1] != DashboardPath[1];
    }
    assert !StartsWith(DashboardPath, LoginPath) && !StartsWith(DashboardPath, RegisterPath) by {
      assert |DashboardPath| < |LoginPath| && |DashboardPath| < |RegisterPath|;
    }
  }

  /** A redirect keeps the query string and sends the user to the login page or the dashboard. */
  lemma RedirectTargets(hasSession: bool, url: Url)
    requires Decide(hasSession, url).Redirect?
    ensures Decide(hasSession, url).to.search == url.search
    ensures Decide(hasSession, url).to.pathname == (if hasSession then DashboardPath else LoginPath)
  {
  }

  /** The two redirects need opposite session states, so no path can trigger both. */
  lemma RedirectsExclusive(url: Url)
    ensures Decide(false, url).Redirect? ==> Decide(false, url).to.pathname == LoginPath
    ensures Decide(true, url).Redirect? ==> Decide(true, url).to.pathname == DashboardPath
  {
  }

  /** Prefix matching is literal: a look-alike path counts as protected, or as an auth page. */
  lemma LiteralPrefixMatching()
    ensures Decide(false, Url("/dashboardX", "")) == Redirect(Url(LoginPath, ""))
    ensures Decide(true, Url("/auth/loginX", "")) == Redirect(Url(DashboardPath, ""))
    ensures Decide(false, Url("/", "")) == Next
  {
    assert StartsWith("/dashboardX", DashboardPath) by {
      assert "/dashboardX"[..|DashboardPath|] == DashboardPath;
    }
    assert StartsWith("/auth/loginX", LoginPath) by {
      assert "/auth/loginX"[..|LoginPath|] == LoginPath;
    }
  }

  /**
   * The exported `config.matcher`: the middleware runs only for "/dashboard" and paths below it,
   * and for the exact login and register paths.
   */
  predicate Matched(pathname: string) {
    pathname == DashboardPath || StartsWith(pathname, DashboardPath + "/")
    || pathname == LoginPath || pathname == RegisterPath
  }

  /** What a request gets: the middleware's decision on matched paths, pass-through elsewhere. */
  function Route(hasSession: bool, url: Url): (d: Decision)
    ensures !Matched(url.pathname) ==> d == Next
    ensures Matched(url.pathname) ==> d == Decide(hasSession, url)
  {
    if Matched(url.pathname) then Decide(hasSession, url) else Next
  }

  /** The matcher keeps look-alike paths away from the middleware altogether. */
  lemma MatcherSkipsLookalikes(hasSession: bool)
    ensures Route(hasSession, Url("/dashboardX", "")) == Next
    ensures Route(hasSession, Url("/auth/loginX", "")) == Next
    ensures Route(false, Url("/dashboard/history", "")) == Redirect(Url(LoginPath, ""))
  {
    assert !StartsWith("/dashboardX", DashboardPath + "/") by {
      assert "/dashboardX"[10] != (DashboardPath + "/")[10];
    }
    assert StartsWith("/dashboard/history", DashboardPath + "/") by {
      assert "/dashboard/history"[..11] == DashboardPath + "/";
    }
    assert StartsWith("/dashboard/history", DashboardPath) by {
      assert "/dashboard/history"[..10] == DashboardPath;
    }
  }

  /** No path is both protected and an auth page: the two prefixes differ at their second character. */
  lemma {:induction false} ProtectedAndAuthDisjoint(pathname: string)
    ensures IsProtected(pathname) ==> !IsAuthPage(pathname)
  {
    if IsProtected(pathname) {
      assert pathname[1] == DashboardPath[1] == 'd';
    }
  }

  /** On every path the matcher selects, the prefix tests agree with the matcher's own patterns. */
  lemma MatchedPathsAreClassified(pathname: string)
    requires Matched(pathname)
    ensures IsProtected(pathname) || (pathname == LoginPath || pathname == RegisterPath)
    ensures IsProtected(pathname) ==> !IsAuthPage(pathname)
  {
    if StartsWith(pathname, DashboardPath + "/") {
      assert pathname[..|DashboardPath|] == (DashboardPath + "/")[..|DashboardPath|];
    }
    if IsProtected(pathname) {
      assert pathname[1] == 'd';
    }
  }
}
