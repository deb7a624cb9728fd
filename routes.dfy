/**
 * The client-side routes of the single-page build (`App.jsx`): two guards,
 * one that lets only signed-in visitors through and one that lets only
 * signed-out visitors through, and the route table that places the pages
 * behind them.
 */
module Routes {
  import opened Text

  datatype Page = SignupView | SigninView | DashboardView

  /** What a route renders: a page, or a redirect to another path. */
  datatype Outcome = Render(page: Page) | Redirect(to: string)

  const SigninPath := "/signin"
  const SignupPath := "/signup"
  const DashboardPath := "/dashboard"

  /** `ProtectedRoute`: the page for a signed-in visitor, otherwise off to the sign-in page. */
  function ProtectedRoute(isAuthenticated: bool, page: Page): (o: Outcome)
    ensures o == Render(page) <==> isAuthenticated
    ensures !isAuthenticated ==> o == Redirect(SigninPath)
  {
    if isAuthenticated then Render(page) else Redirect(SigninPath)
  }

  /** `PublicRoute`: the page for a signed-out visitor, otherwise off to the dashboard. */
  function PublicRoute(isAuthenticated: bool, page: Page): (o: Outcome)
    ensures o == Render(page) <==> !isAuthenticated
    ensures isAuthenticated ==> o == Redirect(DashboardPath)
  {
    if !isAuthenticated then Render(page) else Redirect(DashboardPath)
  }

  /** For any visitor, exactly one of the two guards shows its page. */
  lemma ExactlyOneGuardRenders(isAuthenticated: bool, page: Page)
    ensures ProtectedRoute(isAuthenticated, page).Render? != PublicRoute(isAuthenticated, page).Render?
  {
  }

  /** The text with every trailing '/' removed, and nothing else. */
  function DropTrailingSlashes(s: string): (r: string)
    ensures |r| <= |s| && r == s[..|r|]
    ensures r == [] || r[|r| - 1] != '/'
    ensures forall i :: |r| <= i < |s| ==> s[i] == '/'
    decreases |s|
  {
    if s != [] && s[|s| - 1] == '/' then DropTrailingSlashes(s[..|s| - 1]) else s
  }

  /**
   * The form in which React Router compares a location with a route's path:
   * matching ignores the case of ASCII letters, and any number of trailing
   * slashes is accepted.
   */
  function Canonical(path: string): string {
    DropTrailingSlashes(Lower(path))
  }

  /** `AppRoutes`: the route table, consulted with the canonical form of the path. */
  function Route(path: string, isAuthenticated: bool): Outcome {
    RouteCanonical(Canonical(path), isAuthenticated)
  }

  /** The table itself. "/" and every unknown path go to the sign-in page. */
  function RouteCanonical(p: string, isAuthenticated: bool): Outcome {
    if p == SignupPath then PublicRoute(isAuthenticated, SignupView)
    else if p == SigninPath then PublicRoute(isAuthenticated, SigninView)
    else if p == DashboardPath then ProtectedRoute(isAuthenticated, DashboardView)
    else Redirect(SigninPath)
  }

  /** Routing ignores the case of ASCII letters. */
  lemma RouteIgnoresCase(path: string, isAuthenticated: bool)
    ensures Route(Lower(path), isAuthenticated) == Route(path, isAuthenticated)
  {
    LowerIdempotent(path);
  }

  /** Routing ignores a trailing slash. */
  lemma RouteIgnoresTrailingSlash(path: string, isAuthenticated: bool)
    ensures Route(path + "/", isAuthenticated) == Route(path, isAuthenticated)
  {
    LowerAppend(path, "/");
    assert Lower("/") == "/";
    var l := Lower(path) + "/";
    assert l[..|l| - 1] == Lower(path);
  }

  /** The three route paths are their own canonical forms. */
  lemma CanonicalRoutePaths()
    ensures Canonical(SignupPath) == SignupPath
    ensures Canonical(SigninPath) == SigninPath
    ensures Canonical(DashboardPath) == DashboardPath
  {
    RoutePathsPlain();
    CanonicalOfRoutePath(SignupPath);
    CanonicalOfRoutePath(SigninPath);
    CanonicalOfRoutePath(DashboardPath);
  }

  /** The three route paths are different from each other. */
  lemma RoutePathsDistinct()
    ensures SignupPath != SigninPath && SignupPath != DashboardPath && SigninPath != DashboardPath
  {
    assert SignupPath[5] != SigninPath[5];
    assert |SignupPath| != |DashboardPath| && |SigninPath| != |DashboardPath|;
  }

  /** The route paths hold no capital letter and do not end in a slash. */
  lemma RoutePathsPlain()
    ensures forall p | p in {SignupPath, SigninPath, DashboardPath} :: p != [] && p[|p| - 1] != '/'
    ensures forall i :: 0 <= i < |SignupPath| ==> !('A' <= SignupPath[i] <= 'Z')
    ensures forall i :: 0 <= i < |SigninPath| ==> !('A' <= SigninPath[i] <= 'Z')
    ensures forall i :: 0 <= i < |DashboardPath| ==> !('A' <= DashboardPath[i] <= 'Z')
  {
  }

  /** A path without capitals or a trailing slash is already canonical. */
  lemma CanonicalOfRoutePath(p: string)
    requires p != [] && p[|p| - 1] != '/'
    requires forall i :: 0 <= i < |p| ==> !('A' <= p[i] <= 'Z')
    ensures Canonical(p) == p
  {
    LowerNoCapitals(p);
  }

  /** Follows redirects, at most `hops` of them; the last redirect is returned if they run out. */
  function Settle(path: string, isAuthenticated: bool, hops: nat): Outcome
    decreases hops
  {
    match Route(path, isAuthenticated)
    case Render(p) => Render(p)
    case Redirect(to) => if hops == 0 then Redirect(to) else Settle(to, isAuthenticated, hops - 1)
  }

  /** The table: which paths are public, which protected, and where the rest go. */
  lemma RouteTable(path: string, isAuthenticated: bool)
    ensures Canonical(path) == SignupPath ==> Route(path, isAuthenticated) == PublicRoute(isAuthenticated, SignupView)
    ensures Canonical(path) == SigninPath ==> Route(path, isAuthenticated) == PublicRoute(isAuthenticated, SigninView)
    ensures Canonical(path) == DashboardPath ==>
              Route(path, isAuthenticated) == ProtectedRoute(isAuthenticated, DashboardView)
    ensures Canonical(path) !in {SignupPath, SigninPath, DashboardPath} ==> Route(path, isAuthenticated) == Redirect(SigninPath)
  {
  }

  /**
   * Every visit ends on a page within two redirects: a signed-in visitor
   * always on the dashboard, a signed-out one on the sign-up page if asked
   * for (in any letter case, with or without trailing slashes), otherwise on
   * the sign-in page.
   */
  lemma {:induction false} EveryVisitSettles(path: string, isAuthenticated: bool)
    ensures Settle(path, isAuthenticated, 2) ==
      if isAuthenticated then Render(DashboardView)
      else if Canonical(path) == SignupPath then Render(SignupView)
      else Render(SigninView)
  {
    RouteTable(path, isAuthenticated);
    RouteOfRoutePaths(isAuthenticated);
  }

  /** A signed-out visit to the dashboard ends on the sign-in page; a signed-in visit to sign-in or sign-up ends on the dashboard. */
  lemma GuardRedirects()
    ensures Route(DashboardPath, false) == Redirect(SigninPath)
    ensures Settle(DashboardPath, false, 1) == Render(SigninView)
    ensures Route(SigninPath, true) == Redirect(DashboardPath) && Route(SignupPath, true) == Redirect(DashboardPath)
    ensures Settle(SigninPath, true, 1) == Render(DashboardView) && Settle(SignupPath, true, 1) == Render(DashboardView)
  {
    RouteOfRoutePaths(false);
    RouteOfRoutePaths(true);
  }

  /** Where each of the three route paths leads. */
  lemma RouteOfRoutePaths(isAuthenticated: bool)
    ensures Route(SignupPath, isAuthenticated) == PublicRoute(isAuthenticated, SignupView)
    ensures Route(SigninPath, isAuthenticated) == PublicRoute(isAuthenticated, SigninView)
    ensures Route(DashboardPath, isAuthenticated) == ProtectedRoute(isAuthenticated, DashboardView)
  {
    CanonicalRoutePaths();
    RoutePathsDistinct();
    assert RouteCanonical(SignupPath, isAuthenticated) == PublicRoute(isAuthenticated, SignupView);
    assert RouteCanonical(SigninPath, isAuthenticated) == PublicRoute(isAuthenticated, SigninView);
    assert RouteCanonical(DashboardPath, isAuthenticated) == ProtectedRoute(isAuthenticated, DashboardView);
  }
}
