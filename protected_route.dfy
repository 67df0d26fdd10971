/**
 * The access decision of the route guard: render the protected page or
 * redirect to the landing page `/`.
 */
module ProtectedRoute {
  import opened Wrappers
  import opened Text
  import TokenUtils

  datatype Outcome = RenderChildren | RedirectHome

  const SharedReportPrefix: string := "/shared-report/"

  /** A stored `userToken` counts as a login only when it is present and non-empty. */
  predicate IsAuthenticated(storedToken: Option<string>)
  {
    storedToken.Some? && storedToken.value != []
  }

  /**
   * The guard, given the location's pathname and search, the
   * `allowPublicAccess` prop and the stored `userToken`. The public-access
   * branch is taken first; it renders what the later branches would render
   * anyway, so the outcome is decided by the shared-path test and the login
   * alone.
   */
  function Decide(pathname: string, search: string, allowPublicAccess: bool, storedToken: Option<string>): (o: Outcome)
    ensures o == RedirectHome <==> !StartsWith(pathname, SharedReportPrefix) && !IsAuthenticated(storedToken)
  {
    var isSharedReport := StartsWith(pathname, SharedReportPrefix);
    if allowPublicAccess && isSharedReport && TokenUtils.ValidateReportToken(search) then RenderChildren
    else if !IsAuthenticated(storedToken) && !isSharedReport then RedirectHome
    else RenderChildren
  }

  /** A shared-report path renders whatever the token, the prop and the login. */
  lemma SharedPathAlwaysRenders(pathname: string, search: string, allowPublicAccess: bool, storedToken: Option<string>)
    requires StartsWith(pathname, SharedReportPrefix)
    ensures Decide(pathname, search, allowPublicAccess, storedToken) == RenderChildren
  {
  }

  /** A logged-in user reaches every path. */
  lemma LoggedInAlwaysRenders(pathname: string, search: string, allowPublicAccess: bool, token: string)
    requires token != []
    ensures Decide(pathname, search, allowPublicAccess, Some(token)) == RenderChildren
  {
  }

  /** An empty stored token is no login: a non-shared path redirects. */
  lemma EmptyTokenRedirects(pathname: string, search: string, allowPublicAccess: bool)
    requires !StartsWith(pathname, SharedReportPrefix)
    ensures Decide(pathname, search, allowPublicAccess, Some([])) == RedirectHome
    ensures Decide(pathname, search, allowPublicAccess, None) == RedirectHome
  {
  }

  /** Neither the prop nor the query string changes the outcome. */
  lemma PublicAccessIrrelevant(pathname: string, s1: string, s2: string, a1: bool, a2: bool, storedToken: Option<string>)
    ensures Decide(pathname, s1, a1, storedToken) == Decide(pathname, s2, a2, storedToken)
  {
  }
}
