/** `AuthGuard`: on every path change it reads the stored user, redirects to the login
    page or to the dashboard, or marks the visitor as signed in; it then decides what to
    render. The stored user and the path are inputs. */
module AuthGuard {
  import opened Wrappers

  const LOGIN: string := "/login"
  const DASHBOARD: string := "/dashboard"

  /** The component's two state variables. */
  datatype GuardState = GuardState(isAuthenticated: bool, loading: bool)

  const INITIAL: GuardState := GuardState(false, true)

  datatype Render = Placeholder | Nothing | Children

  /** `checkAuth`, with `localStorage.getItem('user')` as `stored`: the new state and
      the path pushed to the router, if any. `isAuthenticated` is only ever set, so it
      keeps the value an earlier run left. */
  function CheckAuth(s: GuardState, stored: Option<string>, pathname: string): (GuardState, Option<string>)
  {
    var hasUser := stored.Some? && stored.value != "";
    if !hasUser && pathname != LOGIN then (s.(loading := false), Some(LOGIN))
    else if hasUser && pathname == LOGIN then (s.(loading := false), Some(DASHBOARD))
    else (GuardState(true, false), None)
  }

  /** What the component renders in a state. */
  function RenderOf(s: GuardState, pathname: string): Render
  {
    if s.loading then Placeholder
    else if !s.isAuthenticated && pathname != LOGIN then Nothing
    else Children
  }

  /** The redirect table: without a user every page but the login page sends to the
      login page, with one the login page sends to the dashboard, and nothing else
      redirects; every run ends loading and marks the visitor signed in exactly when it
      does not redirect. */
  lemma CheckAuthTable(s: GuardState, stored: Option<string>, pathname: string)
    ensures var hasUser := stored.Some? && stored.value != "";
      var (t, go) := CheckAuth(s, stored, pathname);
      && (go == Some(LOGIN) <==> !hasUser && pathname != LOGIN)
      && (go == Some(DASHBOARD) <==> hasUser && pathname == LOGIN)
      && (go.None? <==> (hasUser <==> pathname != LOGIN))
      && !t.loading
      && (go.None? ==> t.isAuthenticated)
      && (go.Some? ==> t.isAuthenticated == s.isAuthenticated)
  {
    assert LOGIN != DASHBOARD by { assert |LOGIN| != |DASHBOARD|; }
  }

  /** On the first run the guard renders nothing exactly when it is sending a visitor
      without a user to the login page; in every other case, the login page included,
      it renders its children. Before the run it shows the placeholder. */
  lemma FirstVisit(stored: Option<string>, pathname: string)
    ensures RenderOf(INITIAL, pathname) == Placeholder
    ensures var (t, go) := CheckAuth(INITIAL, stored, pathname);
      && (RenderOf(t, pathname) == Nothing <==> go == Some(LOGIN))
      && (RenderOf(t, pathname) == Children <==> go != Some(LOGIN))
  {
    CheckAuthTable(INITIAL, stored, pathname);
  }

  /** Once a run has signed the visitor in, a later run that finds no user still sends
      them to the login page but keeps rendering the children until the route changes. */
  lemma SignedInStaysRendered(s: GuardState, pathname: string)
    requires s.isAuthenticated && pathname != LOGIN
    ensures var (t, go) := CheckAuth(s, None, pathname);
      go == Some(LOGIN) && RenderOf(t, pathname) == Children
  {
  }
}
