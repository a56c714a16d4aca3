/**
 * The home page: sends a settled visitor without a session to the login
 * page, and renders the main view only for a present user.
 */
module HomePage {
  import opened Wrappers
  import opened Types
  import opened Router

  /** The redirect effect over `(loading, user)`. */
  function Redirect(loading: bool, user: Option<User>): (nav: Option<Navigation>)
    ensures nav.Some? <==> !loading && user.None?
    ensures nav.Some? ==> nav.value == Replace("/login")
  {
    if !loading && user.None? then Some(Replace("/login")) else None
  }

  datatype HomeView = LoadingScreen | MainAppFor(user: User)

  /** What the page renders. */
  function Render(loading: bool, user: Option<User>): (v: HomeView)
    ensures v.LoadingScreen? <==> loading || user.None?
    ensures v.MainAppFor? ==> user == Some(v.user)
  {
    if loading || user.None? then LoadingScreen else MainAppFor(user.value)
  }
}
