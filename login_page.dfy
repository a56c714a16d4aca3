/**
 * The login page: sends a settled visitor with a session home, shows the
 * sign-in card otherwise, and navigates home after a successful sign-in.
 */
module LoginPage {
  import opened Wrappers
  import opened Types
  import opened Router
  import HomePage

  /** The redirect effect over `(loading, user)`. */
  function Redirect(loading: bool, user: Option<User>): (nav: Option<Navigation>)
    ensures nav.Some? <==> !loading && user.Some?
    ensures nav.Some? ==> nav.value == Replace("/")
  {
    if !loading && user.Some? then Some(Replace("/")) else None
  }

  datatype LoginView = Spinner | SignInCard

  /** What the page renders. */
  function Render(loading: bool, user: Option<User>): (v: LoginView)
    ensures v == SignInCard <==> !loading && user.None?
  {
    if loading || user.Some? then Spinner else SignInCard
  }

  /** For every `(loading, user)`, at most one of the two pages redirects, and neither while loading. */
  lemma AtMostOneRedirect(loading: bool, user: Option<User>)
    ensures !(HomePage.Redirect(loading, user).Some? && Redirect(loading, user).Some?)
    ensures loading ==> HomePage.Redirect(loading, user).None? && Redirect(loading, user).None?
    ensures !loading ==> HomePage.Redirect(loading, user).Some? || Redirect(loading, user).Some?
  {
  }

  /** What the popup sign-in answers: a session, or the error it threw. */
  datatype SignInOutcome = SignedIn(user: User) | SignInError(error: string)

  /** The navigations issued and the errors logged by the page. */
  class LoginPageState {
    var navigations: seq<Navigation>
    var errorLog: seq<string>

    constructor ()
      ensures navigations == [] && errorLog == []
    {
      navigations := [];
      errorLog := [];
    }

    /** `handleSignIn`: push `/` after a successful sign-in, log the error otherwise. */
    method HandleSignIn(outcome: SignInOutcome)
      modifies this
      ensures outcome.SignedIn? ==> navigations == old(navigations) + [Push("/")] && errorLog == old(errorLog)
      ensures outcome.SignInError? ==> navigations == old(navigations) && errorLog == old(errorLog) + [outcome.error]
    {
      match outcome
      case SignedIn(_) =>
        navigations := navigations + [Push("/")];
      case SignInError(error) =>
        errorLog := errorLog + [error];
    }
  }
}
