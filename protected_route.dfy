/** The guard placed around every signed-in page. */
module ProtectedRoute {
  import opened AuthContext

  /** What the guard renders. */
  datatype Screen =
    | Spinner            // "Checking authentication..."
    | RetryScreen        // "Unable to verify your account" with Retry and Back to Login
    | RedirectLogin      // <Navigate to="/login">
    | RedirectDashboard  // <Navigate to="/dashboard">
    | Children           // the guarded page itself

  predicate IsAdmin(user: UserSlot)
  {
    user.Present? && user.user.role == "admin"
  }

  /** The chain of early returns of `ProtectedRoute`. */
  function Decide(isLoading: bool, user: UserSlot, requireAdmin: bool): (r: Screen)
    ensures isLoading ==> r == Spinner
    ensures r == RetryScreen <==> !isLoading && user == Null
    // `!user` after `user === null` only catches `undefined`
    ensures r == RedirectLogin <==> !isLoading && user == Undefined
    ensures r == RedirectDashboard <==> !isLoading && requireAdmin && user.Present? && !IsAdmin(user)
    ensures r == Children <==> !isLoading && user.Present? && (!requireAdmin || IsAdmin(user))
  {
    if isLoading then Spinner
    else if user == Null then RetryScreen
    else if !user.Present? then RedirectLogin
    else if requireAdmin && user.user.role != "admin" then RedirectDashboard
    else Children
  }

  /** What the guard shows for a session. */
  function DecideFor(s: Session, requireAdmin: bool): Screen
  {
    Decide(s.isLoading, s.user, requireAdmin)
  }

  /**
   * While the user is `User | null`, as the store's type declares, the
   * redirect to the login page is dead code: a finished check without a
   * session shows the retry screen.
   */
  lemma {:induction false} NoLoginRedirect(s: Session, requireAdmin: bool)
    requires s.user != Undefined
    ensures DecideFor(s, requireAdmin) != RedirectLogin
    ensures !s.isLoading && !s.user.Present? ==> DecideFor(s, requireAdmin) == RetryScreen
  {
  }

  /**
   * Starting from the mounted provider, any sequence of checks, retries,
   * logouts and logins whose bodies carry a `user` never reaches the
   * login redirect.
   */
  lemma {:induction false} NoLoginRedirectAfter(stored: Js.Option<string>, ops: seq<Op>, requireAdmin: bool)
    requires forall k :: 0 <= k < |ops| ==> OpCarriesUser(ops[k])
    ensures DecideFor(Run(Initial(stored), ops), requireAdmin) != RedirectLogin
  {
    RunKeepsUser(Initial(stored), ops);
    NoLoginRedirect(Run(Initial(stored), ops), requireAdmin);
  }
}
