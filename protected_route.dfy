/** components/ProtectedRoute.js: what a protected route shows for the session's state. */
module ProtectedRoute {
  import opened Wrappers
  import opened JsValues
  import Session

  /** The placeholder card, a redirect, or the nested routes (`<Outlet />`). */
  datatype View = Placeholder | Redirect(to: string) | Subtree

  function Guard(loading: bool, isAuthenticated: bool): (v: View)
    ensures v == Placeholder <==> loading
    ensures v == Redirect("/login") <==> !loading && !isAuthenticated
    ensures v == Subtree <==> !loading && isAuthenticated
  {
    if loading then Placeholder
    else if !isAuthenticated then Redirect("/login")
    else Subtree
  }

  function GuardSession(s: Session.AuthState): View
  {
    Guard(s.loading, Session.IsAuthenticated(s))
  }

  /** With no stored token the app lands on the sign-in screen straight away. */
  lemma NoStoredTokenLandsOnLogin(stored: map<string, string>, available: bool)
    requires Session.TOKEN_KEY !in stored || !available
    ensures GuardSession(Session.InitialState(stored, available)) == Redirect("/login")
  {
  }

  /** A stored token first shows the placeholder while the profile is fetched, whatever the token's fate. */
  lemma StoredTokenWaitsForProfile(stored: map<string, string>)
    requires Session.TOKEN_KEY in stored && stored[Session.TOKEN_KEY] != ""
    ensures GuardSession(Session.InitialState(stored, true)) == Placeholder
  {
  }

  /** After the startup refresh, a valid token renders the routes and a rejected one redirects. */
  lemma StartupRefreshDecides(stored: map<string, string>, available: bool, me: Outcome<Value>)
    requires available && Session.TOKEN_KEY in stored && stored[Session.TOKEN_KEY] != ""
    ensures var s := Session.RefreshOf(Session.InitialState(stored, available), available, me);
            GuardSession(s) == if me.Ok? then Subtree else Redirect("/login")
  {
  }
}
