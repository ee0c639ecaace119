/**
 * The route guard (src/components/common/ProtectedRoute.jsx): what a
 * wrapped route shows, decided from the session's `loading` flag, the
 * logged-in user and the route's list of allowed roles.
 */
module ProtectedRoute {
  import opened Client
  import AuthContext

  /** What the guard returns. Both redirects replace the history entry;
      the one to /login carries the requested location as `from`. */
  datatype View =
    | LoadingView
    | RedirectToLogin(from: string)
    | RedirectHome
    | RenderChildren

  /** `allowedRoles` when the route gives none. */
  const DefaultRoles: seq<string> := []

  function Guard(loading: bool, user: Option<AuthContext.UserData>, allowedRoles: seq<string>, location: string): View {
    if loading then LoadingView
    else if user.None? then RedirectToLogin(location)
    else if |allowedRoles| > 0 && user.value.role !in allowedRoles then RedirectHome
    else RenderChildren
  }

  /** While the session is loading nothing else is looked at. */
  lemma LoadingWins(user: Option<AuthContext.UserData>, allowedRoles: seq<string>, location: string)
    ensures Guard(true, user, allowedRoles, location) == LoadingView
  {
  }

  /** Without a user the guard sends to /login, remembering where the
      visitor wanted to go, and never to the home page. */
  lemma NoUserGoesToLogin(allowedRoles: seq<string>, location: string)
    ensures Guard(false, None, allowedRoles, location) == RedirectToLogin(location)
  {
  }

  /** A logged-in user whose role is not among non-empty allowed roles is
      sent home. */
  lemma WrongRoleGoesHome(user: AuthContext.UserData, allowedRoles: seq<string>, location: string)
    requires |allowedRoles| > 0 && user.role !in allowedRoles
    ensures Guard(false, Some(user), allowedRoles, location) == RedirectHome
  {
  }

  /** With the default roles any logged-in user gets the page. */
  lemma DefaultRolesAdmitAnyUser(user: AuthContext.UserData, location: string)
    ensures Guard(false, Some(user), DefaultRoles, location) == RenderChildren
  {
  }

  /** The page is rendered exactly when not loading, a user is present, and
      the roles are unrestricted or include the user's role. */
  lemma RendersIff(loading: bool, user: Option<AuthContext.UserData>, allowedRoles: seq<string>, location: string)
    ensures Guard(loading, user, allowedRoles, location) == RenderChildren <==>
      !loading && user.Some? && (|allowedRoles| == 0 || user.value.role in allowedRoles)
  {
  }

  /** The login check precedes the role check: a missing user is never
      redirected home, whatever the roles. */
  lemma LoginCheckFirst(loading: bool, allowedRoles: seq<string>, location: string)
    ensures Guard(loading, None, allowedRoles, location) != RedirectHome
  {
  }
}
