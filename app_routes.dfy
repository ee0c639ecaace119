/**
 * The route table of the client (src/App.jsx) and what a visitor sees for
 * a path once the guard of module ProtectedRoute has been applied.
 *
 * A path is given as its list of segments ("/admin/add-resource" is
 * ["admin", "add-resource"], "/" is []).
 */
module App {
  import opened Client
  import Js
  import AuthContext
  import ProtectedRoute

  const Roles: seq<string> := ["Admin", "Faculty", "Student", "Staff"]
  const AdminOnly: seq<string> := ["Admin"]

  datatype Page =
    | Home | Login | Signup | Resources | ResourceDetail(id: string)
    | Dashboard | Analytics | AdminPanel | AddResource | UpdateResource(id: string)

  /** A route's element: a page shown to everyone, a page wrapped in the
      guard with its allowed roles, or a redirect. */
  datatype Element =
    | Public(page: Page)
    | Guarded(page: Page, allowedRoles: seq<string>)
    | Redirect(to: string, replace: bool)

  /** The route table; the last line is the catch-all `*`. */
  function Route(path: seq<string>): Element {
    if path == ["login"] then Public(Login)
    else if path == ["signup"] then Public(Signup)
    else if path == [] then Public(Home)
    else if path == ["resources"] then Public(Resources)
    else if |path| == 2 && path[0] == "resources" then Public(ResourceDetail(path[1]))
    else if path == ["dashboard"] then Guarded(Dashboard, ProtectedRoute.DefaultRoles)
    else if path == ["analytics"] then Guarded(Analytics, Roles)
    else if path == ["admin"] then Guarded(AdminPanel, AdminOnly)
    else if path == ["admin", "add-resource"] then Guarded(AddResource, AdminOnly)
    else if |path| == 3 && path[0] == "admin" && path[1] == "edit-resource" then Guarded(UpdateResource(path[2]), AdminOnly)
    else Redirect("/", true)
  }

  predicate IsAdminPath(path: seq<string>) {
    path == ["admin"] || path == ["admin", "add-resource"] ||
    (|path| == 3 && path[0] == "admin" && path[1] == "edit-resource")
  }

  predicate IsPublicPath(path: seq<string>) {
    path == [] || path == ["login"] || path == ["signup"] || path == ["resources"] ||
    (|path| == 2 && path[0] == "resources")
  }

  predicate IsKnownPath(path: seq<string>) {
    IsPublicPath(path) || IsAdminPath(path) || path == ["dashboard"] || path == ["analytics"]
  }

  /** What is shown for a path. */
  datatype Screen = Shows(page: Page) | LoadingScreen | RedirectedTo(to: string, from: Option<string>)

  function LocationOf(path: seq<string>): string {
    "/" + Js.Join(path, "/")
  }

  function Render(path: seq<string>, loading: bool, user: Option<AuthContext.UserData>): Screen {
    match Route(path)
    case Public(page) => Shows(page)
    case Redirect(to, _) => RedirectedTo(to, None)
    case Guarded(page, roles) =>
      match ProtectedRoute.Guard(loading, user, roles, LocationOf(path))
      case LoadingView => LoadingScreen
      case RedirectToLogin(from) => RedirectedTo("/login", Some(from))
      case RedirectHome => RedirectedTo("/", None)
      case RenderChildren => Shows(page)
  }

  /** Exactly the three admin paths are guarded with ["Admin"] alone. */
  lemma AdminPathsAdminOnly(path: seq<string>)
    ensures (Route(path).Guarded? && Route(path).allowedRoles == AdminOnly) <==> IsAdminPath(path)
  {
  }

  /** /analytics admits the four roles and nothing else is guarded by them. */
  lemma AnalyticsRoles(path: seq<string>)
    ensures Route(["analytics"]) == Guarded(Analytics, ["Admin", "Faculty", "Student", "Staff"])
    ensures (Route(path).Guarded? && Route(path).allowedRoles == Roles) <==> path == ["analytics"]
  {
  }

  /** /dashboard needs a login but no particular role. */
  lemma DashboardNeedsLoginOnly(user: AuthContext.UserData)
    ensures Route(["dashboard"]) == Guarded(Dashboard, [])
    ensures Render(["dashboard"], false, Some(user)) == Shows(Dashboard)
  {
  }

  /** The public paths show their page to anyone, logged in or not. */
  lemma PublicPathsUnguarded(path: seq<string>, loading: bool, user: Option<AuthContext.UserData>)
    ensures Route(path).Public? <==> IsPublicPath(path)
    ensures IsPublicPath(path) ==> Render(path, loading, user).Shows?
  {
  }

  /** Every path the table does not list redirects to "/" with replace. */
  lemma UnknownPathsGoHome(path: seq<string>)
    ensures !IsKnownPath(path) <==> Route(path) == Redirect("/", true)
  {
  }

  /** A logged-in Student (any user whose role is not Admin) who asks for
      an admin page is sent to the home page. */
  lemma NonAdminKeptOutOfAdmin(path: seq<string>, user: AuthContext.UserData)
    requires IsAdminPath(path) && user.role != "Admin"
    ensures Render(path, false, Some(user)) == RedirectedTo("/", None)
  {
  }

  /** Without a user, every guarded path redirects to /login and remembers
      the path asked for. */
  lemma GuardedPathsNeedLogin(path: seq<string>)
    requires Route(path).Guarded?
    ensures Render(path, false, None) == RedirectedTo("/login", Some(LocationOf(path)))
  {
  }
}
