/**
 * Navigation control (src/router/index.ts): the route table with its access
 * metadata, the page title, the role check and the ordered decision of the
 * global before-each guard; and the redirect of the session-failure callback
 * installed at start-up (src/main.ts).
 *
 * vue-router hands the guard the metadata of every matched record merged from
 * the outermost to the innermost; `Routes()` lists each navigable route with
 * that merged metadata written out. Redirect-only records never reach the
 * guard and are not listed.
 */
module Router {
  import opened Js
  import Auth

  const APP_TITLE: string := "GitHub Star Organizer"
  const TITLE_SEPARATOR: string := " · "
  const NO_PERMISSION: string := "没有访问权限"
  const LOGIN: string := "login"
  const PROJECTS: string := "projects"
  const ADMIN: string := "ADMIN"

  /** The `meta` of a route: whether it needs a session, which roles it admits, its title. */
  datatype RouteMeta = RouteMeta(requiresAuth: Option<bool>, roles: Option<seq<string>>, title: Option<string>)

  datatype Route = Route(path: string, name: string, meta: RouteMeta)

  /** A route that requires a session and admits any role. */
  function Member(path: string, name: string, title: string): Route {
    Route(path, name, RouteMeta(Some(true), None, Some(title)))
  }

  /** A route under `/admin` that requires a session and the administrator role. */
  function AdminOnly(subpath: string, name: string, title: string): Route {
    Route("/admin/" + subpath, name, RouteMeta(Some(true), Some([ADMIN]), Some(title)))
  }

  /** The navigable routes, in declaration order. */
  function Routes(): seq<Route> {
    PlainRoutes() + AdminRoutes() + [NotFoundRoute()]
  }

  /** The login page and the pages every signed-in user may open. */
  function PlainRoutes(): seq<Route> {
    [ Route("/login", LOGIN, RouteMeta(Some(false), None, Some("登录"))),
      Member("/projects", PROJECTS, "项目列表"),
      Member("/projects/:id", "project-detail", "项目详情"),
      Member("/tags", "tags", "标签管理"),
      Member("/tags/:id", "tag-detail", "标签详情"),
      Member("/account/profile", "account-profile", "账户信息") ]
  }

  /** The administration pages. */
  function AdminRoutes(): seq<Route> {
    [ AdminOnly("queues", "admin-queues", "队列概览"),
      AdminOnly("sync-stars", "admin-sync-stars", "Stars 同步"),
      AdminOnly("ai", "admin-ai-management", "AI 管理"),
      AdminOnly("ai/batches", "admin-ai-batches", "AI 批处理"),
      AdminOnly("ai/batches/:id", "admin-ai-batch-detail", "AI 批次详情"),
      AdminOnly("archive", "admin-archive", "归档项目"),
      AdminOnly("archive/:id", "admin-archive-detail", "归档详情"),
      AdminOnly("maintenance", "admin-maintenance", "维护任务") ]
  }

  /** The catch-all page, declared last. */
  function NotFoundRoute(): Route {
    Member("/:pathMatch(.*)*", "not-found", "页面未找到")
  }

  /** The route registered under `name`. */
  function RouteNamed(name: string): Option<Route> {
    FindNamed(Routes(), name)
  }

  function FindNamed(routes: seq<Route>, name: string): (r: Option<Route>)
    ensures r.Some? ==> r.value in routes && r.value.name == name
    ensures r.None? ==> forall i | 0 <= i < |routes| :: routes[i].name != name
  {
    if routes == [] then None
    else if routes[0].name == name then Some(routes[0])
    else FindNamed(routes[1..], name)
  }

  /** The document title: `<title> · GitHub Star Organizer`, or the bare application name. */
  function ResolveTitle(title: Option<string>): (r: string)
    ensures Present(title) ==> r == title.value + TITLE_SEPARATOR + APP_TITLE
    ensures !Present(title) ==> r == APP_TITLE
  {
    if Present(title) then title.value + TITLE_SEPARATOR + APP_TITLE else APP_TITLE
  }

  /**
   * Every title ends with the application name, and a page title can be read
   * back from its front: different page titles give different document titles.
   */
  lemma ResolveTitleInjective(a: Option<string>, b: Option<string>)
    requires Present(a) && Present(b)
    ensures ResolveTitle(a)[|ResolveTitle(a)| - |APP_TITLE|..] == APP_TITLE
    ensures ResolveTitle(a) == ResolveTitle(b) ==> a == b
  {
    EndsWith(a.value + TITLE_SEPARATOR, APP_TITLE);
    SuffixCancels(a.value, b.value, TITLE_SEPARATOR + APP_TITLE);
    assert ResolveTitle(a) == a.value + (TITLE_SEPARATOR + APP_TITLE);
    assert ResolveTitle(b) == b.value + (TITLE_SEPARATOR + APP_TITLE);
  }

  lemma EndsWith(x: string, t: string)
    ensures (x + t)[|x + t| - |t|..] == t
  {
  }

  lemma SuffixCancels(x: string, y: string, t: string)
    ensures x + t == y + t ==> x == y
  {
    if x + t == y + t {
      assert x == (x + t)[..|x|];
      assert y == (y + t)[..|y|];
    }
  }

  /** hasRole: no roles admit everyone; otherwise the user must hold one of them. */
  function HasRole(user: Option<Auth.AuthUser>, roles: Option<seq<string>>): (r: bool)
    ensures (roles.None? || roles.value == []) ==> r
    ensures roles.Some? && roles.value != [] && !(user.Some? && Present(user.value.role)) ==> !r
    ensures roles.Some? && roles.value != [] && user.Some? && Present(user.value.role) ==>
      (r <==> user.value.role.value in roles.value)
  {
    if roles.None? || |roles.value| == 0 then true
    else if user.None? || !Present(user.value.role) then false
    else user.value.role.value in roles.value
  }

  /** `to.meta.requiresAuth !== false`: a route requires a session unless it says otherwise. */
  predicate RequiresAuth(meta: RouteMeta) {
    meta.requiresAuth != Some(false)
  }

  /** Where a redirect sends the navigation. */
  datatype Location = Named(name: string) | LoginWithRedirect(redirect: string)

  /** What the guard passes to `next`. */
  datatype Next = Proceed | RedirectTo(location: Location)

  /** The guard's decision and the error messages it shows. */
  datatype GuardOutcome = GuardOutcome(next: Next, errors: seq<string>)

  /**
   * The before-each guard. The three checks run in a fixed order: a signed-in
   * user is sent away from the login page; a route that needs a session sends
   * a visitor without one to the login page, remembering where they were
   * going; a user without a required role is told so and sent to the project
   * list. Otherwise the navigation proceeds.
   */
  function Guard(toName: string, toFullPath: string, meta: RouteMeta, isAuthenticated: bool, user: Option<Auth.AuthUser>): (g: GuardOutcome)
    ensures toName == LOGIN && isAuthenticated ==> g == GuardOutcome(RedirectTo(Named(PROJECTS)), [])
    ensures !(toName == LOGIN && isAuthenticated) && RequiresAuth(meta) && !isAuthenticated ==>
      g == GuardOutcome(RedirectTo(LoginWithRedirect(toFullPath)), [])
    ensures g.next == Proceed <==>
      !(toName == LOGIN && isAuthenticated) && !(RequiresAuth(meta) && !isAuthenticated) && HasRole(user, meta.roles)
    ensures g.errors != [] <==>
      !(toName == LOGIN && isAuthenticated) && !(RequiresAuth(meta) && !isAuthenticated) && !HasRole(user, meta.roles)
    ensures g.errors != [] ==> g == GuardOutcome(RedirectTo(Named(PROJECTS)), [NO_PERMISSION])
  {
    if toName == LOGIN && isAuthenticated then GuardOutcome(RedirectTo(Named(PROJECTS)), [])
    else if RequiresAuth(meta) && !isAuthenticated then GuardOutcome(RedirectTo(LoginWithRedirect(toFullPath)), [])
    else if !HasRole(user, meta.roles) then GuardOutcome(RedirectTo(Named(PROJECTS)), [NO_PERMISSION])
    else GuardOutcome(Proceed, [])
  }

  /** The guard applied to a route of the table. */
  function GuardRoute(route: Route, fullPath: string, isAuthenticated: bool, user: Option<Auth.AuthUser>): GuardOutcome {
    Guard(route.name, fullPath, route.meta, isAuthenticated, user)
  }

  /** The route a redirect lands on. */
  function Destination(location: Location): Option<Route> {
    match location
    case Named(name) => RouteNamed(name)
    case LoginWithRedirect(_) => RouteNamed(LOGIN)
  }

  /**
   * The routes under `/admin` are exactly the routes that admit only the
   * administrator role, and they all require a session.
   */
  lemma AdminRoutesRequireAdmin()
    ensures forall r | r in Routes() :: ("/admin" <= r.path <==> r.meta.roles == Some([ADMIN]))
    ensures forall r | r in Routes() && "/admin" <= r.path :: RequiresAuth(r.meta)
  {
    AdminGroup();
    PlainGroup();
    forall r | r in Routes()
      ensures ("/admin" <= r.path <==> r.meta.roles == Some([ADMIN])) && ("/admin" <= r.path ==> RequiresAuth(r.meta))
    {
      assert r in PlainRoutes() || r in AdminRoutes() || r == NotFoundRoute();
    }
  }

  lemma AdminGroup()
    ensures forall r | r in AdminRoutes() :: "/admin" <= r.path && r.meta.roles == Some([ADMIN]) && RequiresAuth(r.meta)
  {
    forall subpath: string ensures "/admin" <= "/admin/" + subpath {
      assert ("/admin/" + subpath)[..6] == "/admin";
    }
  }

  lemma PlainGroup()
    ensures forall r | r in PlainRoutes() :: !("/admin" <= r.path) && r.meta.roles.None?
    ensures !("/admin" <= NotFoundRoute().path) && NotFoundRoute().meta.roles.None?
  {
    var routes := PlainRoutes();
    forall i | 0 <= i < |routes| ensures !("/admin" <= routes[i].path) {
      PartsFromAdmin(routes[i].path);
    }
    PartsFromAdmin(NotFoundRoute().path);
  }

  /** The paths outside the administration part from "/admin" by their third character. */
  lemma PartsFromAdmin(path: string)
    requires |path| > 2 && path[2] != 'd'
    ensures !("/admin" <= path)
  {
  }

  /**
   * The login page is always reachable without a session: its route does not
   * require one and admits every role, so there is no redirect loop.
   */
  lemma LoginReachableSignedOut(fullPath: string, user: Option<Auth.AuthUser>)
    ensures RouteNamed(LOGIN).Some?
    ensures GuardRoute(RouteNamed(LOGIN).value, fullPath, false, user).next == Proceed
  {
    assert Routes()[0] == PlainRoutes()[0] && Routes()[0].name == LOGIN;
  }

  /**
   * Every redirect the guard issues from a route of the table lands on a route
   * of the table that the same session may enter: one redirect settles the
   * navigation.
   */
  lemma RedirectsSettle(route: Route, fullPath: string, destinationPath: string, isAuthenticated: bool, user: Option<Auth.AuthUser>)
    requires route in Routes()
    requires GuardRoute(route, fullPath, isAuthenticated, user).next.RedirectTo?
    ensures var location := GuardRoute(route, fullPath, isAuthenticated, user).next.location;
      && Destination(location).Some?
      && GuardRoute(Destination(location).value, destinationPath, isAuthenticated, user).next == Proceed
  {
    var location := GuardRoute(route, fullPath, isAuthenticated, user).next.location;
    assert Routes()[0] == PlainRoutes()[0] && Routes()[0].name == LOGIN;
    assert Routes()[1] == PlainRoutes()[1] && Routes()[1].name == PROJECTS;
    if location.Named? {
      // Only a signed-in user is sent to the project list: from the login
      // page, or for a missing role on a route that needs a session.
      assert isAuthenticated;
    }
  }

  /**
   * The session-failure callback installed at start-up: it clears the
   * session, then sends the user to the login page remembering the current
   * location, unless the current page already is the login page.
   */
  method OnRefreshFailed(store: Auth.AuthStore, currentName: string, currentFullPath: string)
    returns (navigation: Option<Location>)
    requires store.Valid()
    modifies store`accessToken, store`storage, store`timer, store`nextTimerId, store`user
    ensures store.Valid()
    ensures store.accessToken == None && store.user == None && store.timer == None
    ensures store.storage == old(store.storage) - {Auth.ACCESS_TOKEN_KEY}
    ensures store.nextTimerId == old(store.nextTimerId)
    ensures store.calls == old(store.calls) && store.notices == old(store.notices)
    ensures store.refresh == old(store.refresh) && store.settled == old(store.settled)
    ensures store.ready == old(store.ready) && store.loading == old(store.loading)
    ensures store.nextHandle == old(store.nextHandle)
    ensures navigation == if currentName == LOGIN then None else Some(LoginWithRedirect(currentFullPath))
    ensures navigation.Some? ==>
      (Destination(navigation.value).Some?
      && GuardRoute(Destination(navigation.value).value, currentFullPath, store.IsAuthenticated(), store.user).next == Proceed)
  {
    store.ClearAuthState();
    if currentName != LOGIN {
      navigation := Some(LoginWithRedirect(currentFullPath));
      LoginReachableSignedOut(currentFullPath, store.user);
    } else {
      navigation := None;
    }
  }
}
