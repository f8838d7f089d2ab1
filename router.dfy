/** The route table of `AppRouter` and its two guards. */
module Routing {
  import opened Base
  import Auth

  const LoginPath := "/login"
  const HomePath := "/home"
  const VenuePrefix := "/venue/"
  const ManagementPath := "/teacher/venues"

  datatype Page =
    | LoginPage
    | RegisterPage
    | HomePage
    | VenueDetailPage(vid: string)
    | OrderPage
    | PersonalPage
    | VenueManagementPage
    | NotFoundPage

  /** What the router renders: the loading text, a page, or a redirect. */
  datatype Screen = Loading | Show(page: Page) | Redirect(to: string)

  /** A page that only a signed-in user may see. */
  predicate NeedsLogin(p: Page)
  {
    !(p.LoginPage? || p.RegisterPage? || p.NotFoundPage?)
  }

  /** `PrivateRoute`: the page for a present token, otherwise `/login`. */
  function PrivateRoute(token: Option<string>, page: Page): (v: Screen)
    ensures v.Show? <==> Auth.HasToken(token)
    ensures v.Show? ==> v.page == page
    ensures !v.Show? ==> v == Redirect(LoginPath)
  {
    if !Auth.HasToken(token) then Redirect(LoginPath) else Show(page)
  }

  /** `ProtectedTeacherRoute`: the page for a present token and a teacher,
      otherwise `/login`; passing it implies passing `PrivateRoute`. */
  function TeacherRoute(token: Option<string>, user: Option<Record>, page: Page): (v: Screen)
    ensures v.Show? <==> Auth.HasToken(token) && RoleIs(user, Auth.Teacher)
    ensures v.Show? ==> v.page == page && PrivateRoute(token, page) == v
    ensures !v.Show? ==> v == Redirect(LoginPath)
  {
    if !Auth.HasToken(token) || !RoleIs(user, Auth.Teacher) then Redirect(LoginPath) else Show(page)
  }

  /** The guard each path is declared with. */
  datatype Route = Open(page: Page) | Private(page: Page) | TeacherOnly(page: Page) | ToHome

  /** The `:vid` of `/venue/:vid`: one non-empty segment after the prefix. */
  function VenueParam(path: string): (vid: Option<string>)
    ensures vid.Some? ==> path == VenuePrefix + vid.value && vid.value != [] && '/' !in vid.value
  {
    if |path| > |VenuePrefix| && path[..|VenuePrefix|] == VenuePrefix && '/' !in path[|VenuePrefix|..]
    then Some(path[|VenuePrefix|..])
    else None
  }

  /** The `<Routes>` table; the `*` entry catches every other path. */
  function RouteOf(path: string): Route
  {
    if path == LoginPath then Open(LoginPage)
    else if path == "/register" then Open(RegisterPage)
    else if path == HomePath then Private(HomePage)
    else if VenueParam(path).Some? then Private(VenueDetailPage(VenueParam(path).value))
    else if path == "/orders" then Private(OrderPage)
    else if path == "/personal" then Private(PersonalPage)
    else if path == ManagementPath then TeacherOnly(VenueManagementPage)
    else if path == "/" then ToHome
    else Open(NotFoundPage)
  }

  /** The route table as declared; the `*` entry takes every path no other entry matches. */
  lemma RouteTable()
    ensures RouteOf(LoginPath) == Open(LoginPage) && RouteOf("/register") == Open(RegisterPage)
    ensures RouteOf(HomePath) == Private(HomePage)
    ensures RouteOf("/orders") == Private(OrderPage) && RouteOf("/personal") == Private(PersonalPage)
    ensures RouteOf(ManagementPath) == TeacherOnly(VenueManagementPage)
    ensures RouteOf("/") == ToHome
    ensures forall p ::
              (p !in {LoginPath, "/register", HomePath, "/orders", "/personal", ManagementPath, "/"}
               && VenueParam(p).None?) ==> RouteOf(p) == Open(NotFoundPage)
  {
    NotVenue(LoginPath);
    NotVenue("/register");
    NotVenue(HomePath);
    NotVenue("/orders");
    NotVenue("/personal");
    NotVenue(ManagementPath);
    NotVenue("/");
  }

  /** A path whose second character is not `v` is not a venue path. */
  lemma NotVenue(path: string)
    requires |path| < 2 || path[1] != 'v'
    ensures VenueParam(path).None?
  {
  }

  /** Every single-segment id after `/venue/` selects the venue detail page with that id. */
  lemma VenueRoute(vid: string)
    requires vid != [] && '/' !in vid
    ensures RouteOf(VenuePrefix + vid) == Private(VenueDetailPage(vid))
  {
    var path := VenuePrefix + vid;
    assert path[..|VenuePrefix|] == VenuePrefix;
    assert path[|VenuePrefix|..] == vid;
    assert path != LoginPath && path != "/register" && path != HomePath by {
      assert path[1] == 'v';
    }
  }

  /** `AppRouter`: nothing is resolved while the session loads. */
  function Resolve(token: Option<string>, user: Option<Record>, isLoading: bool, path: string): (v: Screen)
    ensures isLoading ==> v == Loading
  {
    if isLoading then Loading
    else match RouteOf(path)
      case Open(p) => Show(p)
      case Private(p) => PrivateRoute(token, p)
      case TeacherOnly(p) => TeacherRoute(token, user, p)
      case ToHome => Redirect(HomePath)
  }

  /** No page that needs a login is shown without a token, and the management
      page is shown to nobody but a teacher. */
  lemma {:induction false} GuardsHold(token: Option<string>, user: Option<Record>, isLoading: bool, path: string)
    ensures Resolve(token, user, isLoading, path).Show? && NeedsLogin(Resolve(token, user, isLoading, path).page)
            ==> Auth.HasToken(token)
    ensures Resolve(token, user, isLoading, path) == Show(VenueManagementPage)
            ==> Auth.HasToken(token) && RoleIs(user, Auth.Teacher)
  {
    var v := Resolve(token, user, isLoading, path);
    if !isLoading {
      match RouteOf(path)
      case Open(p) =>
        assert p == LoginPage || p == RegisterPage || p == NotFoundPage;
      case Private(p) =>
        assert p != VenueManagementPage;
      case TeacherOnly(p) =>
      case ToHome =>
    }
  }

  /** A signed-in session that has finished loading sees every private page, and
      a teacher also sees the management page. */
  lemma SignedInReachesPages(token: Option<string>, user: Option<Record>, path: string)
    requires Auth.HasToken(token)
    ensures RouteOf(path).Private? ==> Resolve(token, user, false, path) == Show(RouteOf(path).page)
    ensures RoleIs(user, Auth.Teacher) ==> Resolve(token, user, false, ManagementPath) == Show(VenueManagementPage)
  {
  }
}
