/**
 * The application's route table: which page each path pattern shows and
 * which guard class stands in front of it, with the not-found page as the
 * fallback, and the floating cart's visibility.
 */
module App {

  import opened Wrappers
  import opened Roles
  import opened Guards
  import Text

  datatype Page =
    | TermsPage | PrivacyPage | CatalogPage | ShopsPage | AuthPage | ShopPage | ProductPage | UserProfilePage
    | DashboardPage | ProfilePage | ComplaintsPage | ChatsPage | ShopChatPage | NotificationsPage | StaffShopPage
    | ShopAppealPage | ShopChatsPage | EditShopPage | CreateProductPage | EditProductPage | ManageShopsPage
    | ManageProductsPage | AdminPage | CreateAccountPage | BannedNamesPage | SiteSettingsPage | UserEditPage
    | CreateShopPage | NotFoundPage

  /**
   * The locations the router knows, as opaque tokens: one per path pattern
   * (the pattern is given beside each), and `Unlisted` for any location that
   * matches none of them.
   */
  datatype Location =
    | TermsPath  // /terms
    | PrivacyPath  // /privacy
    | CatalogPath  // /catalog
    | ShopsPath  // /shops
    | AuthPath  // /auth
    | ShopPath  // /shops/:id
    | ProductPath  // /products/:id
    | UserProfilePath  // /users/:id
    | HomePath  // /
    | ProfilePath  // /profile
    | ComplaintsPath  // /complaints
    | ChatsPath  // /chats
    | ShopChatPath  // /chats=:chatId&shop=:shopId
    | NotificationsPath  // /notifications
    | ShopStaffPath  // /shops/:id/staff
    | ShopAppealPath  // /shop-appeal
    | ShopChatsPath  // /shop-chats
    | EditShopPath  // /shops/:id/edit
    | CreateProductPath  // /shops/:id/products/create
    | EditProductPath  // /products/:id/edit
    | ManageShopsPath  // /manage-shops
    | ManageProductsPath  // /manage-products
    | AdminPath  // /admin
    | CreateAccountPath  // /create-account
    | BannedNamesPath  // /banned-names
    | SiteSettingsPath  // /site-settings
    | UserEditPath  // /users/:id/edit
    | CreateShopPath  // /create-shop
    | Unlisted

  /** One row of the router's `Switch`: a path pattern, its guard class and its page. */
  datatype RouteEntry = RouteEntry(pattern: Location, guard: Guard, page: Page)

  /** Routes that anyone can open. */
  const PublicRoutes: seq<RouteEntry> := [
    RouteEntry(TermsPath, Public, TermsPage),
    RouteEntry(PrivacyPath, Public, PrivacyPage),
    RouteEntry(CatalogPath, Public, CatalogPage),
    RouteEntry(ShopsPath, Public, ShopsPage),
    RouteEntry(AuthPath, Public, AuthPage),
    RouteEntry(ShopPath, Public, ShopPage),
    RouteEntry(ProductPath, Public, ProductPage),
    RouteEntry(UserProfilePath, Public, UserProfilePage)
  ]

  /** Routes that need a signed-in user. */
  const SignedInRoutes: seq<RouteEntry> := [
    RouteEntry(HomePath, Authenticated, DashboardPage),
    RouteEntry(ProfilePath, Authenticated, ProfilePage),
    RouteEntry(ComplaintsPath, Authenticated, ComplaintsPage),
    RouteEntry(ChatsPath, Authenticated, ChatsPage),
    RouteEntry(ShopChatPath, Authenticated, ShopChatPage),
    RouteEntry(NotificationsPath, Authenticated, NotificationsPage),
    RouteEntry(ShopStaffPath, Authenticated, StaffShopPage)
  ]

  /** Routes for shop owners and managers. */
  const ShopRoutes: seq<RouteEntry> := [
    RouteEntry(ShopAppealPath, ShopOwnerOnly, ShopAppealPage),
    RouteEntry(ShopChatsPath, ShopOwnerOnly, ShopChatsPage),
    RouteEntry(EditShopPath, ShopOwnerOnly, EditShopPage),
    RouteEntry(CreateProductPath, ShopOwnerOnly, CreateProductPage),
    RouteEntry(EditProductPath, ShopOwnerOnly, EditProductPage),
    RouteEntry(ManageShopsPath, ShopOwnerOnly, ManageShopsPage),
    RouteEntry(ManageProductsPath, ShopOwnerOnly, ManageProductsPage)
  ]

  /** Routes for platform staff. */
  const StaffRoutes: seq<RouteEntry> := [
    RouteEntry(AdminPath, StaffOnly, AdminPage),
    RouteEntry(CreateAccountPath, StaffOnly, CreateAccountPage),
    RouteEntry(BannedNamesPath, StaffOnly, BannedNamesPage),
    RouteEntry(SiteSettingsPath, StaffOnly, SiteSettingsPage),
    RouteEntry(UserEditPath, StaffOnly, UserEditPage)
  ]

  /** Routes for platform owners only. */
  const OwnerRoutes: seq<RouteEntry> := [
    RouteEntry(CreateShopPath, OwnerOnly, CreateShopPage)
  ]

  /** The rows of `Router`, in order; the not-found route that ends the `Switch` is the fallback of `Resolve`. */
  const Routes: seq<RouteEntry> := PublicRoutes + SignedInRoutes + ShopRoutes + StaffRoutes + OwnerRoutes

  /** No two rows share a pattern. */
  predicate DistinctPatterns(routes: seq<RouteEntry>)
  {
    forall i, j :: 0 <= i < j < |routes| ==> routes[i].pattern != routes[j].pattern
  }

  /**
   * The `Switch`: the index of the first row whose pattern is the location.
   * Patterns are compared as opaque tokens.
   */
  function Match(routes: seq<RouteEntry>, location: Location): (r: Option<nat>)
    ensures r.Some? ==> r.value < |routes| && routes[r.value].pattern == location
    ensures r.Some? ==> forall j :: 0 <= j < r.value ==> routes[j].pattern != location
    ensures r.None? ==> forall j :: 0 <= j < |routes| ==> routes[j].pattern != location
  {
    if routes == [] then None
    else if routes[0].pattern == location then Some(0)
    else
      match Match(routes[1..], location)
      case None => None
      case Some(k) => Some(k + 1)
  }

  /** With distinct patterns, every row is the one its own pattern selects. */
  lemma MatchOwnRow(routes: seq<RouteEntry>, i: nat)
    requires DistinctPatterns(routes) && i < |routes|
    ensures Match(routes, routes[i].pattern) == Some(i)
  {
    var r := Match(routes, routes[i].pattern);
    assert r.Some? by {
      assert routes[i].pattern == routes[i].pattern;
    }
  }

  /** The guard class and page shown at a location; an unmatched location falls through to the unguarded not-found page. */
  function Resolve(location: Location): (r: (Guard, Page))
  {
    match Match(Routes, location)
    case Some(i) => (Routes[i].guard, Routes[i].page)
    case None => (Public, NotFoundPage)
  }

  /** What a visitor sees at a location, given the session state. */
  function Visit(location: Location, isLoading: bool, user: Option<User>): (o: Outcome)
  {
    Decide(Resolve(location).0, isLoading, user)
  }

  /**
   * The location strings the router's matcher sends to the `/auth` row: the
   * pattern in any letter case, with or without one trailing slash.
   */
  predicate AuthSpelling(location: string)
  {
    (|location| == 5 || (|location| == 6 && location[5] == '/')) && Text.ToLower(location[..5]) == "/auth"
  }

  /** `FloatingCartWithLocation`: the cart shows unless the location string is exactly `/auth`. */
  predicate CartVisible(location: string)
  {
    location != "/auth"
  }

  /** The row each listed location occupies in `Routes`; `Unlisted` occupies none. */
  function RowOf(loc: Location): nat
  {
    match loc
    case TermsPath => 0
    case PrivacyPath => 1
    case CatalogPath => 2
    case ShopsPath => 3
    case AuthPath => 4
    case ShopPath => 5
    case ProductPath => 6
    case UserProfilePath => 7
    case HomePath => 8
    case ProfilePath => 9
    case ComplaintsPath => 10
    case ChatsPath => 11
    case ShopChatPath => 12
    case NotificationsPath => 13
    case ShopStaffPath => 14
    case ShopAppealPath => 15
    case ShopChatsPath => 16
    case EditShopPath => 17
    case CreateProductPath => 18
    case EditProductPath => 19
    case ManageShopsPath => 20
    case ManageProductsPath => 21
    case AdminPath => 22
    case CreateAccountPath => 23
    case BannedNamesPath => 24
    case SiteSettingsPath => 25
    case UserEditPath => 26
    case CreateShopPath => 27
    case Unlisted => 28
  }

  /** Row `i` of the table holds the location whose row is `i`, with the guard and page declared for it. */
  lemma RowsInOrder(i: nat)
    requires i < |Routes|
    ensures RowOf(Routes[i].pattern) == i
    ensures Declared(Routes[i].pattern) == (Routes[i].guard, Routes[i].page)
  {
    if i < 8 {
      assert Routes[i] == PublicRoutes[i];
    } else if i < 15 {
      assert Routes[i] == SignedInRoutes[i - 8];
    } else if i < 22 {
      assert Routes[i] == ShopRoutes[i - 15];
    } else if i < 27 {
      assert Routes[i] == StaffRoutes[i - 22];
    } else {
      assert Routes[i] == OwnerRoutes[i - 27];
    }
  }

  /** The table lists each pattern once. */
  lemma RoutesDistinct()
    ensures DistinctPatterns(Routes)
  {
    forall i, j | 0 <= i < j < |Routes| ensures Routes[i].pattern != Routes[j].pattern {
      RowsInOrder(i);
      RowsInOrder(j);
    }
  }

  /** A listed location resolves to its own row; `Unlisted` falls through to the not-found page. */
  lemma ResolveRow(loc: Location)
    ensures loc != Unlisted ==> Resolve(loc) == (Routes[RowOf(loc)].guard, Routes[RowOf(loc)].page)
    ensures loc == Unlisted ==> Resolve(loc) == (Public, NotFoundPage)
  {
    RoutesDistinct();
    if loc != Unlisted {
      assert Routes[RowOf(loc)].pattern == loc;
      MatchOwnRow(Routes, RowOf(loc));
    } else {
      forall i | 0 <= i < |Routes| ensures Routes[i].pattern != Unlisted {
        RowsInOrder(i);
      }
    }
  }

  /**
   * The table read as a map from location to guard class and page, one
   * declaration per location, with the not-found page for the rest.
   */
  function Declared(loc: Location): (Guard, Page)
  {
    match loc
    case TermsPath => (Public, TermsPage)
    case PrivacyPath => (Public, PrivacyPage)
    case CatalogPath => (Public, CatalogPage)
    case ShopsPath => (Public, ShopsPage)
    case AuthPath => (Public, AuthPage)
    case ShopPath => (Public, ShopPage)
    case ProductPath => (Public, ProductPage)
    case UserProfilePath => (Public, UserProfilePage)
    case HomePath => (Authenticated, DashboardPage)
    case ProfilePath => (Authenticated, ProfilePage)
    case ComplaintsPath => (Authenticated, ComplaintsPage)
    case ChatsPath => (Authenticated, ChatsPage)
    case ShopChatPath => (Authenticated, ShopChatPage)
    case NotificationsPath => (Authenticated, NotificationsPage)
    case ShopStaffPath => (Authenticated, StaffShopPage)
    case ShopAppealPath => (ShopOwnerOnly, ShopAppealPage)
    case ShopChatsPath => (ShopOwnerOnly, ShopChatsPage)
    case EditShopPath => (ShopOwnerOnly, EditShopPage)
    case CreateProductPath => (ShopOwnerOnly, CreateProductPage)
    case EditProductPath => (ShopOwnerOnly, EditProductPage)
    case ManageShopsPath => (ShopOwnerOnly, ManageShopsPage)
    case ManageProductsPath => (ShopOwnerOnly, ManageProductsPage)
    case AdminPath => (StaffOnly, AdminPage)
    case CreateAccountPath => (StaffOnly, CreateAccountPage)
    case BannedNamesPath => (StaffOnly, BannedNamesPage)
    case SiteSettingsPath => (StaffOnly, SiteSettingsPage)
    case UserEditPath => (StaffOnly, UserEditPage)
    case CreateShopPath => (OwnerOnly, CreateShopPage)
    case Unlisted => (Public, NotFoundPage)
  }

  /** Because no pattern repeats, the first-match `Switch` over the ordered rows is exactly the per-location declaration. */
  lemma ResolveIsDeclared(loc: Location)
    ensures Resolve(loc) == Declared(loc)
  {
    ResolveRow(loc);
    if loc != Unlisted {
      RowsInOrder(RowOf(loc));
    }
  }

  /** The guard class of every row, as the router declares it; only the shop-creation page is owner-only. */
  lemma GuardClasses(p: Location)
    ensures Resolve(p).0 == Public <==>
      p in {TermsPath, PrivacyPath, CatalogPath, ShopsPath, AuthPath, ShopPath, ProductPath, UserProfilePath, Unlisted}
    ensures Resolve(p).0 == Authenticated <==>
      p in {HomePath, ProfilePath, ComplaintsPath, ChatsPath, ShopChatPath, NotificationsPath, ShopStaffPath}
    ensures Resolve(p).0 == ShopOwnerOnly <==>
      p in {ShopAppealPath, ShopChatsPath, EditShopPath, CreateProductPath, EditProductPath, ManageShopsPath,
            ManageProductsPath}
    ensures Resolve(p).0 == StaffOnly <==>
      p in {AdminPath, CreateAccountPath, BannedNamesPath, SiteSettingsPath, UserEditPath}
    ensures p == CreateShopPath <==> Resolve(p).0 == OwnerOnly
  {
    ResolveIsDeclared(p);
  }

  /** A location no row declares shows the unguarded not-found page, to everyone. */
  lemma UnknownLocation(isLoading: bool, user: Option<User>)
    ensures Resolve(Unlisted) == (Public, NotFoundPage)
    ensures Visit(Unlisted, isLoading, user) == Render
  {
    ResolveRow(Unlisted);
  }

  /** Once loading is over, a signed-in user sees the page at a location exactly when the table admits the role. */
  lemma ReachByRole(location: Location, u: User)
    ensures Visit(location, false, Some(u)) == Render <==> u.role in Permitted(Resolve(location).0)
  {
    LoadedAccess(Resolve(location).0, u);
  }

  /** Only owners and security officers can open the shop-creation page. */
  lemma CreateShopOnlyOwners(u: User)
    ensures Visit(CreateShopPath, false, Some(u)) == Render <==> u.role == OWNER || u.role == SECURITY
  {
    ResolveIsDeclared(CreateShopPath);
    ReachByRole(CreateShopPath, u);
  }

  /**
   * The cart is hidden only where the login page shows, but not everywhere
   * it shows: the test compares the raw string, so `/auth/` and `/AUTH`
   * show the login page with the cart over it.
   */
  lemma CartHiddenOnlyOnLogin(location: string)
    ensures !CartVisible(location) ==> AuthSpelling(location) && Resolve(AuthPath).1 == AuthPage
    ensures AuthSpelling("/auth/") && CartVisible("/auth/")
    ensures AuthSpelling("/AUTH") && CartVisible("/AUTH")
  {
    ResolveIsDeclared(AuthPath);
    assert "/auth/"[..5] == "/auth";
  }
}
