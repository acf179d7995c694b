/**
 * The navigation bar: the role tests it derives from the signed-in user, the
 * unread counters and their badge sums, the role labels, and which links it
 * offers to whom.
 */
module Navbar {

  import opened Wrappers
  import opened Roles
  import opened Guards
  import App

  /** `hasAdminAccess`: owners, security officers, head admins and admins. */
  predicate HasAdminAccess(user: Option<User>)
  {
    user.Some? && (user.value.role == OWNER || user.value.role == SECURITY ||
                   user.value.role == HEADADMIN || user.value.role == ADMIN)
  }

  /** `hasFullAccess`: owners and security officers. */
  predicate HasFullAccess(user: Option<User>)
  {
    user.Some? && (user.value.role == OWNER || user.value.role == SECURITY)
  }

  /** `isStaff`: the optional role differs from `USER`, which also holds when nobody is signed in. */
  predicate IsStaff(user: Option<User>)
  {
    user.None? || user.value.role != USER
  }

  /** `isShopRelated`: the shop's owner, manager or staff. */
  predicate IsShopRelated(user: Option<User>)
  {
    user.Some? && (user.value.role == SHOP_OWNER || user.value.role == SHOP_MAIN || user.value.role == SHOP_STAFF)
  }

  /** `isShopOwner`: the shop's owner or manager. */
  predicate IsShopOwner(user: Option<User>)
  {
    user.Some? && (user.value.role == SHOP_OWNER || user.value.role == SHOP_MAIN)
  }

  /**
   * The role tests as role sets: full access is the owner set of the route
   * guards and implies admin access; a shop owner is shop-related; and
   * `isStaff` fails only for a signed-in plain user.
   */
  lemma RoleTests(user: Option<User>)
    ensures HasAdminAccess(user) <==> HasRoleIn(user, {OWNER, SECURITY, HEADADMIN, ADMIN})
    ensures HasFullAccess(user) <==> HasRoleIn(user, OwnerRoles)
    ensures HasFullAccess(user) ==> HasAdminAccess(user)
    ensures IsShopOwner(user) ==> IsShopRelated(user)
    ensures IsShopRelated(user) <==> user.Some? && IsShopRole(user.value.role)
    ensures IsShopRelated(user) ==> IsStaff(user)
    ensures !IsStaff(user) <==> HasRoleIn(user, {USER})
  {
  }

  /** The unread counters the bar polls for. */
  datatype Counts = Counts(chats: nat, notifications: nat, complaints: nat, shopComplaints: nat, shopChats: nat)

  /** The counters used before any answer, without a user, and after a failed request. */
  const NoCounts := Counts(0, 0, 0, 0, 0)

  /**
   * The counters the bar shows: the query is disabled and answers zeros
   * without a user; a failed request (`response == None`) also yields zeros.
   */
  function ShownCounts(user: Option<User>, response: Option<Counts>): (c: Counts)
  {
    if user.None? then NoCounts
    else match response
      case None => NoCounts
      case Some(counts) => counts
  }

  /** `mainNotifications`. */
  function MainBadge(c: Counts): nat
  {
    c.complaints + c.chats
  }

  /** `shopNotifications`, the badge of the management menu. */
  function ShopBadge(c: Counts): nat
  {
    c.shopComplaints + c.shopChats
  }

  /** `adminNotifications`, the badge of the administration menu. */
  function AdminBadge(user: Option<User>, c: Counts): nat
  {
    if HasAdminAccess(user) then MainBadge(c) + ShopBadge(c) else 0
  }

  /**
   * Without a user, or when the request fails, the counters are all zero;
   * with a user and an answer they are the answer's.
   */
  lemma CountsDefault(user: Option<User>, response: Option<Counts>)
    ensures user.None? || response.None? ==> ShownCounts(user, response) == NoCounts
    ensures user.Some? && response.Some? ==> ShownCounts(user, response) == response.value
  {
  }

  /**
   * The administration badge totals all four complaint and chat counters for
   * an admin, is zero for everyone else, and appears exactly when an admin
   * has something unread.
   */
  lemma AdminBadgeTotal(user: Option<User>, c: Counts)
    ensures HasAdminAccess(user) ==>
      AdminBadge(user, c) == c.complaints + c.chats + c.shopComplaints + c.shopChats
    ensures !HasAdminAccess(user) ==> AdminBadge(user, c) == 0
    ensures AdminBadge(user, c) > 0 <==> HasAdminAccess(user) && (MainBadge(c) > 0 || ShopBadge(c) > 0)
  {
  }

  /** `formatRole`: the label of each role's wire name; any other text is shown as it is. */
  function FormatRole(role: string): (shown: string)
    ensures FromName(role).None? ==> shown == role
  {
    if role == "OWNER" then "Владелец"
    else if role == "SECURITY" then "Безопасность"
    else if role == "ADMIN" then "Администратор"
    else if role == "HEADADMIN" then "Главный админ"
    else if role == "MODERATOR" then "Модератор"
    else if role == "SHOP_OWNER" then "Владелец магазина"
    else if role == "SHOP_MAIN" then "Управляющий"
    else if role == "SHOP_STAFF" then "Сотрудник магазина"
    else if role == "USER" then "Пользователь"
    else role
  }

  /** No two roles share a label. */
  lemma FormatRoleDistinct(r1: Role, r2: Role)
    ensures FormatRole(Name(r1)) == FormatRole(Name(r2)) ==> r1 == r2
  {
    match r1
    case OWNER => case SECURITY => case HEADADMIN => case ADMIN => case MODERATOR =>
    case SHOP_OWNER => case SHOP_MAIN => case SHOP_STAFF => case USER =>
  }

  /** No label is itself a role's wire name, so a label is never translated twice. */
  lemma FormatRoleNotName(r: Role)
    ensures FromName(FormatRole(Name(r))).None?
  {
  }

  /** The links of the bar, its profile menu, and its administration and management menus. */
  datatype NavItem =
    | Logo | Cart | ChatsIcon | NotificationsIcon
    | Profile | Settings | BanList | SiteSettings
    | Catalog | Shops | Chats | Complaints | Orders
    | AdminPanel | CreateAccount
    | ManageShops | ManageProducts | CreateShop | ShopStaff(shopId: int) | ShopAppeal | ShopChats

  /** The decimal digits of a natural number, with no leading zero. */
  function Digits(n: nat): (s: string)
    ensures |s| > 0 && forall i :: 0 <= i < |s| ==> '0' <= s[i] <= '9'
    ensures s[0] == '0' <==> n == 0
  {
    var d := ['0' + (n % 10) as char];
    if n < 10 then d else Digits(n / 10) + d
  }

  /** The number a run of decimal digits denotes, most significant first. */
  function DigitsValue(s: string): nat
    requires forall i :: 0 <= i < |s| ==> '0' <= s[i] <= '9'
  {
    if s == [] then 0 else DigitsValue(s[..|s| - 1]) * 10 + (s[|s| - 1] as int - '0' as int)
  }

  /** The digits read back as the number: the shop id in a link is the user's own. */
  lemma {:induction false} DigitsRoundTrip(n: nat)
    ensures DigitsValue(Digits(n)) == n
  {
    var d := ['0' + (n % 10) as char];
    if n >= 10 {
      DigitsRoundTrip(n / 10);
      var s := Digits(n / 10) + d;
      assert s[..|s| - 1] == Digits(n / 10);
    }
  }

  /** A number as a template literal writes it. */
  function Decimal(n: int): string
  {
    if n < 0 then "-" + Digits(-n) else Digits(n)
  }

  /** The `href` of each item. */
  function Href(item: NavItem): string
  {
    match item
    case Logo => "/"
    case Cart => "/cart"
    case ChatsIcon => "/chats"
    case NotificationsIcon => "/notifications"
    case Profile => "/profile"
    case Settings => "/settings"
    case BanList => "/banned-names"
    case SiteSettings => "/site-settings"
    case Catalog => "/catalog"
    case Shops => "/shops"
    case Chats => "/chats"
    case Complaints => "/complaints"
    case Orders => "/orders"
    case AdminPanel => "/admin"
    case CreateAccount => "/create-account"
    case ManageShops => "/manage-shops"
    case ManageProducts => "/manage-products"
    case CreateShop => "/create-shop"
    case ShopStaff(id) => "/shops/" + Decimal(id) + "/staff"
    case ShopAppeal => "/shop-appeal"
    case ShopChats => "/shop-chats"
  }

  /** The router pattern an item's `href` matches; the cart, settings and orders links match none. */
  function Target(item: NavItem): App.Location
  {
    match item
    case Logo => App.HomePath
    case Cart => App.Unlisted
    case ChatsIcon => App.ChatsPath
    case NotificationsIcon => App.NotificationsPath
    case Profile => App.ProfilePath
    case Settings => App.Unlisted
    case BanList => App.BannedNamesPath
    case SiteSettings => App.SiteSettingsPath
    case Catalog => App.CatalogPath
    case Shops => App.ShopsPath
    case Chats => App.ChatsPath
    case Complaints => App.ComplaintsPath
    case Orders => App.Unlisted
    case AdminPanel => App.AdminPath
    case CreateAccount => App.CreateAccountPath
    case ManageShops => App.ManageShopsPath
    case ManageProducts => App.ManageProductsPath
    case CreateShop => App.CreateShopPath
    case ShopStaff(_) => App.ShopStaffPath
    case ShopAppeal => App.ShopAppealPath
    case ShopChats => App.ShopChatsPath
  }

  /** The staff link's shop, when the user is shop-related and has a non-zero `shopId`. */
  function StaffShop(user: Option<User>): Option<int>
  {
    if IsShopRelated(user) && user.value.shopId.Some? && user.value.shopId.value != 0
    then user.value.shopId else None
  }

  /** The profile menu's links: the ban list and site settings only for the owner. */
  function ProfileMenu(user: Option<User>): seq<NavItem>
  {
    [Profile, Settings] + (if user.Some? && user.value.role == OWNER then [BanList, SiteSettings] else [])
  }

  /** The administration menu, shown with admin access; account creation needs full access. */
  function AdminMenu(user: Option<User>): seq<NavItem>
  {
    if HasAdminAccess(user) then [AdminPanel] + (if HasFullAccess(user) then [CreateAccount] else []) else []
  }

  /** The management menu, shown to staff and to the shop's team. */
  function ManageMenu(user: Option<User>): seq<NavItem>
  {
    if IsStaff(user) || IsShopRelated(user) then
      [ManageShops, ManageProducts] + (if HasFullAccess(user) then [CreateShop] else []) + ShopTeamLinks(user)
    else []
  }

  /** The management menu's shop-team links: the shop's staff page, the appeal, and the shop chats. */
  function ShopTeamLinks(user: Option<User>): seq<NavItem>
  {
    (match StaffShop(user) case Some(id) => [ShopStaff(id)] case None => [])
    + (if IsShopOwner(user) then [ShopAppeal] else [])
    + (if IsShopRelated(user) then [ShopChats] else [])
  }

  /** Every item the bar offers, in the order it renders them. */
  function Links(user: Option<User>): seq<NavItem>
  {
    [Logo, Cart, ChatsIcon, NotificationsIcon] + ProfileMenu(user)
    + [Catalog, Shops, Chats, Complaints, Orders] + AdminMenu(user) + ManageMenu(user)
  }

  /**
   * The condition under which each item is offered, read item by item from
   * the role tests, without the nesting of the menus: the ban list and site
   * settings for the owner only, the administration panel for admin access,
   * account and shop creation for full access, the management links for
   * everyone but a signed-in plain user, the staff link for a shop-related
   * user with a non-zero shop, the appeal link for shop owners and managers,
   * and the shop chats for the shop's team.
   */
  predicate Offered(user: Option<User>, item: NavItem)
  {
    match item
    case BanList | SiteSettings => user.Some? && user.value.role == OWNER
    case AdminPanel => HasAdminAccess(user)
    case CreateAccount | CreateShop => HasFullAccess(user)
    case ManageShops | ManageProducts => !(user.Some? && user.value.role == USER)
    case ShopStaff(id) => StaffShop(user) == Some(id)
    case ShopAppeal => IsShopOwner(user)
    case ShopChats => IsShopRelated(user)
    case _ => true
  }

  /** The profile menu's entries. */
  lemma ProfileMenuItems(user: Option<User>, item: NavItem)
    ensures item in ProfileMenu(user) <==>
      item == Profile || item == Settings || ((item == BanList || item == SiteSettings) && user.Some? && user.value.role == OWNER)
  {
  }

  /** The administration menu's entries. */
  lemma AdminMenuItems(user: Option<User>, item: NavItem)
    ensures item in AdminMenu(user) <==>
      (item == AdminPanel && HasAdminAccess(user)) || (item == CreateAccount && HasFullAccess(user))
  {
  }

  /** The shop-team links. */
  lemma ShopTeamItems(user: Option<User>, item: NavItem)
    ensures item in ShopTeamLinks(user) <==>
      ((item.ShopStaff? && StaffShop(user) == Some(item.shopId)) || (item == ShopAppeal && IsShopOwner(user)) ||
       (item == ShopChats && IsShopRelated(user)))
  {
  }

  /** The management menu's entries. */
  lemma ManageMenuItems(user: Option<User>, item: NavItem)
    ensures item in ManageMenu(user) <==> ((IsStaff(user) || IsShopRelated(user)) &&
      (item == ManageShops || item == ManageProducts || (item == CreateShop && HasFullAccess(user)) ||
       (item.ShopStaff? && StaffShop(user) == Some(item.shopId)) || (item == ShopAppeal && IsShopOwner(user)) ||
       (item == ShopChats && IsShopRelated(user))))
  {
    ShopTeamItems(user, item);
  }

  /** Membership in the bar splits over its parts. */
  lemma LinksParts(user: Option<User>, item: NavItem)
    ensures item in Links(user) <==>
      (item in [Logo, Cart, ChatsIcon, NotificationsIcon] || item in ProfileMenu(user) ||
       item in [Catalog, Shops, Chats, Complaints, Orders] || item in AdminMenu(user) || item in ManageMenu(user))
  {
  }

  /** The links outside the menus and the first two profile entries. */
  lemma FixedOffered(user: Option<User>, item: NavItem)
    requires item.Logo? || item.Cart? || item.ChatsIcon? || item.NotificationsIcon? ||
             item.Catalog? || item.Shops? || item.Chats? || item.Complaints? || item.Orders? || item.Profile? || item.Settings?
    ensures item in Links(user) <==> Offered(user, item)
  {
    LinksParts(user, item);
    ProfileMenuItems(user, item);
    AdminMenuItems(user, item);
    ManageMenuItems(user, item);
  }

  /** The owner's two profile entries. */
  lemma OwnerEntriesOffered(user: Option<User>, item: NavItem)
    requires item.BanList? || item.SiteSettings?
    ensures item in Links(user) <==> Offered(user, item)
  {
    LinksParts(user, item);
    ProfileMenuItems(user, item);
    AdminMenuItems(user, item);
    ManageMenuItems(user, item);
  }

  /** The administration menu. */
  lemma AdminEntriesOffered(user: Option<User>, item: NavItem)
    requires item.AdminPanel? || item.CreateAccount?
    ensures item in Links(user) <==> Offered(user, item)
  {
    LinksParts(user, item);
    ProfileMenuItems(user, item);
    AdminMenuItems(user, item);
    ManageMenuItems(user, item);
  }

  /** The management menu's first three links. */
  lemma ManageEntriesOffered(user: Option<User>, item: NavItem)
    requires item.ManageShops? || item.ManageProducts? || item.CreateShop?
    ensures item in Links(user) <==> Offered(user, item)
  {
    LinksParts(user, item);
    ProfileMenuItems(user, item);
    AdminMenuItems(user, item);
    ManageMenuItems(user, item);
  }

  /** The link to the staff page of the user's shop. */
  lemma StaffLinkOffered(user: Option<User>, item: NavItem)
    requires item.ShopStaff?
    ensures item in Links(user) <==> Offered(user, item)
  {
    LinksParts(user, item);
    ProfileMenuItems(user, item);
    AdminMenuItems(user, item);
    ManageMenuItems(user, item);
  }

  /** The appeal and the shop chats. */
  lemma ShopTeamOffered(user: Option<User>, item: NavItem)
    requires item.ShopAppeal? || item.ShopChats?
    ensures item in Links(user) <==> Offered(user, item)
  {
    LinksParts(user, item);
    ProfileMenuItems(user, item);
    AdminMenuItems(user, item);
    ManageMenuItems(user, item);
  }

  /** The nested menus offer exactly the items whose own condition holds. */
  lemma LinksOffered(user: Option<User>, item: NavItem)
    ensures item in Links(user) <==> Offered(user, item)
  {
    match item
    case BanList | SiteSettings => OwnerEntriesOffered(user, item);
    case AdminPanel | CreateAccount => AdminEntriesOffered(user, item);
    case ManageShops | ManageProducts | CreateShop => ManageEntriesOffered(user, item);
    case ShopStaff(_) => StaffLinkOffered(user, item);
    case ShopAppeal | ShopChats => ShopTeamOffered(user, item);
    case _ => FixedOffered(user, item);
  }

  /**
   * Following a link the bar shows to a signed-in user, once loading is over,
   * renders a page except where the bar and the router disagree: the two
   * management links for head admins, moderators and shop staff, and the
   * shop-chats link for shop staff, all of which redirect home. The cart,
   * settings and orders links have no route: what renders there is the
   * not-found page.
   */
  lemma ShownLinkOutcome(u: User, item: NavItem)
    requires Offered(Some(u), item)
    ensures App.Visit(Target(item), false, Some(u)) != Render <==>
      ((item == ManageShops || item == ManageProducts) && u.role in {HEADADMIN, MODERATOR, SHOP_STAFF}) ||
      (item == ShopChats && u.role == SHOP_STAFF)
    ensures App.Visit(Target(item), false, Some(u)) != Render ==> App.Visit(Target(item), false, Some(u)) == Redirect("/")
    ensures App.Resolve(Target(item)).1 == App.NotFoundPage <==> item == Cart || item == Settings || item == Orders
  {
    App.ResolveIsDeclared(Target(item));
    LoadedAccess(App.Resolve(Target(item)).0, u);
    EveryRoleSignedIn(u.role);
  }

  /** A visitor who is not signed in is offered the management menu, whose links then ask for a login. */
  lemma SignedOutManagement()
    ensures Offered(None, ManageShops) && Offered(None, ManageProducts)
    ensures App.Visit(Target(ManageShops), false, None) == Redirect("/auth")
    ensures App.Visit(Target(ManageProducts), false, None) == Redirect("/auth")
    ensures !Offered(None, AdminPanel) && !Offered(None, ShopChats)
  {
    App.ResolveIsDeclared(App.ManageShopsPath);
    App.ResolveIsDeclared(App.ManageProductsPath);
  }
}
