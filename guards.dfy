/**
 * The four route guards: each turns the session state (still loading, and
 * the signed-in user if any) into a loading placeholder, a redirect, or the
 * guarded page.
 */
module Guards {

  import opened Wrappers
  import opened Roles

  /** What a guarded route shows. */
  datatype Outcome = Loading | Redirect(to: string) | Render

  /** The guard classes the route table uses; `Public` is a plain, unguarded route. */
  datatype Guard = Public | Authenticated | ShopOwnerOnly | StaffOnly | OwnerOnly

  const OwnerRoles: set<Role> := {OWNER, SECURITY}
  const StaffRoles: set<Role> := {OWNER, SECURITY, ADMIN, HEADADMIN, MODERATOR}
  const ShopManagerRoles: set<Role> := {OWNER, SECURITY, ADMIN, SHOP_OWNER, SHOP_MAIN}

  /** `isOwnerRole`: a user is present and is an owner or security officer. */
  predicate IsOwnerRole(user: Option<User>)
  {
    user.Some? && (user.value.role == OWNER || user.value.role == SECURITY)
  }

  /** `isOwnerRole` is membership in the owner set. */
  lemma IsOwnerRoleIff(user: Option<User>)
    ensures IsOwnerRole(user) <==> HasRoleIn(user, OwnerRoles)
  {
  }

  /** `ProtectedRoute`: loading first, then sign-in. */
  function AuthGuard(isLoading: bool, user: Option<User>): (o: Outcome)
    ensures o == Loading <==> isLoading
    ensures o == Redirect("/auth") <==> !isLoading && user.None?
    ensures o == Render <==> !isLoading && user.Some?
  {
    if isLoading then Loading
    else if user.None? then Redirect("/auth")
    else Render
  }

  /** `OwnerProtectedRoute`: loading, then sign-in, then the owner check. */
  function OwnerGuard(isLoading: bool, user: Option<User>): (o: Outcome)
    ensures o == Loading <==> isLoading
    ensures o == Redirect("/auth") <==> !isLoading && user.None?
    ensures o == Redirect("/") <==> !isLoading && user.Some? && user.value.role !in OwnerRoles
    ensures o == Render <==> !isLoading && HasRoleIn(user, OwnerRoles)
  {
    var isOwner := IsOwnerRole(user);
    if isLoading then Loading
    else if user.None? then Redirect("/auth")
    else if !isOwner then Redirect("/")
    else Render
  }

  /**
   * `StaffProtectedRoute`: an owner is let through before anything else, even
   * while the session is loading; the other staff roles wait for loading.
   */
  function StaffGuard(isLoading: bool, user: Option<User>): (o: Outcome)
    ensures o == Loading <==> isLoading && !HasRoleIn(user, OwnerRoles)
    ensures o == Redirect("/auth") <==> !isLoading && user.None?
    ensures o == Redirect("/") <==> !isLoading && user.Some? && user.value.role !in StaffRoles
    ensures o == Render <==> HasRoleIn(user, StaffRoles) && (!isLoading || HasRoleIn(user, OwnerRoles))
  {
    if user.Some? && IsOwnerRole(user) then Render
    else
      var isStaff := user.Some? &&
        (user.value.role == ADMIN || user.value.role == HEADADMIN || user.value.role == MODERATOR);
      if isLoading then Loading
      else if user.None? then Redirect("/auth")
      else if !isStaff then Redirect("/")
      else Render
  }

  /**
   * `ShopOwnerProtectedRoute`: the same owner short-circuit, then admins,
   * shop owners and shop managers; head admins and shop staff are sent home.
   */
  function ShopOwnerGuard(isLoading: bool, user: Option<User>): (o: Outcome)
    ensures o == Loading <==> isLoading && !HasRoleIn(user, OwnerRoles)
    ensures o == Redirect("/auth") <==> !isLoading && user.None?
    ensures o == Redirect("/") <==> !isLoading && user.Some? && user.value.role !in ShopManagerRoles
    ensures o == Render <==> HasRoleIn(user, ShopManagerRoles) && (!isLoading || HasRoleIn(user, OwnerRoles))
  {
    if user.Some? && IsOwnerRole(user) then Render
    else
      var canAccess := user.Some? &&
        (user.value.role == ADMIN || user.value.role == SHOP_OWNER || user.value.role == SHOP_MAIN);
      if isLoading then Loading
      else if user.None? then Redirect("/auth")
      else if !canAccess then Redirect("/")
      else Render
  }

  /** The guard a route uses, applied to the session. A public route always renders. */
  function Decide(g: Guard, isLoading: bool, user: Option<User>): Outcome
  {
    match g
    case Public => Render
    case Authenticated => AuthGuard(isLoading, user)
    case ShopOwnerOnly => ShopOwnerGuard(isLoading, user)
    case StaffOnly => StaffGuard(isLoading, user)
    case OwnerOnly => OwnerGuard(isLoading, user)
  }

  /** The roles a guard class admits, as a flat permission table. */
  function Permitted(g: Guard): set<Role>
  {
    match g
    case Public | Authenticated => {OWNER, SECURITY, HEADADMIN, ADMIN, MODERATOR, SHOP_OWNER, SHOP_MAIN, SHOP_STAFF, USER}
    case ShopOwnerOnly => ShopManagerRoles
    case StaffOnly => StaffRoles
    case OwnerOnly => OwnerRoles
  }

  /**
   * The precedence a guard is meant to follow: loading first, then sign-in,
   * then the permission table, then the page.
   */
  function Reference(g: Guard, isLoading: bool, user: Option<User>): Outcome
  {
    if g == Public then Render
    else if isLoading then Loading
    else if user.None? then Redirect("/auth")
    else if user.value.role !in Permitted(g) then Redirect("/")
    else Render
  }

  /**
   * Every guard follows the permission table with loading first, except the
   * staff and shop-owner guards, which let an owner or security officer in
   * while the session is still loading.
   */
  lemma GuardsFollowTable(g: Guard, isLoading: bool, user: Option<User>)
    ensures (g == StaffOnly || g == ShopOwnerOnly) && isLoading && IsOwnerRole(user) ==>
      Decide(g, isLoading, user) == Render && Reference(g, isLoading, user) == Loading
    ensures !((g == StaffOnly || g == ShopOwnerOnly) && isLoading && IsOwnerRole(user)) ==>
      Decide(g, isLoading, user) == Reference(g, isLoading, user)
  {
    if g == Authenticated && !isLoading && user.Some? {
      EveryRoleSignedIn(user.value.role);
    }
  }

  /** The sign-in-only guard admits every role. */
  lemma EveryRoleSignedIn(r: Role)
    ensures r in Permitted(Authenticated) && r in Permitted(Public)
  {
    match r
    case OWNER => case SECURITY => case HEADADMIN => case ADMIN => case MODERATOR =>
    case SHOP_OWNER => case SHOP_MAIN => case SHOP_STAFF => case USER =>
  }

  /** Once loading is over, a signed-in user reaches a guarded page exactly when the table admits the role. */
  lemma LoadedAccess(g: Guard, u: User)
    ensures Decide(g, false, Some(u)) == Render <==> u.role in Permitted(g)
    ensures Decide(g, false, Some(u)) != Render ==> Decide(g, false, Some(u)) == Redirect("/")
  {
    GuardsFollowTable(g, false, Some(u));
    EveryRoleSignedIn(u.role);
  }

  /** Every guarded route sends a visitor who is not signed in to the login page once loading is over. */
  lemma SignedOutGoesToLogin(g: Guard)
    requires g != Public
    ensures Decide(g, false, None) == Redirect("/auth")
  {
  }

  /** A guard redirects only to the login page or the home page, and renders only for a signed-in user. */
  lemma OutcomeShape(g: Guard, isLoading: bool, user: Option<User>)
    ensures Decide(g, isLoading, user).Redirect? ==> Decide(g, isLoading, user).to in {"/auth", "/"}
    ensures g != Public && Decide(g, isLoading, user) == Render ==> user.Some?
  {
  }

  /** The shop-owner guard admits admins but turns away head admins and shop staff. */
  lemma ShopOwnerGuardQuirks(u: User)
    ensures u.role == ADMIN ==> ShopOwnerGuard(false, Some(u)) == Render
    ensures u.role == HEADADMIN ==> ShopOwnerGuard(false, Some(u)) == Redirect("/")
    ensures u.role == SHOP_STAFF ==> ShopOwnerGuard(false, Some(u)) == Redirect("/")
  {
  }

  /** The owner guard is the strictest: whoever it lets in, the other guards let in too. */
  lemma OwnerGuardStrictest(g: Guard, isLoading: bool, user: Option<User>)
    requires OwnerGuard(isLoading, user) == Render
    ensures Decide(g, isLoading, user) == Render
  {
  }
}
