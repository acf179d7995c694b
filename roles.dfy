/** The user roles and the user record that every page consults. */
module Roles {

  import opened Wrappers

  /** The `UserRole` enumeration of the shared schema. */
  datatype Role =
    | OWNER | SECURITY | HEADADMIN | ADMIN | MODERATOR
    | SHOP_OWNER | SHOP_MAIN | SHOP_STAFF | USER

  /** A signed-in user as the session provider hands it to the pages. */
  datatype User = User(
    id: int,
    username: string,
    displayName: string,
    role: Role,
    shopId: Option<int>)

  /** The string value each role carries on the wire. */
  function Name(r: Role): string
  {
    match r
    case OWNER => "OWNER"
    case SECURITY => "SECURITY"
    case HEADADMIN => "HEADADMIN"
    case ADMIN => "ADMIN"
    case MODERATOR => "MODERATOR"
    case SHOP_OWNER => "SHOP_OWNER"
    case SHOP_MAIN => "SHOP_MAIN"
    case SHOP_STAFF => "SHOP_STAFF"
    case USER => "USER"
  }

  /** Reads a wire role string back; any other string is not a role. */
  function FromName(s: string): (r: Option<Role>)
    ensures r.Some? ==> Name(r.value) == s
  {
    if s == "OWNER" then Some(OWNER)
    else if s == "SECURITY" then Some(SECURITY)
    else if s == "HEADADMIN" then Some(HEADADMIN)
    else if s == "ADMIN" then Some(ADMIN)
    else if s == "MODERATOR" then Some(MODERATOR)
    else if s == "SHOP_OWNER" then Some(SHOP_OWNER)
    else if s == "SHOP_MAIN" then Some(SHOP_MAIN)
    else if s == "SHOP_STAFF" then Some(SHOP_STAFF)
    else if s == "USER" then Some(USER)
    else None
  }

  /** Every role's wire name reads back as that role, so the names are distinct. */
  lemma NameRoundTrip(r: Role)
    ensures FromName(Name(r)) == Some(r)
  {
  }

  /** The three roles that belong to a shop's own team. */
  predicate IsShopRole(r: Role)
  {
    r == SHOP_OWNER || r == SHOP_MAIN || r == SHOP_STAFF
  }

  /** The role of an optional user, when present. */
  predicate HasRoleIn(user: Option<User>, roles: set<Role>)
  {
    user.Some? && user.value.role in roles
  }
}
