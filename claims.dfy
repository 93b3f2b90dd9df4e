/**
 * The decoded claims of an OIDC ID token: a mapping from claim names to
 * JSON-like values. Java's `Map.get` answers `null` both for a key that is
 * absent and for a key bound to `null`; `Get` models that lookup.
 */
module Claims {

  datatype Value =
    | Null
    | Bool(b: bool)
    | Number(n: int)
    | Text(s: string)
    | Array(items: seq<Value>)
    | Object(members: map<string, Value>)

  type ClaimSet = map<string, Value>

  const RealmAccess := "realm_access"
  const Roles := "roles"

  /** `m.get(key)`: the bound value, or `Null` when the key is absent. */
  function Get(m: map<string, Value>, key: string): Value {
    if key in m then m[key] else Null
  }

  /** Role names the authority constructor accepts: strings with text. */
  predicate AllRoleNames(items: seq<Value>) {
    forall i :: 0 <= i < |items| ==> items[i].Text? && |items[i].s| > 0
  }

  /** `roles` is absent/null, or a list of role names. */
  predicate WellTypedRoles(v: Value) {
    v.Null? || (v.Array? && AllRoleNames(v.items))
  }

  /** `realm_access` is absent/null, or an object whose `roles` is well typed. */
  predicate WellTypedRealmAccess(v: Value) {
    v.Null? || (v.Object? && WellTypedRoles(Get(v.members, Roles)))
  }

  /** The claims on which the role extraction does not fail with a cast error. */
  predicate WellTypedClaims(claims: ClaimSet) {
    WellTypedRealmAccess(Get(claims, RealmAccess))
  }

  /**
   * The value at the path `realm_access.roles`: `Null` when a key on the
   * path is missing or `realm_access` is not an object.
   */
  function RolesEntry(claims: ClaimSet): (v: Value)
    ensures WellTypedClaims(claims) ==> WellTypedRoles(v)
  {
    match Get(claims, RealmAccess)
    case Object(realmAccess) => Get(realmAccess, Roles)
    case _ => Null
  }

  /** Reference definition: `role` is listed in the claims' `realm_access.roles`. */
  predicate HasRole(claims: ClaimSet, role: string) {
    var roles := RolesEntry(claims);
    roles.Array? && Text(role) in roles.items
  }
}
