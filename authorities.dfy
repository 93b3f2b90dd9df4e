/**
 * The claims-to-authority pipeline of the `Authorities` configuration:
 * the realm-roles converter (claims to a list of authorities) and the
 * authorities mapper (the authorities of a fresh OIDC login to the set of
 * role authorities that the session keeps).
 */
module Authorities {
  import opened Wrappers
  import opened Claims

  /**
   * A granted authority: a plain role authority (`SimpleGrantedAuthority`)
   * or the authority an OIDC login grants (`OidcUserAuthority`), which
   * carries the claims of the user's ID token.
   */
  datatype GrantedAuthority =
    | SimpleAuthority(role: string)
    | OidcUserAuthority(authority: string, idTokenClaims: ClaimSet)

  /** `getAuthority()`: the string an access check compares. */
  function AuthorityString(g: GrantedAuthority): string {
    match g
    case SimpleAuthority(role) => role
    case OidcUserAuthority(authority, _) => authority
  }

  /** The authority strings of a set of authorities. */
  function AuthorityStrings(gs: set<GrantedAuthority>): set<string> {
    set g | g in gs :: AuthorityString(g)
  }

  // ---------------------------------------------------------------------
  // Realm-roles converter
  // ---------------------------------------------------------------------

  /** `.map(SimpleGrantedAuthority::new)` over the role names, in order. */
  function WrapRoles(items: seq<Value>): (r: seq<GrantedAuthority>)
    requires AllRoleNames(items)
    ensures |r| == |items|
    ensures forall i :: 0 <= i < |r| ==> r[i] == SimpleAuthority(items[i].s)
  {
    if items == [] then []
    else [SimpleAuthority(items[0].s)] + WrapRoles(items[1..])
  }

  /**
   * `realmRolesAuthoritiesConverter`: one role authority per entry of
   * `realm_access.roles`, order and duplicates kept; an empty list when
   * `realm_access` or `roles` is absent or null.
   */
  function ConvertRealmRoles(claims: ClaimSet): (r: seq<GrantedAuthority>)
    requires WellTypedClaims(claims)
    ensures Get(claims, RealmAccess) == Null ==> r == []
    ensures Get(claims, RealmAccess).Object? && Get(Get(claims, RealmAccess).members, Roles) == Null ==> r == []
    ensures RolesEntry(claims).Null? ==> r == []
    ensures var roles := RolesEntry(claims);
            roles.Array? ==>
              |r| == |roles.items| &&
              forall i :: 0 <= i < |r| ==> r[i] == SimpleAuthority(roles.items[i].s)
  {
    match RolesEntry(claims)
    case Array(items) => WrapRoles(items)
    case _ => []
  }

  /** Every authority the converter produces is a role authority. */
  lemma ConvertRealmRolesOnlyRoles(claims: ClaimSet)
    requires WellTypedClaims(claims)
    ensures forall i :: 0 <= i < |ConvertRealmRoles(claims)| ==>
              ConvertRealmRoles(claims)[i].SimpleAuthority?
  {
  }

  /** The i-th authority's string is the i-th role, verbatim. */
  lemma ConvertRealmRolesVerbatim(claims: ClaimSet, i: nat)
    requires WellTypedClaims(claims)
    requires RolesEntry(claims).Array?
    requires i < |RolesEntry(claims).items|
    ensures i < |ConvertRealmRoles(claims)|
    ensures AuthorityString(ConvertRealmRoles(claims)[i]) == RolesEntry(claims).items[i].s
  {
  }

  /** A role authority is produced exactly for the roles the claims list. */
  lemma ConvertRealmRolesMembership(claims: ClaimSet, role: string)
    requires WellTypedClaims(claims)
    ensures SimpleAuthority(role) in ConvertRealmRoles(claims) <==> HasRole(claims, role)
  {
  }

  /**
   * The converter reads nothing but `realm_access.roles`: two claim sets
   * that agree there convert alike, whatever else they hold.
   */
  lemma ConvertRealmRolesReadsOnlyRoles(c1: ClaimSet, c2: ClaimSet)
    requires WellTypedClaims(c1) && WellTypedClaims(c2)
    requires RolesEntry(c1) == RolesEntry(c2)
    ensures ConvertRealmRoles(c1) == ConvertRealmRoles(c2)
  {
  }

  /** Rebinding any claim other than `realm_access` leaves the result unchanged. */
  lemma ConvertRealmRolesIgnoresOtherClaims(claims: ClaimSet, key: string, v: Value)
    requires WellTypedClaims(claims)
    requires key != RealmAccess
    ensures WellTypedClaims(claims[key := v])
    ensures ConvertRealmRoles(claims[key := v]) == ConvertRealmRoles(claims)
  {
  }

  // ---------------------------------------------------------------------
  // Authorities mapper
  // ---------------------------------------------------------------------

  /** A claims-to-authorities converter; `None` is a `null` result. */
  type Converter = ClaimSet --> Option<seq<GrantedAuthority>>

  /** The realm-roles converter as the value handed to the mapper. */
  const RealmRolesConverter: Converter :=
    (claims: ClaimSet) requires WellTypedClaims(claims) => Some(ConvertRealmRoles(claims))

  /** The converter accepts the ID-token claims of every OIDC authority. */
  ghost predicate CanConvert(convert: Converter, authorities: seq<GrantedAuthority>) {
    forall i :: 0 <= i < |authorities| && authorities[i].OidcUserAuthority? ==>
      convert.requires(authorities[i].idTokenClaims)
  }

  /** `g` comes out of converting the ID-token claims of OIDC authority `a`. */
  ghost predicate Contributes(convert: Converter, a: GrantedAuthority, g: GrantedAuthority)
    requires a.OidcUserAuthority? ==> convert.requires(a.idTokenClaims)
  {
    a.OidcUserAuthority? &&
    convert(a.idTokenClaims).Some? &&
    g in convert(a.idTokenClaims).value
  }

  /** What one input authority adds to the mapper's set. */
  function Contribution(convert: Converter, a: GrantedAuthority): set<GrantedAuthority>
    requires a.OidcUserAuthority? ==> convert.requires(a.idTokenClaims)
  {
    match a
    case SimpleAuthority(_) => {}
    case OidcUserAuthority(_, claims) =>
      match convert(claims)
      case None => {}
      case Some(gs) => set g | g in gs
  }

  /**
   * `authenticationConverter`: keep the OIDC authorities, convert each one's
   * ID-token claims, drop null results, and collect everything into a set.
   */
  function MapAuthorities(convert: Converter, authorities: seq<GrantedAuthority>): (r: set<GrantedAuthority>)
    requires CanConvert(convert, authorities)
    ensures forall g :: g in r <==>
              exists i :: 0 <= i < |authorities| && Contributes(convert, authorities[i], g)
  {
    if authorities == [] then {}
    else Contribution(convert, authorities[0]) + MapAuthorities(convert, authorities[1..])
  }

  /** The OIDC authorities have claims the realm-roles converter accepts. */
  predicate WellTypedLogin(authorities: seq<GrantedAuthority>) {
    forall i :: 0 <= i < |authorities| && authorities[i].OidcUserAuthority? ==>
      WellTypedClaims(authorities[i].idTokenClaims)
  }

  /**
   * With the realm-roles converter, a role is granted exactly when some
   * OIDC authority's ID token lists it in `realm_access.roles`.
   */
  lemma MapRealmRolesMembership(authorities: seq<GrantedAuthority>, role: string)
    requires WellTypedLogin(authorities)
    ensures CanConvert(RealmRolesConverter, authorities)
    ensures SimpleAuthority(role) in MapAuthorities(RealmRolesConverter, authorities) <==>
              exists i :: 0 <= i < |authorities| && authorities[i].OidcUserAuthority? &&
                HasRole(authorities[i].idTokenClaims, role)
  {
  }

  /**
   * The mapped set holds role authorities only: the OIDC authorities
   * themselves (and any plain authority of the input) are not kept.
   */
  lemma MapRealmRolesOnlyRoles(authorities: seq<GrantedAuthority>)
    requires WellTypedLogin(authorities)
    ensures CanConvert(RealmRolesConverter, authorities)
    ensures forall g :: g in MapAuthorities(RealmRolesConverter, authorities) ==> g.SimpleAuthority?
  {
  }

  /** Without an OIDC authority in the input, the mapped set is empty. */
  lemma MapAuthoritiesWithoutOidcIsEmpty(convert: Converter, authorities: seq<GrantedAuthority>)
    requires forall i :: 0 <= i < |authorities| ==> authorities[i].SimpleAuthority?
    ensures CanConvert(convert, authorities)
    ensures MapAuthorities(convert, authorities) == {}
  {
  }

  /**
   * The session's authority strings after login: "NICE" is among them
   * exactly when some ID token lists the role "NICE".
   */
  lemma MapRealmRolesGrants(authorities: seq<GrantedAuthority>, role: string)
    requires WellTypedLogin(authorities)
    ensures CanConvert(RealmRolesConverter, authorities)
    ensures role in AuthorityStrings(MapAuthorities(RealmRolesConverter, authorities)) <==>
              exists i :: 0 <= i < |authorities| && authorities[i].OidcUserAuthority? &&
                HasRole(authorities[i].idTokenClaims, role)
  {
    var r := MapAuthorities(RealmRolesConverter, authorities);
    MapRealmRolesOnlyRoles(authorities);
    MapRealmRolesMembership(authorities, role);
    if role in AuthorityStrings(r) {
      var g :| g in r && AuthorityString(g) == role;
      assert g == SimpleAuthority(role);
    }
    if SimpleAuthority(role) in r {
      assert AuthorityString(SimpleAuthority(role)) == role;
    }
  }

  /**
   * The mapped set has no two authorities with the same authority string:
   * a role listed several times, in one token or in several, is granted once.
   */
  lemma MapRealmRolesNoDuplicates(authorities: seq<GrantedAuthority>)
    requires WellTypedLogin(authorities)
    ensures CanConvert(RealmRolesConverter, authorities)
    ensures var r := MapAuthorities(RealmRolesConverter, authorities);
            forall g1, g2 :: g1 in r && g2 in r && AuthorityString(g1) == AuthorityString(g2) ==> g1 == g2
  {
  }

  /** A one-token login whose ID token lists `roles`. */
  function LoginWithRoles(roles: seq<Value>): seq<GrantedAuthority> {
    [OidcUserAuthority("OIDC_USER", map[RealmAccess := Object(map[Roles := Array(roles)])])]
  }

  /** Roles ["NICE", "ADMIN"] map to exactly the two role authorities. */
  lemma MapRealmRolesExample()
    ensures WellTypedLogin(LoginWithRoles([Text("NICE"), Text("ADMIN")]))
    ensures CanConvert(RealmRolesConverter, LoginWithRoles([Text("NICE"), Text("ADMIN")]))
    ensures MapAuthorities(RealmRolesConverter, LoginWithRoles([Text("NICE"), Text("ADMIN")])) ==
              {SimpleAuthority("NICE"), SimpleAuthority("ADMIN")}
  {
  }

  /** Example: a role repeated within one token and across two tokens is granted once. */
  lemma MapRealmRolesDeduplicates()
    ensures WellTypedLogin(LoginWithRoles([Text("NICE"), Text("NICE")]) + LoginWithRoles([Text("NICE")]))
    ensures CanConvert(RealmRolesConverter, LoginWithRoles([Text("NICE"), Text("NICE")]) + LoginWithRoles([Text("NICE")]))
    ensures MapAuthorities(RealmRolesConverter, LoginWithRoles([Text("NICE"), Text("NICE")]) + LoginWithRoles([Text("NICE")])) ==
              {SimpleAuthority("NICE")}
  {
  }
}
