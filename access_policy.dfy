/**
 * The request-authorization table of `clientSecurityFilterChain`: an
 * ordered list of (request matcher, rule) entries where the first entry
 * whose matcher accepts the request path decides. Paths are compared as
 * exact strings.
 */
module AccessPolicy {
  import opened Wrappers
  import opened Claims
  import opened Authorities

  datatype Decision = Allow | Deny

  /** `requestMatchers(p1, p2, ...)` or `anyRequest()`. */
  datatype Matcher = Paths(patterns: seq<string>) | AnyRequest

  /** `permitAll()`, `hasAuthority(a)` or `denyAll()`. */
  datatype Rule = PermitAll | HasAuthority(authority: string) | DenyAll

  datatype Entry = Entry(matcher: Matcher, rule: Rule)

  predicate Matches(m: Matcher, path: string) {
    match m
    case Paths(patterns) => path in patterns
    case AnyRequest => true
  }

  /** The decision a rule takes for a request with these authority strings. */
  function Apply(rule: Rule, authorities: set<string>): (d: Decision)
    ensures d == Allow <==> rule.PermitAll? || (rule.HasAuthority? && rule.authority in authorities)
  {
    match rule
    case PermitAll => Allow
    case HasAuthority(a) => if a in authorities then Allow else Deny
    case DenyAll => Deny
  }

  /**
   * First match wins: the decision of the first entry whose matcher
   * accepts `path`, or `None` when no entry matches.
   */
  function Evaluate(table: seq<Entry>, path: string, authorities: set<string>): (r: Option<Decision>)
    ensures r.None? <==> forall i :: 0 <= i < |table| ==> !Matches(table[i].matcher, path)
    ensures r.Some? ==>
              exists i :: 0 <= i < |table| && Matches(table[i].matcher, path) &&
                (forall j :: 0 <= j < i ==> !Matches(table[j].matcher, path)) &&
                r.value == Apply(table[i].rule, authorities)
  {
    if table == [] then None
    else if Matches(table[0].matcher, path) then Some(Apply(table[0].rule, authorities))
    else
      var rest := Evaluate(table[1..], path, authorities);
      assert forall i :: 1 <= i < |table| ==> table[i] == table[1..][i - 1];
      rest
  }

  /** The table configured at `authorizeHttpRequests`. */
  const ClientTable: seq<Entry> := [
    Entry(Paths(["/", "/favicon.ico"]), PermitAll),
    Entry(Paths(["/nice"]), HasAuthority("NICE")),
    Entry(AnyRequest, DenyAll)
  ]

  /**
   * The access decision for a request to `path` by a session holding the
   * given authority strings.
   */
  function Decide(path: string, authorities: set<string>): (d: Decision)
    ensures path == "/" || path == "/favicon.ico" ==> d == Allow
    ensures path == "/nice" ==> (d == Allow <==> "NICE" in authorities)
    ensures path != "/" && path != "/favicon.ico" && path != "/nice" ==> d == Deny
  {
    assert Matches(ClientTable[2].matcher, path);
    assert path == "/nice" ==> !Matches(ClientTable[0].matcher, path) && Matches(ClientTable[1].matcher, path);
    Evaluate(ClientTable, path, authorities).value
  }

  /** Only `/`, `/favicon.ico` and `/nice` can ever be allowed. */
  lemma DecideAllowsOnlyListedPaths(path: string, authorities: set<string>)
    requires Decide(path, authorities) == Allow
    ensures path in {"/", "/favicon.ico", "/nice"}
  {
  }

  /**
   * After a login, `/nice` is allowed exactly when an ID token of the login
   * lists the realm role "NICE".
   */
  lemma {:induction false} NiceAllowedAfterLogin(login: seq<GrantedAuthority>)
    requires WellTypedLogin(login)
    ensures CanConvert(RealmRolesConverter, login)
    ensures Decide("/nice", AuthorityStrings(MapAuthorities(RealmRolesConverter, login))) == Allow <==>
              exists i :: 0 <= i < |login| && login[i].OidcUserAuthority? &&
                HasRole(login[i].idTokenClaims, "NICE")
  {
    MapRealmRolesGrants(login, "NICE");
  }
}
