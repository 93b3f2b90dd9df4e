# OIDC realm roles to authorities: a Dafny model

This project models the hand-written logic of a Spring Boot relying party
that logs users in through Keycloak (an OpenID Connect provider):

- the **realm-roles converter**, which reads `realm_access.roles` from the
  claims of an ID token and turns each role name into a role authority,
  keeping order and duplicates, and yields an empty list when
  `realm_access` or `roles` is absent or null;
- the **authorities mapper**, which keeps only the OIDC-user authorities of
  a fresh login, converts each one's ID-token claims, drops null results
  and collects all role authorities into a set;
- the **access table** of the security filter chain: `/` and `/favicon.ico`
  are permitted, `/nice` needs authority `NICE`, every other path is
  denied, first match winning;
- the **home presenter**, which projects the optional authentication into
  the view attributes `name`, `isAuthenticated` and `isNice`, and the
  constant view of the `nice` page.

Modules: `Wrappers` (an `Option` type standing for Java `null`), `Claims`
(JSON-like claim values, `Map.get` lookup, the shape of well-typed claims,
and `HasRole`, the reference definition of "the token lists this role"),
`Authorities` (authorities, converter, mapper), `AccessPolicy` (the rule
table and its first-match evaluation) and `HomeController`.

The comments at `Authorities.java:36` and `:38` say that a missing
`realm_access` or `roles` should raise an exception and fail authorization.
The code wraps both lookups in `Optional.ofNullable` and returns an empty
list instead; the model follows the code (`ConvertRealmRoles` returns `[]`).

## Model

| member | source | states |
|---|---|---|
| `Authorities.WrapRoles` | src/main/java/org/boilerplate/oauthkeycloak/security/Authorities.java:41-44 | one role authority per role name, same length, the i-th authority built from the i-th name |
| `Authorities.ConvertRealmRoles` | src/main/java/org/boilerplate/oauthkeycloak/security/Authorities.java:33-45 | reads `realm_access` and then its `roles` (lines 37-39); empty when `realm_access` is absent/null or its `roles` is absent/null; otherwise as many authorities as roles, in order, the i-th being the role authority of `roles[i]` |
| `Authorities.ConvertRealmRolesOnlyRoles` | src/main/java/org/boilerplate/oauthkeycloak/security/Authorities.java:42-43 | every authority the converter produces is a plain role authority |
| `Authorities.ConvertRealmRolesVerbatim` | src/main/java/org/boilerplate/oauthkeycloak/security/Authorities.java:41-44 | the authority string of the i-th result equals `roles[i]` unchanged |
| `Authorities.ConvertRealmRolesMembership` | src/main/java/org/boilerplate/oauthkeycloak/security/Authorities.java:37-44 | the role authority of `r` is in the result if and only if the claims list `r` in `realm_access.roles` |
| `Authorities.ConvertRealmRolesReadsOnlyRoles` | src/main/java/org/boilerplate/oauthkeycloak/security/Authorities.java:37-39 | two claim sets with the same value at `realm_access.roles` convert to the same list |
| `Authorities.ConvertRealmRolesIgnoresOtherClaims` | src/main/java/org/boilerplate/oauthkeycloak/security/Authorities.java:37 | rebinding any claim other than `realm_access` keeps the claims well typed and the result unchanged |
| `Authorities.MapAuthorities` | src/main/java/org/boilerplate/oauthkeycloak/security/Authorities.java:60-77 | for any converter, an authority is in the result set exactly when converting the ID-token claims of some OIDC-user authority of the input gives a non-null list containing it |
| `Authorities.MapRealmRolesMembership` | src/main/java/org/boilerplate/oauthkeycloak/security/Authorities.java:63-76 | with the realm-roles converter, role `r` is granted exactly when some OIDC-user authority's ID token lists `r` in `realm_access.roles` |
| `Authorities.MapRealmRolesOnlyRoles` | src/main/java/org/boilerplate/oauthkeycloak/security/Authorities.java:65-76 | the mapped set holds role authorities only; the OIDC-user authorities themselves are not kept |
| `Authorities.MapAuthoritiesWithoutOidcIsEmpty` | src/main/java/org/boilerplate/oauthkeycloak/security/Authorities.java:65 | an input without OIDC-user authorities maps to the empty set, whatever the converter |
| `Authorities.MapRealmRolesGrants` | src/main/java/org/boilerplate/oauthkeycloak/security/Authorities.java:63-76 | a string is among the mapped authority strings exactly when some ID token of the login lists it as a realm role |
| `Authorities.MapRealmRolesExample` | src/main/java/org/boilerplate/oauthkeycloak/security/Authorities.java:73-76 | roles `["NICE", "ADMIN"]` map to exactly the two authorities `NICE` and `ADMIN` |
| `Authorities.MapRealmRolesNoDuplicates` | src/main/java/org/boilerplate/oauthkeycloak/security/Authorities.java:76 | for every well-typed login, two mapped authorities with the same authority string are equal: `toSet` keeps each role once |
| `Authorities.MapRealmRolesDeduplicates` | src/main/java/org/boilerplate/oauthkeycloak/security/Authorities.java:76 | example: a role repeated within one token and across two tokens appears once in the mapped set |
| `AccessPolicy.Apply` | src/main/java/org/boilerplate/oauthkeycloak/security/Authorities.java:106-111 | a rule allows exactly when it is `permitAll`, or `hasAuthority(a)` with `a` among the authority strings |
| `AccessPolicy.Evaluate` | src/main/java/org/boilerplate/oauthkeycloak/security/Authorities.java:104-112 | no decision exactly when no matcher accepts the path; otherwise the decision of the first matching entry |
| `AccessPolicy.Decide` | src/main/java/org/boilerplate/oauthkeycloak/security/Authorities.java:104-112 | `/` and `/favicon.ico` are allowed for any authorities; `/nice` is allowed exactly when `NICE` is held; every other path is denied |
| `AccessPolicy.DecideAllowsOnlyListedPaths` | src/main/java/org/boilerplate/oauthkeycloak/security/Authorities.java:111 | an allowed request is for `/`, `/favicon.ico` or `/nice` |
| `AccessPolicy.NiceAllowedAfterLogin` | src/main/java/org/boilerplate/oauthkeycloak/security/Authorities.java:109 | after mapping a login's authorities, `/nice` is allowed exactly when some ID token lists realm role `NICE` |
| `HomeController.AnyAuthorityIs` | src/main/java/org/boilerplate/oauthkeycloak/controller/HomeController.java:36-37 | true exactly when some authority's string equals the wanted one |
| `HomeController.Home` | src/main/java/org/boilerplate/oauthkeycloak/controller/HomeController.java:28-40 | view `index`; `name` is the OIDC principal's preferred username for an OAuth2 token with an OIDC user, else `""`; `isAuthenticated` is false without authentication, else its flag; `isNice` holds exactly when an authentication is present and one of its authorities is `NICE` |
| `HomeController.Nice` | src/main/java/org/boilerplate/oauthkeycloak/controller/HomeController.java:43-46 | the view is always `nice` |
| `HomeController.HomeAnonymous` | src/main/java/org/boilerplate/oauthkeycloak/controller/HomeController.java:29-37 | without authentication the page has name `""` and is neither authenticated nor nice |
| `HomeController.IsNiceIgnoresAuthenticatedFlag` | src/main/java/org/boilerplate/oauthkeycloak/controller/HomeController.java:33-37 | flipping the authenticated flag never changes `isNice`; an unauthenticated authentication holding `NICE` is reported nice |
| `HomeController.IsNiceMatchesNiceRoute` | src/main/java/org/boilerplate/oauthkeycloak/controller/HomeController.java:35-37 | for a present authentication, `isNice` holds exactly when the access table allows `/nice` for its authorities |

## Left out

- Ill-typed claims: `realm_access` that is not an object, `roles` that is not a list, or an entry that is not a non-empty string. The Java code fails there with a cast or argument exception; the converter and the realm lemmas require well-typed claims (`WellTypedClaims`, `WellTypedLogin`) instead of modelling the exception.
- Role names made only of whitespace are accepted by the model; the library's authority constructor rejects them, and its text check is library code that is not part of this model.
- The login and logout flows (`oauth2Login`, the OIDC logout handler at `Authorities.java:85` and `:97-102`) are framework machinery following OpenID Connect Core 1.0 and RP-initiated logout, not logic of this repository.
- Request-matcher pattern semantics (trailing slashes, MVC path variants) and the redirect to the login page on a denied unauthenticated request: paths are exact strings and the decision is plain Allow/Deny.
- The framework's own check, inside `hasAuthority`, that an authentication is present: `Decide` looks at authority strings only.
- The `token` endpoint (`HomeController.java:51-58`): it returns the access token of the framework-held authorized client and logs the client object; it has no logic of its own.
- `AuthoritiesConverter.java`: a marker interface; the `Converter` function type stands in for it.
- The user-info and attributes carried by an OIDC-user authority, JWT decoding and signature checks, session handling and the Thymeleaf views.
- The framework's `Model` map: `home` returns its three attributes in a `HomePage` value instead of writing them into the map.
