/**
 * `HomeController`: the home page presenter, a read-only projection of the
 * current authentication into the view attributes `name`,
 * `isAuthenticated` and `isNice`, and the role-gated `nice` page.
 */
module HomeController {
  import opened Wrappers
  import opened Authorities
  import opened AccessPolicy

  /** The principal of an authentication; `OidcUser` carries `preferred_username` (`None` is Java `null`). */
  datatype Principal = OidcUser(preferredUsername: Option<string>) | OtherPrincipal

  /** An `OAuth2AuthenticationToken` with its principal, or any other kind. */
  datatype AuthenticationKind = OAuth2Token(principal: Principal) | OtherAuthentication

  datatype Authentication = Authentication(
    kind: AuthenticationKind,
    authenticated: bool,
    authorities: seq<GrantedAuthority>)

  /** The view name and the three attributes `home` writes into the model; a `None` name is Java `null`. */
  datatype HomePage = HomePage(view: string, name: Option<string>, isAuthenticated: bool, isNice: bool)

  /** The authentication came from the OIDC login and its principal is an OIDC user. */
  predicate IsOidcLogin(auth: Option<Authentication>) {
    auth.Some? && auth.value.kind.OAuth2Token? && auth.value.kind.principal.OidcUser?
  }

  /** `anyMatch(authority -> "NICE".equals(authority.getAuthority()))`. */
  function AnyAuthorityIs(authorities: seq<GrantedAuthority>, wanted: string): (b: bool)
    ensures b <==> exists i :: 0 <= i < |authorities| && AuthorityString(authorities[i]) == wanted
  {
    if authorities == [] then false
    else if AuthorityString(authorities[0]) == wanted then true
    else
      var rest := AnyAuthorityIs(authorities[1..], wanted);
      assert forall i :: 1 <= i < |authorities| ==> authorities[i] == authorities[1..][i - 1];
      rest
  }

  /** `home`: the index page and the projection of the (possibly absent) authentication. */
  function Home(auth: Option<Authentication>): (page: HomePage)
    ensures page.view == "index"
    ensures IsOidcLogin(auth) ==> page.name == auth.value.kind.principal.preferredUsername
    ensures !IsOidcLogin(auth) ==> page.name == Some("")
    ensures auth.None? ==> !page.isAuthenticated
    ensures auth.Some? ==> page.isAuthenticated == auth.value.authenticated
    ensures page.isNice <==>
              auth.Some? &&
              exists i :: 0 <= i < |auth.value.authorities| && AuthorityString(auth.value.authorities[i]) == "NICE"
  {
    var name :=
      match auth
      case Some(Authentication(OAuth2Token(OidcUser(username)), _, _)) => username
      case _ => Some("");
    var isAuthenticated := auth.Some? && auth.value.authenticated;
    var isNice := auth.Some? && AnyAuthorityIs(auth.value.authorities, "NICE");
    HomePage("index", name, isAuthenticated, isNice)
  }

  /** `nice`: the role-gated page's view name. */
  function Nice(): (view: string)
    ensures view == "nice"
  {
    "nice"
  }

  /** With no authentication the page shows an empty name, not logged in, not nice. */
  lemma HomeAnonymous()
    ensures Home(None) == HomePage("index", Some(""), false, false)
  {
  }

  /**
   * `isNice` does not look at `isAuthenticated`: an authentication that is
   * not authenticated but carries "NICE" is still reported nice.
   */
  lemma IsNiceIgnoresAuthenticatedFlag(auth: Authentication)
    ensures Home(Some(auth)).isNice == Home(Some(auth.(authenticated := !auth.authenticated))).isNice
    ensures Home(Some(Authentication(OtherAuthentication, false, [SimpleAuthority("NICE")]))).isNice
  {
  }

  /**
   * The presenter and the access table agree: for a present authentication,
   * `isNice` holds exactly when `/nice` is allowed for its authorities.
   */
  lemma IsNiceMatchesNiceRoute(auth: Authentication)
    ensures Home(Some(auth)).isNice <==>
              Decide("/nice", AuthorityStrings(set g | g in auth.authorities)) == Allow
  {
  }
}
