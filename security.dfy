// Spring Security's view of the caller: the authentication held in the
// security context, its principal, its name and its granted authorities.
module Security {
  import opened Wrappers
  import opened Text

  /** Spring's `User` implementation of `UserDetails`: username, password hash and authorities. */
  datatype UserDetails = UserDetails(username: string, password: string, authorities: seq<string>)

  /** The principal of an authentication: a loaded user, or a bare name such as "anonymousUser". */
  datatype Principal = PrincipalDetails(details: UserDetails) | PrincipalName(name: string)

  /** An `Authentication`: principal, credentials (null for token logins), authorities and the authenticated flag. */
  datatype Authentication = Authentication(
    principal: Principal,
    credentials: Option<string>,
    authorities: seq<string>,
    authenticated: bool)

  const AnonymousPrincipal: string := "anonymousUser"

  /** `Authentication.getName`: the username of a loaded principal, or the bare name. */
  function Name(a: Authentication): string
  {
    match a.principal
    case PrincipalDetails(d) => d.username
    case PrincipalName(n) => n
  }

  /**
   * The test every service repeats: no authentication, an unauthenticated
   * one, or the anonymous principal.
   */
  predicate IsAnonymous(auth: Option<Authentication>)
  {
    auth.None? || !auth.value.authenticated || auth.value.principal == PrincipalName(AnonymousPrincipal)
  }

  /** The services' `getCurrentUsername`: empty for an anonymous caller, the caller's name otherwise. */
  function CurrentUsername(auth: Option<Authentication>): (r: Option<string>)
    ensures r.None? <==> IsAnonymous(auth)
    ensures r.Some? ==> r.value == Name(auth.value)
  {
    if IsAnonymous(auth) then None else Some(Name(auth.value))
  }

  /** Some granted authority is exactly `authority`. */
  predicate HasAuthority(a: Authentication, authority: string)
  {
    authority in a.authorities
  }

  /** `hasRole(r)`: the authority "ROLE_" + r. */
  function RoleAuthority(role: string): string
  {
    "ROLE_" + role
  }

  predicate HasRole(auth: Option<Authentication>, role: string)
  {
    auth.Some? && auth.value.authenticated && HasAuthority(auth.value, RoleAuthority(role))
  }

  /** `SecurityContextHolder.getContext()`: the one mutable slot holding the current authentication. */
  class SecurityContext {
    var authentication: Option<Authentication>

    constructor ()
      ensures authentication.None?
    {
      authentication := None;
    }

    method SetAuthentication(a: Authentication)
      modifies this`authentication
      ensures authentication == Some(a)
    {
      authentication := Some(a);
    }
  }
}
