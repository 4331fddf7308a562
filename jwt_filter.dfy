// JwtAuthenticationFilter: the once-per-request gate that, given a valid
// bearer token for a known user, records that user as the request's
// authentication. The token service is a pair of parameters: a subject
// extractor and a validity test, either of which may throw.
module JwtFilter {
  import opened Wrappers
  import opened Text
  import opened Errors
  import opened Security
  import opened Users
  import opened UserDetailsService

  /** The rest of the filter chain; only how often it is invoked is observed. */
  class FilterChain {
    var invocations: nat

    constructor ()
      ensures invocations == 0
    {
      invocations := 0;
    }

    method DoFilter()
      modifies this
      ensures invocations == old(invocations) + 1
    {
      invocations := invocations + 1;
    }
  }

  const BearerPrefix: string := "Bearer "

  /** The header carries a bearer token. */
  predicate IsBearer(header: Option<string>)
  {
    header.Some? && StartsWith(header.value, BearerPrefix)
  }

  /** `authHeader.substring(7)`: the header without its "Bearer " prefix. */
  function TokenOf(header: string): (jwt: string)
    requires StartsWith(header, BearerPrefix)
    ensures BearerPrefix + jwt == header
  {
    header[|BearerPrefix|..]
  }

  /** The token authentication the filter builds: the loaded user as principal, no credentials, the user's authorities. */
  function TokenAuthentication(d: UserDetails): Authentication
  {
    Authentication(PrincipalDetails(d), None, d.authorities, true)
  }

  /**
   * The authentication `doFilterInternal` records, or None when it leaves
   * the context alone: no bearer header, no subject, an identity already
   * present, an unknown user, an invalid token, or any exception on the way.
   */
  function NewAuthentication(header: Option<string>, current: Option<Authentication>, users: map<string, User>,
                             extractUsername: string -> Result<Option<string>, Exception>,
                             isTokenValid: (string, UserDetails) -> Result<bool, Exception>): Option<Authentication>
  {
    if !IsBearer(header) then None
    else
      var jwt := TokenOf(header.value);
      match extractUsername(jwt)
      case Err(_) => None
      case Ok(subject) =>
        if subject.None? || current.Some? then None
        else
          match LoadUserByUsername(users, subject.value)
          case Err(_) => None
          case Ok(d) =>
            match isTokenValid(jwt, d)
            case Err(_) => None
            case Ok(valid) => if valid then Some(TokenAuthentication(d)) else None
  }

  /** `doFilterInternal`: possibly records the caller, and always passes the request on exactly once. */
  method DoFilterInternal(header: Option<string>, context: SecurityContext, chain: FilterChain, users: map<string, User>,
                          extractUsername: string -> Result<Option<string>, Exception>,
                          isTokenValid: (string, UserDetails) -> Result<bool, Exception>)
    modifies context`authentication, chain
    ensures chain.invocations == old(chain.invocations) + 1
    ensures var recorded := NewAuthentication(header, old(context.authentication), users, extractUsername, isTokenValid);
            context.authentication == if recorded.Some? then recorded else old(context.authentication)
  {
    if header.None? || !StartsWith(header.value, BearerPrefix) {
      chain.DoFilter();
      return;
    }
    var jwt := TokenOf(header.value);
    var subject := extractUsername(jwt);
    if subject.Ok? && subject.value.Some? && context.authentication.None? {
      var details := LoadUserByUsername(users, subject.value.value);
      if details.Ok? {
        var valid := isTokenValid(jwt, details.value);
        if valid.Ok? && valid.value {
          context.SetAuthentication(TokenAuthentication(details.value));
        }
      }
    }
    chain.DoFilter();
  }

  /** Without a bearer header, and whenever an identity is already present, the context is left as it was. */
  lemma NoChangeWithoutBearerOrWhenAuthenticated(header: Option<string>, current: Option<Authentication>, users: map<string, User>,
                                                 extractUsername: string -> Result<Option<string>, Exception>,
                                                 isTokenValid: (string, UserDetails) -> Result<bool, Exception>)
    ensures !IsBearer(header) ==> NewAuthentication(header, current, users, extractUsername, isTokenValid).None?
    ensures current.Some? ==> NewAuthentication(header, current, users, extractUsername, isTokenValid).None?
  {
  }

  /**
   * The context is set exactly when the header is a bearer header, its
   * token names a subject, no identity is present, the subject loads, and
   * the token is valid for the loaded user; the recorded principal is that
   * user, with null credentials and the user's authorities.
   */
  lemma NewAuthenticationMeaning(header: Option<string>, current: Option<Authentication>, users: map<string, User>,
                                 extractUsername: string -> Result<Option<string>, Exception>,
                                 isTokenValid: (string, UserDetails) -> Result<bool, Exception>)
    ensures var a := NewAuthentication(header, current, users, extractUsername, isTokenValid);
            a.Some? <==>
              && IsBearer(header) && current.None?
              && extractUsername(TokenOf(header.value)).Ok?
              && extractUsername(TokenOf(header.value)).value.Some?
              && LoadUserByUsername(users, extractUsername(TokenOf(header.value)).value.value).Ok?
              && isTokenValid(TokenOf(header.value), LoadUserByUsername(users, extractUsername(TokenOf(header.value)).value.value).value)
                 == Ok(true)
    ensures var a := NewAuthentication(header, current, users, extractUsername, isTokenValid);
            a.Some? ==>
              var d := LoadUserByUsername(users, extractUsername(TokenOf(header.value)).value.value).value;
              && a.value.principal == PrincipalDetails(d) && a.value.credentials.None?
              && a.value.authorities == d.authorities && a.value.authenticated
  {
  }

  /**
   * The identity the services then see is the stored user's e-mail, never
   * the anonymous user, and its roles are exactly the stored role's.
   */
  lemma RecordedCallerIsStoredUser(header: Option<string>, current: Option<Authentication>, users: UserRepository,
                                   extractUsername: string -> Result<Option<string>, Exception>,
                                   isTokenValid: (string, UserDetails) -> Result<bool, Exception>, role: string)
    requires users.Valid()
    requires NewAuthentication(header, current, users.byEmail, extractUsername, isTokenValid).Some?
    ensures var a := NewAuthentication(header, current, users.byEmail, extractUsername, isTokenValid);
            var email := NormalizedEmail(extractUsername(TokenOf(header.value)).value.value);
            && email in users.byEmail
            && CurrentUsername(a) == Some(email)
            && (HasRole(a, role) <==> RoleAuthority(role) in Authorities(users.byEmail[email].role))
  {
  }
}
