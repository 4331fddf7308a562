// UserDetailsServiceImpl: loading the security view of a user by e-mail,
// with the role turned into at most one granted authority.
module UserDetailsService {
  import opened Wrappers
  import opened JavaStrings
  import opened Errors
  import opened Security
  import opened Users

  /** `trim().toLowerCase()`, the one normalisation applied to e-mail addresses everywhere. */
  function NormalizedEmail(s: string): string
  {
    ToLower(Trim(s))
  }

  /** Normalising twice changes nothing. */
  lemma NormalizedEmailIdempotent(s: string)
    ensures NormalizedEmail(NormalizedEmail(s)) == NormalizedEmail(s)
  {
    TrimIsSlice(s);
    CaseKeepsTrimmed(Trim(s));
    TrimOfTrimmed(ToLower(Trim(s)));
    ToLowerIdempotent(Trim(s));
  }

  /** The authorities of a stored role: none for a null or blank role, else "ROLE_" + the upper-cased role. */
  function Authorities(role: Option<string>): seq<string>
  {
    if role.Some? && !IsBlank(role.value) then [RoleAuthority(ToUpper(role.value))] else []
  }

  /** At most one authority; exactly one unless the role is null or blank, and it grants `hasRole` of the upper-cased role. */
  lemma AuthoritiesMeaning(role: Option<string>)
    ensures |Authorities(role)| <= 1
    ensures Authorities(role) == [] <==> NullOrBlank(role)
    ensures !NullOrBlank(role) ==> Authorities(role) == ["ROLE_" + ToUpper(role.value)]
    ensures forall a :: a in Authorities(role) ==> |a| >= 5 && a[..5] == "ROLE_"
  {
  }

  /** `loadUserByUsername`: looks the normalised e-mail up; the details carry the stored e-mail and password hash. */
  function LoadUserByUsername(users: map<string, User>, username: string): Result<UserDetails, Exception>
  {
    var email := NormalizedEmail(username);
    if email !in users then Err(Exception(UsernameNotFound, "User not found with email: " + email))
    else
      var user := users[email];
      Ok(UserDetails(user.email, user.password, Authorities(user.role)))
  }

  /**
   * The load succeeds exactly for a stored e-mail, and a user without a
   * role is still returned, with no authorities.
   */
  lemma LoadUserByUsernameMeaning(users: map<string, User>, username: string)
    ensures LoadUserByUsername(users, username).Ok? <==> NormalizedEmail(username) in users
    ensures LoadUserByUsername(users, username).Err? ==>
              LoadUserByUsername(users, username).error.kind == UsernameNotFound
    ensures LoadUserByUsername(users, username).Ok? ==>
              var u := users[NormalizedEmail(username)];
              var d := LoadUserByUsername(users, username).value;
              && d.username == u.email && d.password == u.password
              && (NullOrBlank(u.role) <==> d.authorities == [])
  {
    AuthoritiesMeaning(if NormalizedEmail(username) in users then users[NormalizedEmail(username)].role else None);
  }

  /** Surrounding white space and letter case in the name do not matter. */
  lemma LoadIgnoresCaseAndSpace(users: map<string, User>, username: string)
    ensures LoadUserByUsername(users, NormalizedEmail(username)) == LoadUserByUsername(users, username)
  {
    NormalizedEmailIdempotent(username);
  }

  /** In a well-formed repository the loaded username is the normalised name that was asked for. */
  lemma LoadedNameIsKey(users: UserRepository, username: string)
    requires users.Valid()
    requires LoadUserByUsername(users.byEmail, username).Ok?
    ensures LoadUserByUsername(users.byEmail, username).value.username == NormalizedEmail(username)
  {
  }
}
