// SecurityConfig: the ordered request-authorisation table of `filterChain`.
// The first rule whose method and path pattern match a request decides
// its tier; a request no rule matches must be authenticated.
module SecurityConfig {
  import opened Wrappers
  import opened Text
  import opened Security

  datatype HttpMethod = GET | POST | PUT | DELETE | PATCH | HEAD | OPTIONS

  /** A path pattern: a literal path, or a subtree pattern (written with a trailing double star), which matches the prefix itself and everything below it. */
  datatype Pattern = Exact(path: string) | Subtree(prefix: string)

  /** What a matching request needs: nothing, any authenticated identity, or a role. */
  datatype Tier = PermitAll | Authenticated | HasRoleTier(role: string)

  /** One `requestMatchers(...)` entry; a None method matches every method. */
  datatype Rule = Rule(httpMethod: Option<HttpMethod>, pattern: Pattern, tier: Tier)

  predicate PatternMatches(p: Pattern, path: string)
  {
    match p
    case Exact(q) => path == q
    case Subtree(prefix) => path == prefix || StartsWith(path, prefix + "/")
  }

  predicate RuleMatches(r: Rule, m: HttpMethod, path: string)
  {
    (r.httpMethod.None? || r.httpMethod == Some(m)) && PatternMatches(r.pattern, path)
  }

  /** The table, in declaration order. */
  const Rules: seq<Rule> := [
    Rule(None, Exact("/api/users/register"), PermitAll),
    Rule(None, Exact("/api/users/login"), PermitAll),
    Rule(Some(POST), Exact("/api/public/contact"), PermitAll),
    Rule(None, Subtree("/uploads"), PermitAll),
    Rule(Some(GET), Exact("/api/properties"), PermitAll),
    Rule(Some(GET), Subtree("/api/properties"), Authenticated),
    Rule(Some(POST), Exact("/api/properties"), Authenticated),
    Rule(None, Subtree("/api/owner/properties"), Authenticated),
    Rule(None, Subtree("/api/bookings"), Authenticated),
    Rule(None, Subtree("/api/payments"), Authenticated),
    Rule(None, Subtree("/api/admin"), HasRoleTier("ADMIN")),
    Rule(None, Exact("/api/users/test-auth"), Authenticated)
  ]

  /** The tier of the first rule of `rules` from position `i` on that matches, or `anyRequest().authenticated()`. */
  function FirstMatchFrom(rules: seq<Rule>, i: nat, m: HttpMethod, path: string): Tier
    decreases |rules| - i
  {
    if i >= |rules| then Authenticated
    else if RuleMatches(rules[i], m, path) then rules[i].tier
    else FirstMatchFrom(rules, i + 1, m, path)
  }

  function TierOf(m: HttpMethod, path: string): Tier
  {
    FirstMatchFrom(Rules, 0, m, path)
  }

  /** Whether a caller meets a tier. */
  predicate Permits(t: Tier, auth: Option<Authentication>)
  {
    match t
    case PermitAll => true
    case Authenticated => !IsAnonymous(auth)
    case HasRoleTier(role) => HasRole(auth, role)
  }

  /** A request that no rule from position `i` on matches falls to the default, which needs an identity. */
  lemma {:induction false} NoMatchIsAuthenticated(rules: seq<Rule>, i: nat, m: HttpMethod, path: string)
    requires i <= |rules|
    requires forall k :: i <= k < |rules| ==> !RuleMatches(rules[k], m, path)
    ensures FirstMatchFrom(rules, i, m, path) == Authenticated
    decreases |rules| - i
  {
    if i < |rules| {
      NoMatchIsAuthenticated(rules, i + 1, m, path);
    }
  }

  /** First match decides: when rule `k` matches and none before it from `i` on does, `k`'s tier is the answer. */
  lemma {:induction false} FirstMatchWins(rules: seq<Rule>, i: nat, k: nat, m: HttpMethod, path: string)
    requires i <= k < |rules| && RuleMatches(rules[k], m, path)
    requires forall j :: i <= j < k ==> !RuleMatches(rules[j], m, path)
    ensures FirstMatchFrom(rules, i, m, path) == rules[k].tier
    decreases k - i
  {
    if i < k {
      FirstMatchWins(rules, i + 1, k, m, path);
    }
  }

  /** The text of a pattern. */
  function PatternText(p: Pattern): string
  {
    match p
    case Exact(q) => q
    case Subtree(q) => q
  }

  /** A path that differs from a pattern's text at a position inside that text does not match it. */
  lemma Differs(p: Pattern, path: string, k: nat)
    requires k < |PatternText(p)| && k < |path| && path[k] != PatternText(p)[k]
    ensures !PatternMatches(p, path)
  {
  }

  /** A path below a prefix matches the prefix's subtree pattern. */
  lemma Below(prefix: string, rest: string)
    ensures PatternMatches(Subtree(prefix), prefix + "/" + rest)
  {
    assert (prefix + "/" + rest)[..|prefix + "/"|] == prefix + "/";
  }

  /** Rules `i` up to `j` that do not match pass the request on to rule `j`. */
  lemma {:induction false} PassOn(rules: seq<Rule>, i: nat, j: nat, m: HttpMethod, path: string)
    requires i <= j <= |rules|
    requires forall k :: i <= k < j ==> !RuleMatches(rules[k], m, path)
    ensures FirstMatchFrom(rules, i, m, path) == FirstMatchFrom(rules, j, m, path)
    decreases j - i
  {
    if i < j {
      PassOn(rules, i + 1, j, m, path);
    }
  }

  /** Rule `j` does not match a path that differs from its pattern's text at position `k`. */
  lemma NotAt(j: nat, m: HttpMethod, path: string, k: nat)
    requires j < |Rules| && k < |PatternText(Rules[j].pattern)| && k < |path| && path[k] != PatternText(Rules[j].pattern)[k]
    ensures !RuleMatches(Rules[j], m, path)
  {
    Differs(Rules[j].pattern, path, k);
  }

  /** Registration and login are open to anyone, whatever the method. */
  lemma RegisterAndLoginOpen(m: HttpMethod)
    ensures TierOf(m, "/api/users/register") == PermitAll
    ensures TierOf(m, "/api/users/login") == PermitAll
  {
    FirstMatchWins(Rules, 0, 0, m, "/api/users/register");
    NotAt(0, m, "/api/users/login", 11);
    FirstMatchWins(Rules, 0, 1, m, "/api/users/login");
  }

  /** Posting to the contact form is public. */
  lemma ContactPostPublic()
    ensures TierOf(POST, "/api/public/contact") == PermitAll
  {
    var path := "/api/public/contact";
    NotAt(0, POST, path, 5);
    NotAt(1, POST, path, 5);
    FirstMatchWins(Rules, 0, 2, POST, path);
  }

  /** Every path under /uploads/ is public. */
  lemma UploadsPublic(m: HttpMethod, rest: string)
    ensures TierOf(m, "/uploads/" + rest) == PermitAll
  {
    var path := "/uploads/" + rest;
    assert path[1] == 'u';
    NotAt(0, m, path, 1);
    NotAt(1, m, path, 1);
    NotAt(2, m, path, 1);
    assert path == "/uploads" + "/" + rest;
    Below("/uploads", rest);
    FirstMatchWins(Rules, 0, 3, m, path);
  }

  /** The two user rules do not match a path under /api/ outside /api/users. */
  lemma PastUserRules(m: HttpMethod, path: string)
    requires |path| > 6 && path[5] != 'u'
    ensures !RuleMatches(Rules[0], m, path) && !RuleMatches(Rules[1], m, path)
  {
    NotAt(0, m, path, 5);
    NotAt(1, m, path, 5);
  }

  /** The contact and uploads rules do not match a path under /api/ outside /api/public. */
  lemma PastContactAndUploads(m: HttpMethod, path: string)
    requires |path| > 6 && path[1] == 'a' && path[6] != 'u'
    ensures !RuleMatches(Rules[2], m, path) && !RuleMatches(Rules[3], m, path)
  {
    if path[5] == 'p' {
      NotAt(2, m, path, 6);
    } else {
      NotAt(2, m, path, 5);
    }
    NotAt(3, m, path, 1);
  }

  /** The four public rules pass on a path under /api/ outside /api/users and /api/public. */
  lemma PastPublicRules(m: HttpMethod, path: string)
    requires |path| > 6 && path[1] == 'a' && path[5] != 'u' && path[6] != 'u'
    ensures FirstMatchFrom(Rules, 0, m, path) == FirstMatchFrom(Rules, 4, m, path)
  {
    PastUserRules(m, path);
    PastContactAndUploads(m, path);
    PassOn(Rules, 0, 4, m, path);
  }

  /** The three rules for /api/properties pass on a path that differs from it at position `k`. */
  lemma PastPropertyRules(m: HttpMethod, path: string, k: nat)
    requires 5 <= k < |"/api/properties"| && k < |path| && path[k] != "/api/properties"[k]
    ensures FirstMatchFrom(Rules, 4, m, path) == FirstMatchFrom(Rules, 7, m, path)
  {
    NotAt(4, m, path, k);
    NotAt(5, m, path, k);
    NotAt(6, m, path, k);
    PassOn(Rules, 4, 7, m, path);
  }

  /** The owner, booking and payment rules pass on a path under /api/ that is in none of those areas. */
  lemma PastAreaRules(m: HttpMethod, path: string)
    requires |path| > 6 && (path[5] != 'o' || path[6] != 'w') && path[5] != 'b' && path[5] != 'p'
    ensures FirstMatchFrom(Rules, 7, m, path) == FirstMatchFrom(Rules, 10, m, path)
  {
    if path[5] != 'o' {
      NotAt(7, m, path, 5);
    } else {
      NotAt(7, m, path, 6);
    }
    NotAt(8, m, path, 5);
    NotAt(9, m, path, 5);
    PassOn(Rules, 7, 10, m, path);
  }

  /** The property list is public to GET, but anything below it needs an identity. */
  lemma PropertyListPublicDetailsNot(rest: string)
    ensures TierOf(GET, "/api/properties") == PermitAll
    ensures TierOf(GET, "/api/properties/" + rest) == Authenticated
  {
    var list := "/api/properties";
    assert list[1] == 'a' && list[5] == 'p' && list[6] == 'r';
    PastPublicRules(GET, list);
    FirstMatchWins(Rules, 4, 4, GET, list);
    var path := "/api/properties/" + rest;
    assert path[1] == 'a' && path[5] == 'p' && path[6] == 'r';
    PastPublicRules(GET, path);
    assert |path| > |list|;
    assert !RuleMatches(Rules[4], GET, path);
    assert path == list + "/" + rest;
    Below(list, rest);
    FirstMatchWins(Rules, 4, 5, GET, path);
  }

  /** Paths under /api/owner/properties/ admit any authenticated identity. */
  lemma OwnerArea(m: HttpMethod, rest: string)
    ensures TierOf(m, "/api/owner/properties/" + rest) == Authenticated
  {
    var path := "/api/owner/properties/" + rest;
    assert path[1] == 'a' && path[5] == 'o' && path[6] == 'w';
    PastPublicRules(m, path);
    PastPropertyRules(m, path, 5);
    assert path == "/api/owner/properties" + "/" + rest;
    Below("/api/owner/properties", rest);
    FirstMatchWins(Rules, 7, 7, m, path);
  }

  /** Paths under /api/bookings/ admit any authenticated identity. */
  lemma BookingsArea(m: HttpMethod, rest: string)
    ensures TierOf(m, "/api/bookings/" + rest) == Authenticated
  {
    var path := "/api/bookings/" + rest;
    assert path[1] == 'a' && path[5] == 'b' && path[6] == 'o';
    PastPublicRules(m, path);
    PastPropertyRules(m, path, 5);
    NotAt(7, m, path, 5);
    assert path == "/api/bookings" + "/" + rest;
    Below("/api/bookings", rest);
    FirstMatchWins(Rules, 7, 8, m, path);
  }

  /** Paths under /api/payments/ admit any authenticated identity. */
  lemma PaymentsArea(m: HttpMethod, rest: string)
    ensures TierOf(m, "/api/payments/" + rest) == Authenticated
  {
    var path := "/api/payments/" + rest;
    assert path[1] == 'a' && path[5] == 'p' && path[6] == 'a';
    PastPublicRules(m, path);
    PastPropertyRules(m, path, 6);
    NotAt(7, m, path, 5);
    NotAt(8, m, path, 5);
    assert path == "/api/payments" + "/" + rest;
    Below("/api/payments", rest);
    FirstMatchWins(Rules, 7, 9, m, path);
  }

  /** The owner, booking and payment areas admit any authenticated identity, whatever the method. */
  lemma AuthenticatedAreas(m: HttpMethod, rest: string)
    ensures TierOf(m, "/api/owner/properties/" + rest) == Authenticated
    ensures TierOf(m, "/api/bookings/" + rest) == Authenticated
    ensures TierOf(m, "/api/payments/" + rest) == Authenticated
  {
    OwnerArea(m, rest);
    BookingsArea(m, rest);
    PaymentsArea(m, rest);
  }

  /** The admin rule decides every path under /api/admin/. */
  lemma AdminRuleDecides(m: HttpMethod, rest: string)
    ensures TierOf(m, "/api/admin/" + rest) == HasRoleTier("ADMIN")
  {
    var path := "/api/admin/" + rest;
    assert path[1] == 'a' && path[5] == 'a' && path[6] == 'd';
    PastPublicRules(m, path);
    PastPropertyRules(m, path, 5);
    PastAreaRules(m, path);
    assert path == "/api/admin" + "/" + rest;
    Below("/api/admin", rest);
    FirstMatchWins(Rules, 10, 10, m, path);
  }

  /** The admin area is reachable only with authority ROLE_ADMIN. */
  lemma AdminAreaNeedsAdmin(m: HttpMethod, rest: string, auth: Option<Authentication>)
    ensures TierOf(m, "/api/admin/" + rest) == HasRoleTier("ADMIN")
    ensures Permits(TierOf(m, "/api/admin/" + rest), auth) <==>
              auth.Some? && auth.value.authenticated && "ROLE_ADMIN" in auth.value.authorities
  {
    AdminRuleDecides(m, rest);
    assert RoleAuthority("ADMIN") == "ROLE_ADMIN";
  }

  /** A request no rule names, such as /api/other, falls to the default and needs an identity. */
  lemma DefaultNeedsAuthentication(m: HttpMethod)
    ensures TierOf(m, "/api/other") == Authenticated
  {
    var path := "/api/other";
    assert path[1] == 'a' && path[5] == 'o' && path[6] == 't';
    PastPublicRules(m, path);
    PastPropertyRules(m, path, 5);
    PastAreaRules(m, path);
    NotAt(10, m, path, 5);
    NotAt(11, m, path, 5);
    NoMatchIsAuthenticated(Rules, 10, m, path);
  }
}
