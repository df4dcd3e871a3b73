// The gateway's authorization: the path rule table (requests under the
// patterns "/*/remove/**" and "/*/upload/**" need authority ADMIN, every other
// request is let through) and the converter that turns a verified token's
// claims into authorities (resource_access[clientId].roles, one authority per
// role).
//
// A request path is given as its segments: "/a/b/c" is ["a", "b", "c"].
// Token verification (signature, issuer, expiry) happens before any of this
// and is not modelled; a bearer token here stands for its verified claims.
module Security {
  import opened Wrappers
  import opened Text

  type Path = seq<string>

  // ---------------------------------------------------------------------------
  // Path patterns

  /** One element of a path pattern: `*` (one segment), a literal segment, or
      `**` (any number of segments, including none). */
  datatype PathElement = Wildcard | Literal(text: string) | AnySegments

  type Pattern = seq<PathElement>

  /** Whether `path` matches `pattern`. A `*` matches a segment of at least one
      character, except as the last element of the pattern, where it also
      matches an empty one. */
  function Matches(pattern: Pattern, path: Path): bool
    decreases |pattern| + |path|
  {
    if pattern == [] then path == []
    else match pattern[0]
      case Literal(text) => path != [] && path[0] == text && Matches(pattern[1..], path[1..])
      case Wildcard => path != [] && (path[0] != "" || |pattern| == 1) && Matches(pattern[1..], path[1..])
      case AnySegments => Matches(pattern[1..], path) || (path != [] && Matches(pattern, path[1..]))
  }

  /** A trailing `**` matches whatever follows. */
  lemma {:induction false} AnySegmentsMatchesAll(path: Path)
    ensures Matches([AnySegments], path)
  {
    if path != [] {
      AnySegmentsMatchesAll(path[1..]);
    }
  }

  // The pattern "/*/<literal>/**" matches exactly the paths whose first
  // segment is not empty and whose second segment is the literal.
  lemma SecondSegmentPattern(literal: string, path: Path)
    ensures Matches([Wildcard, Literal(literal), AnySegments], path)
        <==> |path| >= 2 && path[0] != "" && path[1] == literal
  {
    var p := [Wildcard, Literal(literal), AnySegments];
    assert p[1..] == [Literal(literal), AnySegments];
    assert p[1..][1..] == [AnySegments];
    if |path| >= 2 {
      AnySegmentsMatchesAll(path[2..]);
      assert path[1..][1..] == path[2..];
    }
  }

  // ---------------------------------------------------------------------------
  // The rule table

  const Admin: string := "ADMIN"

  /** What a rule demands: nothing, or that the caller hold an authority. */
  datatype Access = PermitAll | HasAuthority(authority: string)

  datatype Rule = Rule(pattern: Pattern, access: Access)

  const RemovePattern: Pattern := [Wildcard, Literal("remove"), AnySegments]
  const UploadPattern: Pattern := [Wildcard, Literal("upload"), AnySegments]

  /** The gateway's rules, in the order they are declared; any other exchange is permitted. */
  const Rules: seq<Rule> := [Rule(RemovePattern, HasAuthority(Admin)), Rule(UploadPattern, HasAuthority(Admin))]

  /** The access the first matching rule demands, or `PermitAll` when none matches. */
  function RequiredAccess(rules: seq<Rule>, path: Path): (access: Access)
    ensures (forall i :: 0 <= i < |rules| ==> !Matches(rules[i].pattern, path)) ==> access == PermitAll
    ensures access == PermitAll || exists i :: 0 <= i < |rules| && Matches(rules[i].pattern, path) && access == rules[i].access
  {
    if rules == [] then PermitAll
    else if Matches(rules[0].pattern, path) then rules[0].access
    else
      assert forall i :: 1 <= i < |rules| ==> rules[1..][i - 1] == rules[i];
      RequiredAccess(rules[1..], path)
  }

  /** Rules are tried in order: the first rule whose pattern matches decides. */
  lemma {:induction false} FirstMatchDecides(rules: seq<Rule>, path: Path, i: nat)
    requires i < |rules| && Matches(rules[i].pattern, path)
    requires forall j :: 0 <= j < i ==> !Matches(rules[j].pattern, path)
    ensures RequiredAccess(rules, path) == rules[i].access
    decreases i
  {
    if i > 0 {
      assert !Matches(rules[0].pattern, path);
      assert rules[1..][i - 1] == rules[i];
      forall j | 0 <= j < i - 1
        ensures !Matches(rules[1..][j].pattern, path)
      {
        assert rules[1..][j] == rules[j + 1];
      }
      FirstMatchDecides(rules[1..], path, i - 1);
    }
  }

  /** The paths the rules reserve for `ADMIN`: a non-empty first segment
      followed by `remove` or `upload`. */
  predicate AdminOnly(path: Path) {
    |path| >= 2 && path[0] != "" && (path[1] == "remove" || path[1] == "upload")
  }

  /** The rule table demands `ADMIN` on exactly the admin-only paths and
      permits everything else. */
  lemma RulesGateRemoveAndUpload(path: Path)
    ensures RequiredAccess(Rules, path) == if AdminOnly(path) then HasAuthority(Admin) else PermitAll
  {
    SecondSegmentPattern("remove", path);
    SecondSegmentPattern("upload", path);
    assert Rules[0] == Rule(RemovePattern, HasAuthority(Admin));
    assert Rules[1..] == [Rule(UploadPattern, HasAuthority(Admin))];
    assert Rules[1..][1..] == [];
    assert RequiredAccess(Rules[1..], path) == if Matches(UploadPattern, path) then HasAuthority(Admin) else PermitAll;
  }

  /** Both rules demand the same authority, so their order does not matter. */
  lemma RuleOrderIrrelevant(path: Path)
    ensures RequiredAccess([Rules[1], Rules[0]], path) == RequiredAccess(Rules, path)
  {
  }

  // ---------------------------------------------------------------------------
  // Claims and authorities

  /** A claim value as the token's JSON gives it. */
  datatype Json =
    | JNull
    | JBool(b: bool)
    | JNumber(n: int)
    | JString(s: string)
    | JArray(items: seq<Json>)
    | JObject(members: map<string, Json>)

  type Claims = map<string, Json>

  /** The ways the converter fails on a claim set it cannot read: a missing or
      null `resource_access` (a null dereference), `resource_access` or the
      client entry not an object, `roles` missing or null (a null dereference)
      or not a list, and a role that is not a string or has no text (the
      authority's constructor refuses it); `index` is the first such role. */
  datatype ClaimFault =
    | ResourceAccessMissing
    | ResourceAccessNotObject
    | ClientEntryNotObject
    | RolesMissing
    | RolesNotList
    | InvalidRole(index: nat)

  /** A role usable as an authority: a string with a non-whitespace character. */
  predicate IsRoleText(role: Json) {
    role.JString? && !IsBlank(role.s)
  }

  /** The authorities of a roles list, one per role, in order. */
  function RoleAuthorities(roles: seq<Json>): (r: Result<seq<string>, ClaimFault>)
    ensures r.Success? <==> forall i :: 0 <= i < |roles| ==> IsRoleText(roles[i])
    ensures r.Success? ==> |r.value| == |roles| && forall i :: 0 <= i < |roles| ==> roles[i] == JString(r.value[i])
    ensures r.Failure? ==>
      && r.error.InvalidRole?
      && r.error.index < |roles|
      && !IsRoleText(roles[r.error.index])
      && forall i :: 0 <= i < r.error.index ==> IsRoleText(roles[i])
  {
    if roles == [] then Success([])
    else if !IsRoleText(roles[0]) then Failure(InvalidRole(0))
    else match RoleAuthorities(roles[1..])
      case Success(rest) => Success([roles[0].s] + rest)
      case Failure(fault) => Failure(InvalidRole(fault.index + 1))
  }

  /** The authorities granted for a token's claims, for the configured client id.
      A missing `resource_access` claim and a client entry without `roles` are
      faults; no entry for the client grants nothing; otherwise every authority
      is one of the entry's roles, in order. */
  function Authorities(claims: Claims, clientId: string): (r: Result<seq<string>, ClaimFault>)
    ensures "resource_access" !in claims || claims["resource_access"].JNull? ==> r == Failure(ResourceAccessMissing)
    ensures ("resource_access" in claims && claims["resource_access"].JObject?
             && (clientId !in claims["resource_access"].members || claims["resource_access"].members[clientId].JNull?))
            ==> r == Success([])
    ensures ("resource_access" in claims && claims["resource_access"].JObject?
             && clientId in claims["resource_access"].members && claims["resource_access"].members[clientId].JObject?
             && "roles" !in claims["resource_access"].members[clientId].members)
            ==> r == Failure(RolesMissing)
    ensures r.Success? ==> forall i :: 0 <= i < |r.value| ==> !IsBlank(r.value[i])
    ensures r.Success? && r.value != [] ==>
      && "resource_access" in claims && claims["resource_access"].JObject?
      && clientId in claims["resource_access"].members && claims["resource_access"].members[clientId].JObject?
      && "roles" in claims["resource_access"].members[clientId].members
      && claims["resource_access"].members[clientId].members["roles"]
         == JArray(seq(|r.value|, i requires 0 <= i < |r.value| => JString(r.value[i])))
    ensures r.Success? ==> "resource_access" in claims && claims["resource_access"].JObject?
    ensures (r.Success? && clientId in claims["resource_access"].members
             && !claims["resource_access"].members[clientId].JNull?)
            ==> && claims["resource_access"].members[clientId].JObject?
                && "roles" in claims["resource_access"].members[clientId].members
                && claims["resource_access"].members[clientId].members["roles"]
                   == JArray(seq(|r.value|, i requires 0 <= i < |r.value| => JString(r.value[i])))
  {
    if "resource_access" !in claims || claims["resource_access"].JNull? then Failure(ResourceAccessMissing)
    else if !claims["resource_access"].JObject? then Failure(ResourceAccessNotObject)
    else
      var access := claims["resource_access"].members;
      if clientId !in access || access[clientId].JNull? then Success([])
      else if !access[clientId].JObject? then Failure(ClientEntryNotObject)
      else
        var entry := access[clientId].members;
        if "roles" !in entry || entry["roles"].JNull? then Failure(RolesMissing)
        else if !entry["roles"].JArray? then Failure(RolesNotList)
        else
          var items := entry["roles"].items;
          var r := RoleAuthorities(items);
          assert r.Success? ==> items == seq(|r.value|, i requires 0 <= i < |r.value| => JString(r.value[i]));
          r
  }

  /** With no entry for the client, the token grants no authority at all. */
  lemma NoClientEntryNoAuthorities(claims: Claims, clientId: string)
    requires "resource_access" in claims && claims["resource_access"].JObject?
    requires clientId !in claims["resource_access"].members
    ensures Authorities(claims, clientId) == Success([])
  {
  }

  /** With a well-formed entry, the authorities are exactly the entry's roles:
      same order, one per role, duplicates kept. */
  lemma AuthoritiesAreRoles(claims: Claims, clientId: string, roles: seq<string>)
    requires "resource_access" in claims && claims["resource_access"].JObject?
    requires clientId in claims["resource_access"].members
    requires claims["resource_access"].members[clientId].JObject?
    requires var entry := claims["resource_access"].members[clientId].members;
      "roles" in entry && entry["roles"] == JArray(seq(|roles|, i requires 0 <= i < |roles| => JString(roles[i])))
    requires forall i :: 0 <= i < |roles| ==> !IsBlank(roles[i])
    ensures Authorities(claims, clientId) == Success(roles)
  {
    var items := seq(|roles|, i requires 0 <= i < |roles| => JString(roles[i]));
    assert forall i :: 0 <= i < |items| ==> IsRoleText(items[i]);
    var r := RoleAuthorities(items);
    assert Authorities(claims, clientId) == r;
    assert |r.value| == |roles|;
    assert forall i :: 0 <= i < |roles| ==> r.value[i] == items[i].s == roles[i];
    assert r.value == roles;
  }

  /** A token without `resource_access`, or whose client entry has no `roles`,
      makes the converter fail rather than grant an empty list. */
  lemma MalformedClaimsFail(claims: Claims, clientId: string)
    requires || "resource_access" !in claims
             || (&& claims["resource_access"].JObject?
                 && clientId in claims["resource_access"].members
                 && claims["resource_access"].members[clientId].JObject?
                 && "roles" !in claims["resource_access"].members[clientId].members)
    ensures Authorities(claims, clientId).Failure?
    ensures Authorities(claims, clientId).error == if "resource_access" !in claims then ResourceAccessMissing else RolesMissing
  {
  }

  // ---------------------------------------------------------------------------
  // Decisions

  /** What a request carries: no token, or a verified bearer token's claims. */
  datatype Credentials = Anonymous | Bearer(claims: Claims)

  /** The outcome for a request: let through; refused for want of a token;
      refused for want of the authority; or failed because the token's claims
      could not be converted (conversion happens on every request that carries
      a token, before any rule is consulted). */
  datatype Decision = Permitted | Unauthenticated | Forbidden | ClaimsRejected(fault: ClaimFault)

  /** The decision for a request under a rule table. */
  function Decide(rules: seq<Rule>, path: Path, credentials: Credentials, clientId: string): (d: Decision)
    ensures credentials.Bearer? && Authorities(credentials.claims, clientId).Failure? ==>
      d == ClaimsRejected(Authorities(credentials.claims, clientId).error)
    ensures RequiredAccess(rules, path) == PermitAll ==>
      (d == Permitted <==> credentials.Anonymous? || Authorities(credentials.claims, clientId).Success?)
    ensures RequiredAccess(rules, path).HasAuthority? ==>
      (d == Permitted <==>
         && credentials.Bearer?
         && Authorities(credentials.claims, clientId).Success?
         && RequiredAccess(rules, path).authority in Authorities(credentials.claims, clientId).value)
    ensures RequiredAccess(rules, path).HasAuthority? && credentials.Anonymous? ==> d == Unauthenticated
    ensures (RequiredAccess(rules, path).HasAuthority? && credentials.Bearer?
             && Authorities(credentials.claims, clientId).Success?
             && RequiredAccess(rules, path).authority !in Authorities(credentials.claims, clientId).value)
            ==> d == Forbidden
  {
    match credentials
    case Anonymous =>
      (match RequiredAccess(rules, path)
       case PermitAll => Permitted
       case HasAuthority(_) => Unauthenticated)
    case Bearer(claims) =>
      (match Authorities(claims, clientId)
       case Failure(fault) => ClaimsRejected(fault)
       case Success(authorities) =>
         (match RequiredAccess(rules, path)
          case PermitAll => Permitted
          case HasAuthority(a) => if a in authorities then Permitted else Forbidden))
  }

  /** Under the gateway's rules a request goes through iff its token, if any,
      converts, and the path is open or the converted authorities include
      `ADMIN`. */
  lemma PermittedIff(path: Path, credentials: Credentials, clientId: string)
    ensures Decide(Rules, path, credentials, clientId) == Permitted
        <==> && (credentials.Bearer? ==> Authorities(credentials.claims, clientId).Success?)
             && (AdminOnly(path) ==> credentials.Bearer? && Admin in Authorities(credentials.claims, clientId).value)
  {
    RulesGateRemoveAndUpload(path);
  }

  /** A request with no token to a path outside the admin-only ones goes through. */
  lemma OpenPathsNeedNoToken(path: Path, clientId: string)
    requires !AdminOnly(path)
    ensures Decide(Rules, path, Anonymous, clientId) == Permitted
  {
    RulesGateRemoveAndUpload(path);
  }

  /** A token whose claims have no entry for the client is refused on every admin-only path. */
  lemma NoClientEntryForbidden(path: Path, claims: Claims, clientId: string)
    requires AdminOnly(path)
    requires "resource_access" in claims && claims["resource_access"].JObject?
    requires clientId !in claims["resource_access"].members
    ensures Decide(Rules, path, Bearer(claims), clientId) == Forbidden
  {
    RulesGateRemoveAndUpload(path);
  }

  /** The routes of the file router, as paths. */
  function UploadRoute(directory: string): Path { [directory, "upload", "files"] }
  function RetrieveRoute(directory: string, filename: string): Path { [directory, "retrieve", "files", filename] }
  function RemoveFileRoute(directory: string, filename: string): Path { [directory, "remove", "files", filename] }
  function RemoveFolderRoute(directory: string): Path { ["remove", "folders", directory] }

  /** Uploading and deleting a file are reserved for `ADMIN`; retrieving a file
      and deleting a whole folder are open to anyone, with no token. */
  lemma RouteAccess(directory: string, filename: string, clientId: string)
    requires directory != "" && filename != ""
    ensures RequiredAccess(Rules, UploadRoute(directory)) == HasAuthority(Admin)
    ensures RequiredAccess(Rules, RemoveFileRoute(directory, filename)) == HasAuthority(Admin)
    ensures Decide(Rules, UploadRoute(directory), Anonymous, clientId) == Unauthenticated
    ensures Decide(Rules, RemoveFileRoute(directory, filename), Anonymous, clientId) == Unauthenticated
    ensures Decide(Rules, RetrieveRoute(directory, filename), Anonymous, clientId) == Permitted
    ensures Decide(Rules, RemoveFolderRoute(directory), Anonymous, clientId) == Permitted
  {
    RulesGateRemoveAndUpload(UploadRoute(directory));
    RulesGateRemoveAndUpload(RemoveFileRoute(directory, filename));
    RulesGateRemoveAndUpload(RetrieveRoute(directory, filename));
    RulesGateRemoveAndUpload(RemoveFolderRoute(directory));
  }

  // ---------------------------------------------------------------------------
  // The rule table with the folder route gated

  // The rules with "/remove/folders/**" added, so that deleting a folder needs ADMIN too.
  const FolderPattern: Pattern := [Literal("remove"), Literal("folders"), AnySegments]
  const GuardedRules: seq<Rule> := Rules + [Rule(FolderPattern, HasAuthority(Admin))]

  /** Under the guarded rules every route that changes the store needs `ADMIN`,
      and retrieving stays open. */
  lemma GuardedRulesGateEveryMutation(directory: string, filename: string, clientId: string)
    requires directory != "" && filename != ""
    ensures Decide(GuardedRules, UploadRoute(directory), Anonymous, clientId) == Unauthenticated
    ensures Decide(GuardedRules, RemoveFileRoute(directory, filename), Anonymous, clientId) == Unauthenticated
    ensures Decide(GuardedRules, RemoveFolderRoute(directory), Anonymous, clientId) == Unauthenticated
    ensures Decide(GuardedRules, RetrieveRoute(directory, filename), Anonymous, clientId) == Permitted
  {
    var folderRule := Rule(FolderPattern, HasAuthority(Admin));
    assert GuardedRules[2..] == [folderRule];
    forall path: Path ensures RequiredAccess(GuardedRules, path) ==
        if AdminOnly(path) then HasAuthority(Admin) else RequiredAccess([folderRule], path) {
      SecondSegmentPattern("remove", path);
      SecondSegmentPattern("upload", path);
      assert GuardedRules[1..][1..] == [folderRule];
    }
    var folder := RemoveFolderRoute(directory);
    AnySegmentsMatchesAll(folder[2..]);
    assert FolderPattern[1..][1..] == [AnySegments];
    assert folder[1..][1..] == folder[2..];
    assert Matches(FolderPattern[1..], folder[1..]);
    assert Matches(FolderPattern, folder);
    assert RequiredAccess([folderRule], folder) == HasAuthority(Admin);
    var retrieve := RetrieveRoute(directory, filename);
    assert !Matches(FolderPattern[1..], retrieve[1..]);
    assert !Matches(FolderPattern, retrieve);
    assert [folderRule][1..] == [];
    assert RequiredAccess([folderRule], retrieve) == PermitAll;
  }
}
