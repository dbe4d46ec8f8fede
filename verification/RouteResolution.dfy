/**
 Finding routes and communities by partial ID or by name, and joining the routes of a
 community with the registry's entries in place.
 */
module RouteResolution {
  import opened Filtering
  import opened Text
  import opened Values

  const MIN_ID_LENGTH := 8

  datatype EntitySet = EntitySet(users: seq<string>, groups: seq<string>)
  datatype Rules = Rules(allowed: Option<EntitySet>, disallowed: Option<EntitySet>)

  predicate IsPartialId(identifier: string, id: Option<string>) {
    id.Some? && ByteLength(identifier) >= MIN_ID_LENGTH && identifier <= id.value
  }

  datatype Route = Route(name: string, domainName: Option<string>, communityName: Option<string>,
                         id: Option<string>, url: Option<string>, rules: Option<Rules>)
  {
    predicate HasFullName(identifier: string) {
      domainName.Some? && domainName.value + "/" + name == identifier
    }

    /** By partial ID or fully qualified name. */
    predicate Matches(identifier: string) {
      IsPartialId(identifier, id) || HasFullName(identifier)
    }
  }

  datatype CommunityEntry = CommunityEntry(name: string, id: Option<string>)
  {
    /** By partial ID or full name. */
    predicate Matches(identifier: string) {
      name == identifier || IsPartialId(identifier, id)
    }
  }

  datatype RegistryError = RequestFailed(text: string) | NotFound(identifier: string) | NotUnique(matches: nat)

  /** Panic: the first element of an empty list was taken. */
  datatype Resolution<+T> = Resolved(entry: T) | Failed(error: RegistryError) | Panic

  lemma PrefixIff(identifier: string, id: string)
    ensures identifier <= id <==> exists rest :: id == identifier + rest
  {
    if identifier <= id {
      assert id == identifier + id[|identifier|..];
    }
  }

  /**
   What matches a route: its domain and name joined by a slash, or the beginning of its ID in
   at least eight bytes, and nothing else.
   */
  lemma RouteMatchesIff(r: Route, identifier: string)
    ensures r.Matches(identifier) <==>
            || (exists domain :: r.domainName == Some(domain) && identifier == domain + "/" + r.name)
            || (ByteLength(identifier) >= 8 && exists rest :: r.id == Some(identifier + rest))
  {
    if r.id.Some? {
      PrefixIff(identifier, r.id.value);
    }
  }

  /** What matches a community: its name, however short, or the beginning of its ID in at least eight bytes. */
  lemma CommunityMatchesIff(c: CommunityEntry, identifier: string)
    ensures c.Matches(identifier) <==>
            identifier == c.name || (ByteLength(identifier) >= 8 && exists rest :: c.id == Some(identifier + rest))
  {
    if c.id.Some? {
      PrefixIff(identifier, c.id.value);
    }
  }

  // ---------- Listing ----------

  function List<T>(registry: Result<seq<T>, RegistryError>, identifier: string, p: T -> bool):
    Result<seq<T>, RegistryError>
  {
    match registry
    case Err(_) => registry
    case Ok(entries) =>
      if identifier == "" then registry
      else
        var filtered := Filter(entries, p);
        if filtered == [] then Err(NotFound(identifier)) else Ok(filtered)
  }

  function Resolve<T>(listed: Result<seq<T>, RegistryError>): Resolution<T> {
    match listed
    case Err(e) => Failed(e)
    case Ok(entries) =>
      if |entries| > 1 then Failed(NotUnique(|entries|))
      else if entries == [] then Panic
      else Resolved(entries[0])
  }

  function MatchesRoute(identifier: string): Route -> bool {
    (r: Route) => r.Matches(identifier)
  }

  function MatchesCommunity(identifier: string): CommunityEntry -> bool {
    (c: CommunityEntry) => c.Matches(identifier)
  }

  function ResolveRoute(registry: Result<seq<Route>, RegistryError>, identifier: string): Resolution<Route> {
    Resolve(List(registry, identifier, MatchesRoute(identifier)))
  }

  function ResolveCommunity(registry: Result<seq<CommunityEntry>, RegistryError>, identifier: string):
    Resolution<CommunityEntry>
  {
    Resolve(List(registry, identifier, MatchesCommunity(identifier)))
  }

  /** ListRoutes: for a non-empty identifier the matching entries in order, or an error if there are none. */
  method ListRoutes(registry: Result<seq<Route>, RegistryError>, identifier: string)
    returns (result: Result<seq<Route>, RegistryError>)
    ensures result == List(registry, identifier, MatchesRoute(identifier))
  {
    if registry.Err? {
      return registry;
    }
    var rl := registry.value;
    if identifier == "" {
      return Ok(rl);
    }
    var filtered := [];
    for i := 0 to |rl|
      invariant filtered == Filter(rl[..i], MatchesRoute(identifier))
    {
      assert rl[..i + 1][..i] == rl[..i];
      if rl[i].Matches(identifier) {
        filtered := filtered + [rl[i]];
      }
    }
    assert rl[..|rl|] == rl;
    if |filtered| == 0 {
      return Err(NotFound(identifier));
    }
    return Ok(filtered);
  }

  /** ListCommunities, likewise. */
  method ListCommunities(registry: Result<seq<CommunityEntry>, RegistryError>, identifier: string)
    returns (result: Result<seq<CommunityEntry>, RegistryError>)
    ensures result == List(registry, identifier, MatchesCommunity(identifier))
  {
    if registry.Err? {
      return registry;
    }
    var cl := registry.value;
    if identifier == "" {
      return Ok(cl);
    }
    var filtered := [];
    for i := 0 to |cl|
      invariant filtered == Filter(cl[..i], MatchesCommunity(identifier))
    {
      assert cl[..i + 1][..i] == cl[..i];
      if cl[i].Matches(identifier) {
        filtered := filtered + [cl[i]];
      }
    }
    assert cl[..|cl|] == cl;
    if |filtered| == 0 {
      return Err(NotFound(identifier));
    }
    return Ok(filtered);
  }

  // ---------- Resolving ----------

  /** Position i holds the only match. */
  ghost predicate OnlyMatch<T>(entries: seq<T>, p: T -> bool, i: nat) {
    i < |entries| && p(entries[i]) && forall j: nat | j < |entries| && p(entries[j]) :: j == i
  }

  lemma {:induction false} PositionsWithoutMatch<T>(entries: seq<T>, p: T -> bool)
    requires forall j: nat | j < |entries| :: !p(entries[j])
    ensures Positions(entries, p) == []
  {
    if entries != [] {
      PositionsWithoutMatch(entries[..|entries| - 1], p);
    }
  }

  lemma {:induction false} PositionsOfOnlyMatch<T>(entries: seq<T>, p: T -> bool, i: nat)
    requires OnlyMatch(entries, p, i)
    ensures Positions(entries, p) == [i]
  {
    var n := |entries| - 1;
    if i == n {
      PositionsWithoutMatch(entries[..n], p);
    } else {
      PositionsOfOnlyMatch(entries[..n], p, i);
    }
  }

  /** For a non-empty identifier, resolving yields an entry exactly when it is the only match, and never panics. */
  lemma ResolvesIffUnique<T>(entries: seq<T>, identifier: string, p: T -> bool, entry: T)
    requires identifier != ""
    ensures Resolve(List(Ok(entries), identifier, p)) == Resolved(entry) <==>
            exists i: nat :: OnlyMatch(entries, p, i) && entries[i] == entry
    ensures !Resolve(List(Ok(entries), identifier, p)).Panic?
  {
    FilterIsExact(entries, p);
    var at := Positions(entries, p);
    if |at| == 1 {
      assert OnlyMatch(entries, p, at[0]);
    }
    forall i: nat | OnlyMatch(entries, p, i)
      ensures at == [i]
    {
      PositionsOfOnlyMatch(entries, p, i);
    }
  }

  /** How a non-empty identifier fails: not found if nothing matches, not unique with the count if several do. */
  lemma FailsIff<T>(entries: seq<T>, identifier: string, p: T -> bool)
    requires identifier != ""
    ensures var resolution := Resolve(List(Ok(entries), identifier, p));
            && (resolution == Failed(NotFound(identifier)) <==> forall i: nat | i < |entries| :: !p(entries[i]))
            && (forall n :: resolution == Failed(NotUnique(n)) <==> n > 1 && n == |Positions(entries, p)|)
            && (resolution.Failed? ==> !resolution.error.RequestFailed?)
  {
    FilterIsExact(entries, p);
    if forall i: nat | i < |entries| :: !p(entries[i]) {
      PositionsWithoutMatch(entries, p);
    }
  }

  /**
   What is listed: the registry's own failure if there is one; everything for the empty
   identifier; else the matching entries, or an error if there are none.
   */
  lemma ListIs<T>(registry: Result<seq<T>, RegistryError>, identifier: string, p: T -> bool)
    ensures registry.Err? ==> List(registry, identifier, p) == registry
                              && Resolve(List(registry, identifier, p)) == Failed(registry.error)
    ensures registry.Ok? && identifier == "" ==> List(registry, identifier, p) == registry
    ensures registry.Ok? && identifier != "" ==>
              List(registry, identifier, p) ==
              if exists i: nat :: i < |registry.value| && p(registry.value[i]) then Ok(Filter(registry.value, p))
              else Err(NotFound(identifier))
  {
    if registry.Ok? {
      FilterIsExact(registry.value, p);
      if forall i: nat | i < |registry.value| :: !p(registry.value[i]) {
        PositionsWithoutMatch(registry.value, p);
      }
    }
  }

  /**
   A route is found by its fully qualified name whenever no other route has that name, or an
   ID that begins with it.
   */
  lemma FullNameResolves(rl: seq<Route>, i: nat, domain: string)
    requires i < |rl| && rl[i].domainName == Some(domain)
    requires forall j: nat | j < |rl| && j != i ::
               && (rl[j].domainName.Some? ==> rl[j].domainName.value + "/" + rl[j].name != domain + "/" + rl[i].name)
               && (rl[j].id.Some? && ByteLength(domain + "/" + rl[i].name) >= 8 ==>
                     !(domain + "/" + rl[i].name <= rl[j].id.value))
    ensures ResolveRoute(Ok(rl), domain + "/" + rl[i].name) == Resolved(rl[i])
  {
    var identifier := domain + "/" + rl[i].name;
    assert identifier[|domain|] == '/';
    RouteMatchesIff(rl[i], identifier);
    forall j: nat | j < |rl| && j != i
      ensures !MatchesRoute(identifier)(rl[j])
    {
      RouteMatchesIff(rl[j], identifier);
    }
    assert OnlyMatch(rl, MatchesRoute(identifier), i);
    ResolvesIffUnique(rl, identifier, MatchesRoute(identifier), rl[i]);
  }

  /** A community is found by its name, however short, unless another has the name or an ID that begins with it. */
  lemma NameResolves(cl: seq<CommunityEntry>, i: nat)
    requires i < |cl| && cl[i].name != ""
    requires forall j: nat | j < |cl| && j != i ::
               && cl[j].name != cl[i].name
               && (cl[j].id.Some? && ByteLength(cl[i].name) >= 8 ==> !(cl[i].name <= cl[j].id.value))
    ensures ResolveCommunity(Ok(cl), cl[i].name) == Resolved(cl[i])
  {
    var identifier := cl[i].name;
    CommunityMatchesIff(cl[i], identifier);
    forall j: nat | j < |cl| && j != i
      ensures !MatchesCommunity(identifier)(cl[j])
    {
      CommunityMatchesIff(cl[j], identifier);
    }
    assert OnlyMatch(cl, MatchesCommunity(identifier), i);
    ResolvesIffUnique(cl, identifier, MatchesCommunity(identifier), cl[i]);
  }

  /** What becomes of the empty identifier: nothing is filtered, so an empty registry panics, and nothing else does. */
  lemma PanicsIff<T>(registry: Result<seq<T>, RegistryError>, identifier: string, p: T -> bool)
    ensures Resolve(List(registry, identifier, p)).Panic? <==> identifier == "" && registry == Ok([])
  {
  }

  lemma SlashFreeMatchIsById(r: Route, identifier: string)
    requires '/' !in identifier
    ensures r.Matches(identifier) <==> IsPartialId(identifier, r.id)
  {
    if r.domainName.Some? {
      var full := r.domainName.value + "/" + r.name;
      assert full[|r.domainName.value|] == '/';
    }
  }

  lemma LongerPrefixMatchesFewer(prefix: string, longer: string, id: Option<string>)
    requires prefix <= longer && ByteLength(prefix) >= MIN_ID_LENGTH
    ensures IsPartialId(longer, id) ==> IsPartialId(prefix, id)
    ensures id.Some? && longer <= id.value ==> IsPartialId(longer, id)
  {
    PrefixIsShorter(prefix, longer);
  }

  /**
   Typing more of an ID does not change the route found: if a prefix of a slash-free ID
   resolves to its route, so does every longer prefix.
   */
  lemma LongerPrefixResolvesToSame(rl: seq<Route>, prefix: string, longer: string, r: Route)
    requires prefix != "" && ResolveRoute(Ok(rl), prefix) == Resolved(r)
    requires r.id.Some? && '/' !in r.id.value && prefix <= longer <= r.id.value
    ensures ResolveRoute(Ok(rl), longer) == Resolved(r)
  {
    ResolvesIffUnique(rl, prefix, MatchesRoute(prefix), r);
    var i: nat :| OnlyMatch(rl, MatchesRoute(prefix), i) && rl[i] == r;
    assert '/' !in prefix && '/' !in longer;
    SlashFreeMatchIsById(r, prefix);
    SlashFreeMatchIsById(r, longer);
    LongerPrefixMatchesFewer(prefix, longer, r.id);
    forall j: nat | j < |rl| && MatchesRoute(longer)(rl[j])
      ensures j == i
    {
      SlashFreeMatchIsById(rl[j], prefix);
      SlashFreeMatchIsById(rl[j], longer);
      LongerPrefixMatchesFewer(prefix, longer, rl[j].id);
      assert MatchesRoute(prefix)(rl[j]);
    }
    assert OnlyMatch(rl, MatchesRoute(longer), i);
    ResolvesIffUnique(rl, longer, MatchesRoute(longer), r);
  }

  /**
   For communities a name can get in the way: a longer prefix of an ID keeps its result
   exactly when no other community has that prefix as its name.
   */
  lemma LongerPrefixOfCommunity(cl: seq<CommunityEntry>, prefix: string, longer: string, i: nat)
    requires ByteLength(prefix) >= MIN_ID_LENGTH && OnlyMatch(cl, MatchesCommunity(prefix), i)
    requires cl[i].id.Some? && prefix <= longer <= cl[i].id.value
    ensures OnlyMatch(cl, MatchesCommunity(longer), i) <==>
            forall j: nat | j < |cl| && j != i :: cl[j].name != longer
  {
    LongerPrefixMatchesFewer(prefix, longer, cl[i].id);
    forall j: nat | j < |cl| && j != i
      ensures MatchesCommunity(longer)(cl[j]) <==> cl[j].name == longer
    {
      LongerPrefixMatchesFewer(prefix, longer, cl[j].id);
      assert !MatchesCommunity(prefix)(cl[j]);
    }
  }

  // ---------- Changing memberships ----------

  datatype Membership = Change(communityID: string, routeID: string) | Refused | Crashed

  /** modRouteToCommunity: which membership change, if any, is asked of the registry. */
  function ModRouteToCommunity(communities: Result<seq<CommunityEntry>, RegistryError>,
                               routes: Result<seq<Route>, RegistryError>,
                               communityIdent: string, routeIdent: string): Membership {
    match ResolveCommunity(communities, communityIdent)
    case Failed(_) => Refused
    case Panic => Crashed
    case Resolved(c) =>
      if c.id.None? then Refused
      else
        match ResolveRoute(routes, routeIdent)
        case Failed(_) => Refused
        case Panic => Crashed
        case Resolved(r) => if r.id.None? then Refused else Change(c.id.value, r.id.value)
  }

  /** A change concerns the one community and the one route the identifiers match, and happens whenever both exist. */
  lemma MembershipChangeIff(cl: seq<CommunityEntry>, rl: seq<Route>, communityIdent: string, routeIdent: string,
                            communityID: string, routeID: string)
    requires communityIdent != "" && routeIdent != ""
    ensures ModRouteToCommunity(Ok(cl), Ok(rl), communityIdent, routeIdent) == Change(communityID, routeID) <==>
            && (exists i: nat :: OnlyMatch(cl, MatchesCommunity(communityIdent), i) && cl[i].id == Some(communityID))
            && (exists i: nat :: OnlyMatch(rl, MatchesRoute(routeIdent), i) && rl[i].id == Some(routeID))
  {
    forall i: nat | OnlyMatch(cl, MatchesCommunity(communityIdent), i)
      ensures ResolveCommunity(Ok(cl), communityIdent) == Resolved(cl[i])
    {
      ResolvesIffUnique(cl, communityIdent, MatchesCommunity(communityIdent), cl[i]);
    }
    forall i: nat | OnlyMatch(rl, MatchesRoute(routeIdent), i)
      ensures ResolveRoute(Ok(rl), routeIdent) == Resolved(rl[i])
    {
      ResolvesIffUnique(rl, routeIdent, MatchesRoute(routeIdent), rl[i]);
    }
    match (ResolveCommunity(Ok(cl), communityIdent), ResolveRoute(Ok(rl), routeIdent))
    case (Resolved(c), Resolved(r)) =>
      ResolvesIffUnique(cl, communityIdent, MatchesCommunity(communityIdent), c);
      ResolvesIffUnique(rl, routeIdent, MatchesRoute(routeIdent), r);
    case _ =>
  }

  // ---------- The join ----------

  /** A community as the list command holds it; its routes are overwritten in place. */
  class Community {
    const name: string
    const id: Option<string>
    const routes: array<Route>

    constructor (name: string, id: Option<string>, routes: array<Route>)
      ensures this.name == name && this.id == id && this.routes == routes
    {
      this.name, this.id, this.routes := name, id, routes;
    }
  }

  /** The first route that matches. */
  function FirstMatch(rl: seq<Route>, identifier: string): Option<Route> {
    if rl == [] then None
    else if rl[0].Matches(identifier) then Some(rl[0])
    else FirstMatch(rl[1..], identifier)
  }

  /** It matches, and no earlier one does. */
  lemma {:induction false} FirstMatchIff(rl: seq<Route>, identifier: string)
    ensures match FirstMatch(rl, identifier)
            case None => forall i: nat | i < |rl| :: !rl[i].Matches(identifier)
            case Some(found) =>
              exists i: nat | i < |rl| ::
                rl[i] == found && found.Matches(identifier) && forall j: nat | j < i :: !rl[j].Matches(identifier)
  {
    if rl != [] && !rl[0].Matches(identifier) {
      var rest := rl[1..];
      FirstMatchIff(rest, identifier);
      if FirstMatch(rest, identifier).Some? {
        var i: nat :| i < |rest| && rest[i] == FirstMatch(rest, identifier).value
                      && rest[i].Matches(identifier) && forall j: nat | j < i :: !rest[j].Matches(identifier);
        assert forall j: nat | 0 < j < i + 1 :: rl[j] == rest[j - 1];
        assert rl[i + 1] == rest[i];
      } else {
        assert forall i: nat | 0 < i < |rl| :: rl[i] == rest[i - 1];
      }
    }
  }

  method FindRoute(rl: seq<Route>, identifier: string) returns (found: Option<Route>)
    ensures found == FirstMatch(rl, identifier)
  {
    for i := 0 to |rl|
      invariant FirstMatch(rl, identifier) == FirstMatch(rl[i..], identifier)
    {
      if rl[i].Matches(identifier) {
        return Some(rl[i]);
      }
      assert rl[i..][1..] == rl[i + 1..];
    }
    return None;
  }

  function Joined(rl: seq<Route>, r: Route): Route {
    match r.id
    case None => r
    case Some(id) =>
      match FirstMatch(rl, id)
      case None => r
      case Some(found) => found
  }

  /** listSingleCommunity, up to printing: an empty community does not even ask the registry. */
  method ListSingleCommunity(c: Community, registry: Result<seq<Route>, RegistryError>)
    returns (error: Option<RegistryError>)
    modifies c.routes
    ensures error.Some? <==> c.routes.Length > 0 && registry.Err?
    ensures error.Some? ==> error.value == registry.error && c.routes[..] == old(c.routes[..])
    ensures registry.Ok? ==>
              forall i | 0 <= i < c.routes.Length :: c.routes[i] == Joined(registry.value, old(c.routes[i]))
  {
    if c.routes.Length > 0 {
      var listed := ListRoutes(registry, "");
      if listed.Err? {
        return Some(listed.error);
      }
      for i := 0 to c.routes.Length
        invariant forall k | 0 <= k < i :: c.routes[k] == Joined(registry.value, old(c.routes[k]))
        invariant forall k | i <= k < c.routes.Length :: c.routes[k] == old(c.routes[k])
      {
        var r := c.routes[i];
        if r.id.Some? {
          var nr := FindRoute(listed.value, r.id.value);
          if nr.Some? {
            c.routes[i] := nr.value;
          }
        }
      }
    }
    return None;
  }

  ghost predicate UniformId(id: Option<string>, length: nat) {
    id.Some? ==> |id.value| == length && '/' !in id.value
  }

  /** All IDs are slash-free and equally long, at least eight characters, and no two registry entries share one. */
  ghost predicate UniformIds(rl: seq<Route>, length: nat) {
    && length >= MIN_ID_LENGTH
    && (forall r | r in rl :: UniformId(r.id, length))
    && forall i, j | 0 <= i < j < |rl| && rl[i].id.Some? :: rl[i].id != rl[j].id
  }

  /** IDs shorter than eight bytes are never joined, even with an entry of exactly that ID. */
  lemma {:induction false} ShortIdsAreNotJoined(rl: seq<Route>, r: Route)
    requires r.id.Some? && ByteLength(r.id.value) < MIN_ID_LENGTH && '/' !in r.id.value
    ensures Joined(rl, r) == r
  {
    if rl != [] {
      SlashFreeMatchIsById(rl[0], r.id.value);
      ShortIdsAreNotJoined(rl[1..], r);
    }
  }

  /** What the join is for: the first entry with exactly this ID. */
  function FirstWithId(rl: seq<Route>, id: string): (found: Option<Route>)
    ensures found.Some? ==> found.value in rl && found.value.id == Some(id)
    ensures found.None? ==> forall r | r in rl :: r.id != Some(id)
  {
    if rl == [] then None
    else if rl[0].id == Some(id) then Some(rl[0])
    else FirstWithId(rl[1..], id)
  }

  function JoinedById(rl: seq<Route>, r: Route): Route {
    match r.id
    case None => r
    case Some(id) =>
      match FirstWithId(rl, id)
      case None => r
      case Some(found) => found
  }

  /** An entry with another ID that continues the given one, or whose full name is the given ID. */
  predicate Misleads(entry: Route, id: string) {
    && entry.id != Some(id)
    && ((entry.id.Some? && id <= entry.id.value) || entry.HasFullName(id))
  }

  /** Entry k misleads, and no entry with exactly this ID comes first. */
  ghost predicate Overtakes(rl: seq<Route>, id: string, k: nat) {
    k < |rl| && Misleads(rl[k], id) && forall j: nat | j < k :: rl[j].id != Some(id)
  }

  lemma OvertakesLater(rl: seq<Route>, id: string)
    requires rl != [] && rl[0].id != Some(id) && !Misleads(rl[0], id)
    ensures (exists k: nat :: Overtakes(rl, id, k)) <==> exists k: nat :: Overtakes(rl[1..], id, k)
  {
    forall k: nat | Overtakes(rl[1..], id, k)
      ensures Overtakes(rl, id, k + 1)
    {
      assert forall j: nat | 0 < j < k + 1 :: rl[j] == rl[1..][j - 1];
    }
    forall k: nat | Overtakes(rl, id, k)
      ensures k > 0 && Overtakes(rl[1..], id, k - 1)
    {
      assert forall j: nat | j < k - 1 :: rl[1..][j] == rl[j + 1];
    }
  }

  /** A lookup by an ID of eight bytes or more finds an entry of another ID exactly when one overtakes. */
  lemma {:induction false} FirstMatchIsWrongIff(rl: seq<Route>, id: string)
    requires ByteLength(id) >= MIN_ID_LENGTH
    ensures if exists k: nat :: Overtakes(rl, id, k)
            then FirstMatch(rl, id).Some? && FirstMatch(rl, id).value.id != Some(id)
            else FirstMatch(rl, id) == FirstWithId(rl, id)
  {
    if rl != [] {
      assert rl[0].Matches(id) <==> rl[0].id == Some(id) || Misleads(rl[0], id);
      if rl[0].id == Some(id) {
        assert FirstMatch(rl, id) == FirstWithId(rl, id);
      } else if Misleads(rl[0], id) {
        assert Overtakes(rl, id, 0);
      } else {
        OvertakesLater(rl, id);
        FirstMatchIsWrongIff(rl[1..], id);
      }
    }
  }

  /** The first entry with this full name. */
  function FirstNamed(rl: seq<Route>, name: string): (found: Option<Route>)
    ensures found.Some? ==> found.value in rl && found.value.HasFullName(name)
    ensures found.None? ==> forall r | r in rl :: !r.HasFullName(name)
  {
    if rl == [] then None
    else if rl[0].HasFullName(name) then Some(rl[0])
    else FirstNamed(rl[1..], name)
  }

  /** A short ID is only ever found as a full name. */
  lemma {:induction false} ShortIdIsFoundAsName(rl: seq<Route>, id: string)
    requires ByteLength(id) < MIN_ID_LENGTH
    ensures FirstMatch(rl, id) == FirstNamed(rl, id)
  {
    if rl != [] {
      ShortIdIsFoundAsName(rl[1..], id);
    }
  }

  /**
   Exactly when the join is by ID, whether or not the registry has an entry of that ID. An
   ID of eight bytes or more goes wrong exactly when an entry of another ID that continues
   it, or has it as full name, is not preceded by an entry of that ID; the route then gets
   an entry with another ID. A shorter one is never looked up as an ID: its route becomes the
   first entry that has it as full name, or stays, which is right exactly if that is the first
   entry with the ID, or the route itself when no entry has the ID.
   */
  lemma JoinIsByIdIff(rl: seq<Route>, r: Route)
    requires r.id.Some?
    ensures if ByteLength(r.id.value) >= MIN_ID_LENGTH
            then
              && (Joined(rl, r) == JoinedById(rl, r) <==> !exists k: nat :: Overtakes(rl, r.id.value, k))
              && (Joined(rl, r).id != r.id <==> exists k: nat :: Overtakes(rl, r.id.value, k))
            else
              var expected := match FirstNamed(rl, r.id.value) case Some(named) => named case None => r;
              && Joined(rl, r) == expected
              && (Joined(rl, r) == JoinedById(rl, r) <==>
                  match FirstWithId(rl, r.id.value)
                  case Some(found) => found == expected
                  case None => expected == r)
  {
    if ByteLength(r.id.value) < MIN_ID_LENGTH {
      ShortIdIsFoundAsName(rl, r.id.value);
    } else {
      FirstMatchIsWrongIff(rl, r.id.value);
    }
  }

  lemma UniformIdsDoNotMislead(entry: Route, id: string, length: nat)
    requires UniformId(entry.id, length) && UniformId(Some(id), length)
    ensures !Misleads(entry, id)
  {
    assert entry.id.Some? && id <= entry.id.value ==> entry.id.value == id;
    if entry.domainName.Some? {
      var full := entry.domainName.value + "/" + entry.name;
      assert full[|entry.domainName.value|] == '/';
    }
  }

  /**
   With uniform IDs nothing misleads, so the join is by ID: each route becomes the one
   registry entry with its ID, and a route without an ID or without such an entry stays as it is.
   */
  lemma JoinIsById(rl: seq<Route>, r: Route, length: nat)
    requires UniformIds(rl, length) && UniformId(r.id, length)
    ensures Joined(rl, r) == JoinedById(rl, r)
    ensures forall i | 0 <= i < |rl| && r.id.Some? && rl[i].id == r.id :: Joined(rl, r) == rl[i]
    ensures r.id.None? || (forall k | k in rl :: k.id != r.id) ==> Joined(rl, r) == r
  {
    if r.id.Some? {
      var id := r.id.value;
      BytesCoverCharacters(id);
      forall entry | entry in rl
        ensures !Misleads(entry, id)
      {
        UniformIdsDoNotMislead(entry, id, length);
      }
      assert forall k: nat :: !Overtakes(rl, id, k);
      JoinIsByIdIff(rl, r);
    }
  }

  /**
   IDs of different lengths can be joined wrongly: an entry that continues the ID wins if it
   comes first, and also if there is no entry of that ID at all.
   */
  lemma UnevenIdsAreJoinedWrongly(longer: Route, exact: Route, r: Route)
    requires r.id.Some? && exact.id == r.id && ByteLength(r.id.value) >= MIN_ID_LENGTH
    requires longer.id == Some(r.id.value + "0")
    ensures Joined([longer, exact], r) == longer && Joined([longer], r) == longer && longer.id != r.id
  {
    assert r.id.value <= longer.id.value;
  }
}
