/**
 * The searches that go through SearchUsersPermissions: the single-user path
 * (answer from the user's aggregate cache entry, re-filtered, or recompute
 * from the store and write the entry), the bulk path, and the entry point
 * that chooses between them. Also the stale-answer defect of the single-user
 * path and the corrected search.
 */
module UserSearch {
  import opened AccessControl
  import opened Search
  import opened Resolution

  /** The aggregate cache key of the bare signed-in user {UserID, OrgID} a search builds. */
  function AggregateKey(env: Collaborators, userId: int, orgId: int): CacheKey
  {
    UserAggregateKey(env.signedInUserCacheKey(userId, orgId))
  }

  /** searchUserPermissionsFromCache: the cached aggregate list, filtered by the search, or a miss. */
  function SearchFromCache(env: Collaborators, cache: Cache, orgId: int, o: SearchOptions): (r: Option<seq<Permission>>)
    ensures r.Some? <==> env.computeUserId(o).Ok? && AggregateKey(env, env.computeUserId(o).value, orgId) in cache
    ensures r.Some? ==> forall i :: 0 <= i < |r.value| ==> PermissionMatchesSearchOptions(r.value[i], o, env.wildcards)
  {
    match env.computeUserId(o)
    case Err(_) => None
    case Ok(userId) =>
      var key := AggregateKey(env, userId, orgId);
      if key in cache then Some(FilterPermissions(cache[key], o, env.wildcards)) else None
  }

  /**
   * searchUserPermissions as written: the target's basic roles from the store,
   * their matching permissions, then the target's stored permissions for the
   * search; the result is written under the target's aggregate key.
   */
  function SearchRecompute(roles: map<string, RoleDTO>, store: Store, env: Collaborators, cache: Cache,
                           orgId: int, o: SearchOptions): (l: Lookup)
    ensures l.result.Err? ==> l.cache == cache
    ensures l.result.Ok? ==>
              env.computeUserId(o).Ok? && l.cache == cache[AggregateKey(env, env.computeUserId(o).value, orgId) := l.result.value]
  {
    match env.computeUserId(o)
    case Err(e) => Lookup(Err(e), cache, [])
    case Ok(userId) =>
      var rolesCall := [GetUsersBasicRolesCall(Some([userId]), orgId)];
      var roleList := store.getUsersBasicRoles(Some([userId]), orgId);
      if roleList.Err? then Lookup(Err(BasicRolesFetchFailed(roleList.error)), cache, rolesCall)
      else if userId !in roleList.value then Lookup(Err(NoBasicRoles(userId, orgId)), cache, rolesCall)
      else
        var fromRoles := RolesSearchPermissions(roles, roleList.value[userId], o, env.wildcards);
        var calls := rolesCall + [SearchUsersPermissionsCall(orgId, o)];
        var db := store.searchUsersPermissions(orgId, o);
        if db.Err? then Lookup(Err(db.error), cache, calls)
        else
          var permissions := fromRoles + (if userId in db.value then db.value[userId] else []);
          Lookup(Ok(permissions), cache[AggregateKey(env, userId, orgId) := permissions], calls)
  }

  /** SearchUserPermissions as written: a target is required; a cache hit wins; otherwise recompute. */
  function SearchUser(roles: map<string, RoleDTO>, store: Store, env: Collaborators, cache: Cache,
                      orgId: int, o: SearchOptions): Lookup
  {
    if o.namespacedId == "" then Lookup(Err(MissingNamespacedId), cache, [])
    else match SearchFromCache(env, cache, orgId, o)
      case Some(ps) => Lookup(Ok(ps), cache, [])
      case None => SearchRecompute(roles, store, env, cache, orgId, o)
  }

  /** Filtering a list whose every element matches gives it back. */
  lemma {:induction false} FilterKeepsMatching(ps: seq<Permission>, o: SearchOptions, wildcardsOf: string -> seq<string>)
    requires forall i :: 0 <= i < |ps| ==> PermissionMatchesSearchOptions(ps[i], o, wildcardsOf)
    ensures FilterPermissions(ps, o, wildcardsOf) == ps
    decreases |ps|
  {
    if ps != [] {
      var init, last := ps[..|ps| - 1], ps[|ps| - 1];
      assert ps == init + [last];
      assert ps[|ps| - 1] == last;
      FilterKeepsMatching(init, o, wildcardsOf);
      FilterSnoc(init, last, o, wildcardsOf);
    }
  }

  /** Appending a matching permission appends it to the filtered list. */
  lemma FilterSnoc(init: seq<Permission>, last: Permission, o: SearchOptions, wildcardsOf: string -> seq<string>)
    requires PermissionMatchesSearchOptions(last, o, wildcardsOf)
    ensures FilterPermissions(init + [last], o, wildcardsOf) == FilterPermissions(init, o, wildcardsOf) + [last]
  {
    assert (init + [last])[..|init|] == init;
  }

  /** The basic-role share of a search only holds permissions that match it. */
  lemma {:induction false} RolesSearchPermissionsMatch(roles: map<string, RoleDTO>, userRoles: seq<string>,
                                                       o: SearchOptions, wildcardsOf: string -> seq<string>)
    ensures forall i :: 0 <= i < |RolesSearchPermissions(roles, userRoles, o, wildcardsOf)| ==>
              PermissionMatchesSearchOptions(RolesSearchPermissions(roles, userRoles, o, wildcardsOf)[i], o, wildcardsOf)
  {
    var ps := RolesSearchPermissions(roles, userRoles, o, wildcardsOf);
    forall i | 0 <= i < |ps|
      ensures PermissionMatchesSearchOptions(ps[i], o, wildcardsOf)
    {
      RolesSearchPermissionsMember(roles, userRoles, o, wildcardsOf, ps[i]);
    }
  }

  /** A recompute's answer matches the search when the store's answer does. */
  lemma RecomputeMatches(roles: map<string, RoleDTO>, store: Store, env: Collaborators, cache: Cache,
                         orgId: int, o: SearchOptions)
    requires SearchRecompute(roles, store, env, cache, orgId, o).result.Ok?
    requires var db := store.searchUsersPermissions(orgId, o);
      db.Ok? && forall u, i :: u in db.value && 0 <= i < |db.value[u]| ==> PermissionMatchesSearchOptions(db.value[u][i], o, env.wildcards)
    ensures var ps := SearchRecompute(roles, store, env, cache, orgId, o).result.value;
      forall i :: 0 <= i < |ps| ==> PermissionMatchesSearchOptions(ps[i], o, env.wildcards)
  {
    var userId := env.computeUserId(o).value;
    var roleList := store.getUsersBasicRoles(Some([userId]), orgId).value;
    var fromRoles := RolesSearchPermissions(roles, roleList[userId], o, env.wildcards);
    var db := store.searchUsersPermissions(orgId, o).value;
    var own := if userId in db then db[userId] else [];
    assert SearchRecompute(roles, store, env, cache, orgId, o).result.value == fromRoles + own;
    RolesSearchPermissionsMatch(roles, roleList[userId], o, env.wildcards);
    assert forall i :: 0 <= i < |own| ==> PermissionMatchesSearchOptions(own[i], o, env.wildcards);
    ConcatMatches(fromRoles, own, o, env.wildcards);
  }

  lemma ConcatMatches(a: seq<Permission>, b: seq<Permission>, o: SearchOptions, wildcardsOf: string -> seq<string>)
    requires forall i :: 0 <= i < |a| ==> PermissionMatchesSearchOptions(a[i], o, wildcardsOf)
    requires forall i :: 0 <= i < |b| ==> PermissionMatchesSearchOptions(b[i], o, wildcardsOf)
    ensures forall i :: 0 <= i < |a + b| ==> PermissionMatchesSearchOptions((a + b)[i], o, wildcardsOf)
  {
    forall i | 0 <= i < |a + b|
      ensures PermissionMatchesSearchOptions((a + b)[i], o, wildcardsOf)
    {
      if i >= |a| {
        assert (a + b)[i] == b[i - |a|];
      }
    }
  }

  /**
   * Repeating a search right after a recompute is a cache hit with the same
   * answer and no store call, provided the store's answer matched the search.
   */
  lemma RepeatedSearchHits(roles: map<string, RoleDTO>, store: Store, env: Collaborators, cache: Cache,
                           orgId: int, o: SearchOptions)
    requires o.namespacedId != ""
    requires SearchRecompute(roles, store, env, cache, orgId, o).result.Ok?
    requires var db := store.searchUsersPermissions(orgId, o);
      db.Ok? && forall u, i :: u in db.value && 0 <= i < |db.value[u]| ==> PermissionMatchesSearchOptions(db.value[u][i], o, env.wildcards)
    ensures var first := SearchRecompute(roles, store, env, cache, orgId, o);
      SearchUser(roles, store, env, first.cache, orgId, o) == Lookup(first.result, first.cache, [])
  {
    var first := SearchRecompute(roles, store, env, cache, orgId, o);
    RecomputeMatches(roles, store, env, cache, orgId, o);
    FilterKeepsMatching(first.result.value, o, env.wildcards);
    assert SearchFromCache(env, first.cache, orgId, o) == Some(first.result.value);
  }

  // ---------------------------------------------------------------------
  // The stale-answer defect and the corrected search
  // ---------------------------------------------------------------------

  /** A one-role world: user 1 holds "Viewer", which carries "a:read" and "b:read" on "x". */
  function ExampleRoles(): map<string, RoleDTO>
  {
    map["Viewer" := RoleDTO("Viewer", "", "", "", [Permission("a:read", "x"), Permission("b:read", "x")])]
  }

  function ExampleStore(): Store
  {
    Store(q => Ok([]), q => Ok([]), q => Ok(map[]),
          (ids, org) => Ok(map[1 := ["Viewer"]]), (org, o) => Ok(map[]))
  }

  function ExampleEnv(): Collaborators
  {
    Collaborators(s => [], g => {}, r => None, g => None, (id, r) => None, (id, n, regs) => [],
                  (ns, id) => Ok(1), o => Ok(1), (u, org) => "user-1", "managed:", "externalservice")
  }

  function ExampleSearch(action: string): SearchOptions
  {
    SearchOptions("", action, "", "user:1", [])
  }

  /**
   * As written, a search for "a:read" leaves only that permission cached
   * under the aggregate key, so the next search for "b:read" answers from the
   * cache with nothing, while the same search on a fresh cache finds "b:read".
   */
  lemma StaleFilteredSearch()
    ensures var first := SearchUser(ExampleRoles(), ExampleStore(), ExampleEnv(), map[], 1, ExampleSearch("a:read"));
      && SearchUser(ExampleRoles(), ExampleStore(), ExampleEnv(), first.cache, 1, ExampleSearch("b:read")).result == Ok([])
      && SearchUser(ExampleRoles(), ExampleStore(), ExampleEnv(), map[], 1, ExampleSearch("b:read")).result
           == Ok([Permission("b:read", "x")])
  {
    var roles, store, env := ExampleRoles(), ExampleStore(), ExampleEnv();
    var a, b := Permission("a:read", "x"), Permission("b:read", "x");
    var oa, ob := ExampleSearch("a:read"), ExampleSearch("b:read");
    assert [a, b][..1] == [a];
    assert [a][..0] == [];
    assert FilterPermissions([a], oa, env.wildcards) == [a];
    assert FilterPermissions([a, b], oa, env.wildcards) == [a];
    assert FilterPermissions([a], ob, env.wildcards) == [];
    assert FilterPermissions([a, b], ob, env.wildcards) == [b];
    assert ["Viewer"][..0] == [];
    assert RolesSearchPermissions(roles, ["Viewer"], oa, env.wildcards) == [a];
    assert RolesSearchPermissions(roles, ["Viewer"], ob, env.wildcards) == [b];
    assert env.computeUserId(oa) == Ok(1) && env.computeUserId(ob) == Ok(1);
    assert store.getUsersBasicRoles(Some([1]), 1) == Ok(map[1 := ["Viewer"]]);
    assert store.searchUsersPermissions(1, oa) == Ok(map[]) && store.searchUsersPermissions(1, ob) == Ok(map[]);
    assert SearchFromCache(env, map[], 1, oa) == None;
    var first := SearchUser(roles, store, env, map[], 1, oa);
    assert first == SearchRecompute(roles, store, env, map[], 1, oa);
    assert 1 in map[1 := ["Viewer"]] && map[1 := ["Viewer"]][1] == ["Viewer"];
    var noStored: map<int, seq<Permission>> := map[];
    assert 1 !in noStored;
    assert first.result == Ok(RolesSearchPermissions(roles, ["Viewer"], oa, env.wildcards) + []);
    assert [a] + [] == [a];
    assert first.result == Ok([a]);
    assert first.cache == map[UserAggregateKey("user-1") := [a]];
    assert SearchFromCache(env, map[], 1, ob) == None;
    var anew := SearchUser(roles, store, env, map[], 1, ob);
    assert anew == SearchRecompute(roles, store, env, map[], 1, ob);
    assert anew.result == Ok(RolesSearchPermissions(roles, ["Viewer"], ob, env.wildcards) + []);
    assert [b] + [] == [b];
  }

  /** The recompute without the write-back: the store's answer, and the cache left alone. */
  function SearchRecomputeIntended(roles: map<string, RoleDTO>, store: Store, env: Collaborators, cache: Cache,
                                   orgId: int, o: SearchOptions): (l: Lookup)
    ensures l.cache == cache
    ensures l.result == SearchRecompute(roles, store, env, cache, orgId, o).result
  {
    var computed := SearchRecompute(roles, store, env, cache, orgId, o);
    Lookup(computed.result, cache, computed.calls)
  }

  /** SearchUserPermissions with the corrected recompute. */
  function SearchUserIntended(roles: map<string, RoleDTO>, store: Store, env: Collaborators, cache: Cache,
                              orgId: int, o: SearchOptions): (l: Lookup)
    ensures l.cache == cache
    ensures o.namespacedId == "" ==> l.result == Err(MissingNamespacedId) && l.calls == []
    ensures o.namespacedId != "" && SearchFromCache(env, cache, orgId, o).Some? ==>
              l.result == Ok(SearchFromCache(env, cache, orgId, o).value) && l.calls == []
  {
    if o.namespacedId == "" then Lookup(Err(MissingNamespacedId), cache, [])
    else match SearchFromCache(env, cache, orgId, o)
      case Some(ps) => Lookup(Ok(ps), cache, [])
      case None => SearchRecomputeIntended(roles, store, env, cache, orgId, o)
  }

  /** With the correction, a search's answer does not depend on the searches made before it. */
  lemma {:induction false} IntendedSearchIndependent(roles: map<string, RoleDTO>, store: Store, env: Collaborators,
                                                     cache: Cache, orgId: int, earlier: seq<SearchOptions>, o: SearchOptions)
    ensures SearchUserIntended(roles, store, env, AfterSearches(roles, store, env, cache, orgId, earlier), orgId, o)
         == SearchUserIntended(roles, store, env, cache, orgId, o)
    decreases |earlier|
  {
    if earlier != [] {
      IntendedSearchIndependent(roles, store, env, cache, orgId, earlier[..|earlier| - 1], o);
    }
  }

  /** The cache after a series of corrected searches, in order. */
  function AfterSearches(roles: map<string, RoleDTO>, store: Store, env: Collaborators, cache: Cache,
                         orgId: int, searches: seq<SearchOptions>): Cache
    decreases |searches|
  {
    if searches == [] then cache
    else SearchUserIntended(roles, store, env, AfterSearches(roles, store, env, cache, orgId, searches[..|searches| - 1]),
                            orgId, searches[|searches| - 1]).cache
  }

  /** With the correction the example's second search finds "b:read". */
  lemma IntendedSearchExample()
    ensures var first := SearchUserIntended(ExampleRoles(), ExampleStore(), ExampleEnv(), map[], 1, ExampleSearch("a:read"));
      SearchUserIntended(ExampleRoles(), ExampleStore(), ExampleEnv(), first.cache, 1, ExampleSearch("b:read")).result
        == Ok([Permission("b:read", "x")])
  {
    StaleFilteredSearch();
    var roles, store, env := ExampleRoles(), ExampleStore(), ExampleEnv();
    var ob := ExampleSearch("b:read");
    var first := SearchUserIntended(roles, store, env, map[], 1, ExampleSearch("a:read"));
    assert first.cache == map[];
    assert SearchFromCache(env, map[], 1, ob) == None;
    assert SearchUser(roles, store, env, map[], 1, ob).result == SearchRecompute(roles, store, env, map[], 1, ob).result;
  }

  // ---------------------------------------------------------------------
  // The bulk path and the entry point
  // ---------------------------------------------------------------------

  /** The answer of a computation that returns a per-user map and reads the store but not the cache. */
  datatype BulkResolved = BulkResolved(result: Result<map<int, seq<Permission>>>, calls: seq<StoreCall>)

  /** The same, through the cache, with the cache afterwards. */
  datatype BulkLookup = BulkLookup(result: Result<map<int, seq<Permission>>>, cache: Cache, calls: seq<StoreCall>)

  /**
   * The bulk path of SearchUsersPermissions: every user's basic roles and the
   * stored permissions matching the search, each fetched once, merged for
   * the users the requester may see.
   */
  function BulkSearch(roles: map<string, RoleDTO>, store: Store, env: Collaborators, usr: Principal,
                      o: SearchOptions): (b: BulkResolved)
    ensures b.result.Ok? ==> forall u :: u in b.result.value ==> CanViewSpec(usr.permissions, u) && b.result.value[u] != []
  {
    var rolesCall := [GetUsersBasicRolesCall(None, usr.orgId)];
    var usersRoles := store.getUsersBasicRoles(None, usr.orgId);
    if usersRoles.Err? then BulkResolved(Err(usersRoles.error), rolesCall)
    else
      var calls := rolesCall + [SearchUsersPermissionsCall(usr.orgId, o)];
      var usersPermissions := store.searchUsersPermissions(usr.orgId, o);
      if usersPermissions.Err? then BulkResolved(Err(usersPermissions.error), calls)
      else BulkResolved(Ok(BulkSearchResult(roles, usersRoles.value, usersPermissions.value, usr.permissions, o, env.wildcards)),
                        calls)
  }

  /**
   * SearchUsersPermissions: the role prefixes are forced to the OSS ones; a
   * search naming a user goes through the single-user path, as written, and
   * answers a one-entry map; any other search is the bulk path.
   */
  function SearchUsers(roles: map<string, RoleDTO>, store: Store, env: Collaborators, cache: Cache,
                       usr: Principal, options: SearchOptions): BulkLookup
  {
    var o := options.(rolePrefixes := env.OSSRolesPrefixes());
    if o.namespacedId != "" then
      match env.computeUserId(o)
      case Err(e) => BulkLookup(Err(e), cache, [])
      case Ok(userId) =>
        var l := SearchUser(roles, store, env, cache, usr.orgId, o);
        BulkLookup(if l.result.Err? then Err(l.result.error) else Ok(map[userId := l.result.value]), l.cache, l.calls)
    else
      var b := BulkSearch(roles, store, env, usr, o);
      BulkLookup(b.result, cache, b.calls)
  }

  /**
   * What the entry point promises: a search naming a user answers for that
   * user alone, with the single-user search's answer and cache; a bulk
   * answer leaves the cache alone, holds only users the requester may see,
   * each with a non-empty list, and the store is asked with the OSS role
   * prefixes.
   */
  lemma SearchUsersShape(roles: map<string, RoleDTO>, store: Store, env: Collaborators, cache: Cache,
                         usr: Principal, options: SearchOptions)
    ensures var s := SearchUsers(roles, store, env, cache, usr, options);
      && (options.namespacedId != "" && s.result.Ok? ==>
            var o := options.(rolePrefixes := env.OSSRolesPrefixes());
            var userId := env.computeUserId(o).value;
            && s.result.value.Keys == {userId}
            && Ok(s.result.value[userId]) == SearchUser(roles, store, env, cache, usr.orgId, o).result
            && s.cache == SearchUser(roles, store, env, cache, usr.orgId, o).cache)
      && (options.namespacedId == "" ==> s.cache == cache)
      && (options.namespacedId == "" && s.result.Ok? ==>
            forall u :: u in s.result.value ==> CanViewSpec(usr.permissions, u) && s.result.value[u] != [])
      && (options.namespacedId == "" && |s.calls| == 2 ==>
            s.calls[1] == SearchUsersPermissionsCall(usr.orgId, options.(rolePrefixes := env.OSSRolesPrefixes())))
  {
  }

  /**
   * A search naming a user is not gated by what the requester may see: its
   * answer, cache and calls are the same whatever the requester's own
   * permissions are. Only the bulk path consults them.
   */
  lemma NamedSearchIgnoresVisibility(roles: map<string, RoleDTO>, store: Store, env: Collaborators, cache: Cache,
                                     usr: Principal, options: SearchOptions, others: map<string, seq<string>>)
    requires options.namespacedId != ""
    ensures SearchUsers(roles, store, env, cache, usr, options)
         == SearchUsers(roles, store, env, cache, usr.(permissions := others), options)
  {
  }

  /**
   * The correction changes only the cache: on the same cache, the search as
   * written and the corrected search give the same answer with the same
   * store calls.
   */
  lemma SearchUserAgreesIntended(roles: map<string, RoleDTO>, store: Store, env: Collaborators, cache: Cache,
                                 orgId: int, o: SearchOptions)
    ensures SearchUser(roles, store, env, cache, orgId, o).result == SearchUserIntended(roles, store, env, cache, orgId, o).result
    ensures SearchUser(roles, store, env, cache, orgId, o).calls == SearchUserIntended(roles, store, env, cache, orgId, o).calls
  {
  }
}
