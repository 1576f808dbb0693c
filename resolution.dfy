/**
 * What a permission resolution returns, how it uses the cache and which
 * store round trips it makes, stated as functions of the service's state
 * (role map, store, feature flags, collaborators, cache). The methods of
 * ServiceImpl.Service are proved to agree with these functions; the lemmas
 * here state what the resolution promises.
 */
module Resolution {
  import opened AccessControl
  import opened GoStrings

  /** The answer of a computation that reads the store but not the cache. */
  datatype Resolved = Resolved(result: Result<seq<Permission>>, calls: seq<StoreCall>)

  /** The answer of a computation that goes through the cache, with the cache afterwards. */
  datatype Lookup = Lookup(result: Result<seq<Permission>>, cache: Cache, calls: seq<StoreCall>)

  /** Key `k` is present in both caches with the same value, or in neither. */
  predicate SameEntry(c1: Cache, c2: Cache, k: CacheKey)
  {
    (k in c1 <==> k in c2) && (k in c1 ==> c1[k] == c2[k])
  }

  // ---------------------------------------------------------------------
  // Basic roles and the uncached resolution
  // ---------------------------------------------------------------------

  /** The permissions of each named basic role the role map has, in the order of `names`. */
  function BasicPermissions(roles: map<string, RoleDTO>, names: seq<string>): seq<Permission>
    decreases |names|
  {
    if names == [] then []
    else
      var n := names[|names| - 1];
      BasicPermissions(roles, names[..|names| - 1]) + (if n in roles then roles[n].permissions else [])
  }

  /** A permission is collected exactly when some named role the map has carries it. */
  lemma {:induction false} BasicPermissionsMember(roles: map<string, RoleDTO>, names: seq<string>, p: Permission)
    ensures p in BasicPermissions(roles, names) <==>
              exists i :: 0 <= i < |names| && names[i] in roles && p in roles[names[i]].permissions
    decreases |names|
  {
    if names != [] {
      var init := names[..|names| - 1];
      BasicPermissionsMember(roles, init, p);
      assert forall i :: 0 <= i < |init| ==> init[i] == names[i];
    }
  }

  /** The store query of the uncached resolution. */
  function UncachedQuery(env: Collaborators, user: Principal, userId: int): UserPermissionsQuery
  {
    UserPermissionsQuery(user.orgId, userId, user.orgRoles, user.teams, env.OSSRolesPrefixes())
  }

  /** The permissions the uncached resolution finds before asking the store. */
  function UncachedLocalPart(roles: map<string, RoleDTO>, features: Features, user: Principal): seq<Permission>
  {
    BasicPermissions(roles, user.orgRoles) + (if features.nestedFolders then [SharedWithMeFolderPermission] else [])
  }

  /** getUserPermissions: basic roles, the shared-with-me folder when enabled, then the store. */
  function UncachedPermissions(roles: map<string, RoleDTO>, store: Store, features: Features,
                               env: Collaborators, user: Principal): Resolved
  {
    match env.userIdentifier(user.namespace, user.identifier)
    case Err(e) => Resolved(Err(e), [])
    case Ok(userId) =>
      var q := UncachedQuery(env, user, userId);
      var db := store.getUserPermissions(q);
      Resolved(if db.Err? then Err(db.error) else Ok(UncachedLocalPart(roles, features, user) + db.value),
               [GetUserPermissionsCall(q)])
  }

  /**
   * What the uncached resolution promises: it fails exactly when the
   * identifier or the store query fails, asks the store at most once, and
   * on success holds every permission of every basic role the principal
   * holds, the shared-with-me folder when enabled, and all stored ones.
   */
  lemma UncachedPermissionsContents(roles: map<string, RoleDTO>, store: Store, features: Features,
                                    env: Collaborators, user: Principal, p: Permission)
    ensures var u := UncachedPermissions(roles, store, features, env, user);
      && |u.calls| <= 1
      && (u.result.Ok? <==> env.userIdentifier(user.namespace, user.identifier).Ok?
                            && store.getUserPermissions(UncachedQuery(env, user, env.userIdentifier(user.namespace, user.identifier).value)).Ok?)
      && (u.result.Ok? ==>
            && ((exists i :: 0 <= i < |user.orgRoles| && user.orgRoles[i] in roles && p in roles[user.orgRoles[i]].permissions)
                ==> p in u.result.value)
            && (features.nestedFolders ==> SharedWithMeFolderPermission in u.result.value)
            && (p in store.getUserPermissions(UncachedQuery(env, user, env.userIdentifier(user.namespace, user.identifier).value)).value
                ==> p in u.result.value))
  {
    BasicPermissionsMember(roles, user.orgRoles, p);
  }

  // ---------------------------------------------------------------------
  // The cache-or-compute helper and the two producers it is used with
  // ---------------------------------------------------------------------

  /**
   * getCachedPermissions: a hit (when no reload is asked for) answers from
   * the cache without running the producer; otherwise the producer's answer
   * is returned and, only when it succeeded, stored under the key.
   */
  function CacheOrCompute(cache: Cache, key: CacheKey, reload: bool, computed: Resolved): (o: Lookup)
    ensures !reload && key in cache ==> o == Lookup(Ok(cache[key]), cache, [])
    ensures reload || key !in cache ==> o.result == computed.result && o.calls == computed.calls
    ensures o.result.Ok? ==> key in o.cache && o.cache[key] == o.result.value
    ensures o.result.Err? ==> o.cache == cache
    ensures forall k :: k != key ==> SameEntry(cache, o.cache, k)
  {
    if !reload && key in cache then Lookup(Ok(cache[key]), cache, [])
    else if computed.result.Ok? then Lookup(computed.result, cache[key := computed.result.value], computed.calls)
    else Lookup(computed.result, cache, computed.calls)
  }

  /** A second lookup right after a successful one is a hit with the same answer and no store call. */
  lemma RepeatedLookupHits(cache: Cache, key: CacheKey, reload: bool, computed: Resolved, computed': Resolved)
    requires CacheOrCompute(cache, key, reload, computed).result.Ok?
    ensures var first := CacheOrCompute(cache, key, reload, computed);
      CacheOrCompute(first.cache, key, false, computed') == Lookup(first.result, first.cache, [])
  {
  }

  /** The store query behind a basic role's managed permissions. */
  function BasicRoleQuery(env: Collaborators, role: string, orgId: int): UserPermissionsQuery
  {
    UserPermissionsQuery(orgId, 0, [role], [], env.OSSRolesPrefixes())
  }

  /** getBasicRolePermissions: the role's in-memory permissions, then its managed ones from the store. */
  function BasicRoleFresh(roles: map<string, RoleDTO>, store: Store, env: Collaborators, role: string, orgId: int): Resolved
  {
    var q := BasicRoleQuery(env, role, orgId);
    var db := store.getBasicRolesPermissions(q);
    var own := if role in roles then roles[role].permissions else [];
    Resolved(if db.Err? then Err(db.error) else Ok(own + db.value), [GetBasicRolesPermissionsCall(q)])
  }

  /**
   * The user id getUserDirectPermissions queries with: the identifier parsed
   * as a 64-bit integer for users and service accounts, 0 for other namespaces.
   */
  function DirectUserId(user: Principal): Result<int>
  {
    if user.namespace == NamespaceUser || user.namespace == NamespaceServiceAccount then
      match ParseInt64(user.identifier)
      case None => Err(InvalidIdentifier(user.identifier))
      case Some(id) => Ok(id)
    else Ok(0)
  }

  function DirectQuery(env: Collaborators, user: Principal, userId: int): UserPermissionsQuery
  {
    UserPermissionsQuery(user.orgId, userId, [], [], env.OSSRolesPrefixes())
  }

  /** getUserDirectPermissions: the stored direct grants, then the shared-with-me folder when enabled. */
  function DirectFresh(store: Store, features: Features, env: Collaborators, user: Principal): Resolved
  {
    match DirectUserId(user)
    case Err(e) => Resolved(Err(e), [])
    case Ok(userId) =>
      var q := DirectQuery(env, user, userId);
      var db := store.getUserPermissions(q);
      Resolved(if db.Err? then Err(db.error)
               else Ok(db.value + (if features.nestedFolders then [SharedWithMeFolderPermission] else [])),
               [GetUserPermissionsCall(q)])
  }

  /**
   * A user or service account whose identifier is the base-10 form of a
   * 64-bit integer has its direct permissions asked for under that id.
   */
  lemma DirectFreshFormattedId(store: Store, features: Features, env: Collaborators, user: Principal, n: int)
    requires MinInt64 <= n <= MaxInt64
    requires user.namespace == NamespaceUser || user.namespace == NamespaceServiceAccount
    requires user.identifier == FormatInt(n)
    ensures DirectUserId(user) == Ok(n)
    ensures DirectFresh(store, features, env, user).calls == [GetUserPermissionsCall(DirectQuery(env, user, n))]
  {
    ParseFormatInt(n);
  }

  /** The producers handed to the cache-or-compute helper. */
  datatype Producer = BasicRoleProducer(role: string, orgId: int) | UserDirectProducer(user: Principal)

  function Produce(roles: map<string, RoleDTO>, store: Store, features: Features, env: Collaborators, p: Producer): Resolved
  {
    match p
    case BasicRoleProducer(role, orgId) => BasicRoleFresh(roles, store, env, role, orgId)
    case UserDirectProducer(user) => DirectFresh(store, features, env, user)
  }

  // ---------------------------------------------------------------------
  // The three cached sub-queries
  // ---------------------------------------------------------------------

  /**
   * getCachedBasicRolesPermissions: one cached lookup per held basic role,
   * in order, concatenated; the first failure ends the walk.
   */
  function CachedBasicRoles(roles: map<string, RoleDTO>, store: Store, env: Collaborators, cache: Cache,
                            names: seq<string>, orgId: int, reload: bool): (o: Lookup)
    ensures forall k: CacheKey :: !k.BasicRoleKey? ==> SameEntry(cache, o.cache, k)
    decreases |names|
  {
    if names == [] then Lookup(Ok([]), cache, [])
    else
      var prev := CachedBasicRoles(roles, store, env, cache, names[..|names| - 1], orgId, reload);
      if prev.result.Err? then prev
      else
        var role := names[|names| - 1];
        var step := CacheOrCompute(prev.cache, BasicRoleKey(role, orgId), reload, BasicRoleFresh(roles, store, env, role, orgId));
        Lookup(if step.result.Err? then step.result else Ok(prev.result.value + step.result.value),
               step.cache, prev.calls + step.calls)
  }

  /** Every cached basic-role entry of the org is what recomputing it now would give. */
  ghost predicate BasicRolesCoherent(roles: map<string, RoleDTO>, store: Store, env: Collaborators, cache: Cache, orgId: int)
  {
    forall role :: BasicRoleKey(role, orgId) in cache ==>
      BasicRoleFresh(roles, store, env, role, orgId).result == Ok(cache[BasicRoleKey(role, orgId)])
  }

  /**
   * Cache transparency for basic roles: with a coherent cache, the cached
   * walk answers exactly what a forced reload answers, and leaves the cache
   * coherent.
   */
  lemma {:induction false} CachedBasicRolesTransparent(roles: map<string, RoleDTO>, store: Store, env: Collaborators,
                                                       cache: Cache, names: seq<string>, orgId: int)
    requires BasicRolesCoherent(roles, store, env, cache, orgId)
    ensures CachedBasicRoles(roles, store, env, cache, names, orgId, false).result
         == CachedBasicRoles(roles, store, env, cache, names, orgId, true).result
    ensures BasicRolesCoherent(roles, store, env, CachedBasicRoles(roles, store, env, cache, names, orgId, false).cache, orgId)
    ensures BasicRolesCoherent(roles, store, env, CachedBasicRoles(roles, store, env, cache, names, orgId, true).cache, orgId)
    decreases |names|
  {
    if names != [] {
      var init := names[..|names| - 1];
      CachedBasicRolesTransparent(roles, store, env, cache, init, orgId);
      var prevF := CachedBasicRoles(roles, store, env, cache, init, orgId, false);
      var prevT := CachedBasicRoles(roles, store, env, cache, init, orgId, true);
      var role := names[|names| - 1];
      var key := BasicRoleKey(role, orgId);
      var computed := BasicRoleFresh(roles, store, env, role, orgId);
      if prevF.result.Ok? {
        var stepF := CacheOrCompute(prevF.cache, key, false, computed);
        var stepT := CacheOrCompute(prevT.cache, key, true, computed);
        assert stepF.result == stepT.result;
        forall r | BasicRoleKey(r, orgId) in stepF.cache
          ensures BasicRoleFresh(roles, store, env, r, orgId).result == Ok(stepF.cache[BasicRoleKey(r, orgId)])
        {
          if BasicRoleKey(r, orgId) != key {
            assert SameEntry(prevF.cache, stepF.cache, BasicRoleKey(r, orgId));
          }
        }
        forall r | BasicRoleKey(r, orgId) in stepT.cache
          ensures BasicRoleFresh(roles, store, env, r, orgId).result == Ok(stepT.cache[BasicRoleKey(r, orgId)])
        {
          if BasicRoleKey(r, orgId) != key {
            assert SameEntry(prevT.cache, stepT.cache, BasicRoleKey(r, orgId));
          }
        }
      }
    }
  }

  /** A failure part-way through the walk is the walk's answer however many roles follow. */
  lemma {:induction false} CachedBasicRolesErrorSticks(roles: map<string, RoleDTO>, store: Store, env: Collaborators,
                                                       cache: Cache, names: seq<string>, orgId: int, reload: bool, i: nat)
    requires i <= |names|
    requires CachedBasicRoles(roles, store, env, cache, names[..i], orgId, reload).result.Err?
    ensures CachedBasicRoles(roles, store, env, cache, names, orgId, reload)
         == CachedBasicRoles(roles, store, env, cache, names[..i], orgId, reload)
    decreases |names| - i
  {
    if i < |names| {
      var m := names[..|names| - 1];
      assert m[..i] == names[..i];
      CachedBasicRolesErrorSticks(roles, store, env, cache, m, orgId, reload, i);
    } else {
      assert names[..i] == names;
    }
  }

  /** The teams whose permissions must come from the store: all of them on reload, else those not cached, in order. */
  function TeamMisses(teams: seq<int>, orgId: int, cache: Cache, reload: bool): (miss: seq<int>)
    ensures reload ==> miss == teams
    ensures |miss| <= |teams|
    ensures forall t :: t in miss <==> t in teams && (reload || TeamKey(t, orgId) !in cache)
    decreases |teams|
  {
    if reload || teams == [] then teams
    else
      var t := teams[|teams| - 1];
      var init := TeamMisses(teams[..|teams| - 1], orgId, cache, reload);
      assert teams == teams[..|teams| - 1] + [t];
      if TeamKey(t, orgId) in cache then init else init + [t]
  }

  /** The cached permissions of the teams that hit, in team order (none on reload). */
  function TeamHits(teams: seq<int>, orgId: int, cache: Cache, reload: bool): seq<Permission>
    decreases |teams|
  {
    if reload || teams == [] then []
    else
      var t := teams[|teams| - 1];
      TeamHits(teams[..|teams| - 1], orgId, cache, reload)
        + (if TeamKey(t, orgId) in cache then cache[TeamKey(t, orgId)] else [])
  }

  /** With no reload and every team cached, the hits are the cached values in order and nothing misses. */
  lemma {:induction false} AllTeamsCached(teams: seq<int>, orgId: int, cache: Cache, p: Permission)
    requires forall i :: 0 <= i < |teams| ==> TeamKey(teams[i], orgId) in cache
    ensures TeamMisses(teams, orgId, cache, false) == []
    ensures p in TeamHits(teams, orgId, cache, false) <==>
              exists i :: 0 <= i < |teams| && p in cache[TeamKey(teams[i], orgId)]
    decreases |teams|
  {
    if teams != [] {
      var init := teams[..|teams| - 1];
      AllTeamsCached(init, orgId, cache, p);
      assert forall i :: 0 <= i < |init| ==> init[i] == teams[i];
    }
  }

  function TeamsQuery(env: Collaborators, miss: seq<int>, orgId: int): UserPermissionsQuery
  {
    UserPermissionsQuery(orgId, 0, [], miss, env.OSSRolesPrefixes())
  }

  /** The cache entries written back for a store answer: one per returned team. */
  function TeamEntries(m: map<int, seq<Permission>>, orgId: int): Cache
  {
    map t | t in m.Keys :: TeamKey(t, orgId) := m[t]
  }

  /** `order` lists each key of `keys` exactly once: one iteration order of a map. */
  ghost predicate IsEnumeration(order: seq<int>, keys: set<int>)
  {
    && (forall i, j :: 0 <= i < j < |order| ==> order[i] != order[j])
    && (forall t :: t in order <==> t in keys)
  }

  /** The permissions of a map's teams, visited in `order`. */
  function ConcatInOrder(m: map<int, seq<Permission>>, order: seq<int>): seq<Permission>
    decreases |order|
  {
    if order == [] then []
    else
      var t := order[|order| - 1];
      ConcatInOrder(m, order[..|order| - 1]) + (if t in m then m[t] else [])
  }

  /**
   * getCachedTeamsPermissions, for one iteration order `order` of the store's
   * answer: cached teams answer from the cache; the misses, if any, go to the
   * store in a single call; every team the store returns is written back.
   */
  function CachedTeams(store: Store, env: Collaborators, cache: Cache, teams: seq<int>,
                       orgId: int, reload: bool, order: seq<int>): (o: Lookup)
    ensures |o.calls| <= 1
    ensures o.calls != [] <==> TeamMisses(teams, orgId, cache, reload) != []
    ensures o.calls != [] ==> o.calls[0] == GetTeamsPermissionsCall(TeamsQuery(env, TeamMisses(teams, orgId, cache, reload), orgId))
    ensures forall k: CacheKey :: !k.TeamKey? ==> SameEntry(cache, o.cache, k)
    ensures o.result.Ok? ==> TeamHits(teams, orgId, cache, reload) <= o.result.value
  {
    var miss := TeamMisses(teams, orgId, cache, reload);
    var hits := TeamHits(teams, orgId, cache, reload);
    if miss == [] then Lookup(Ok(hits), cache, [])
    else
      var q := TeamsQuery(env, miss, orgId);
      var fetched := store.getTeamsPermissions(q);
      if fetched.Err? then Lookup(Err(fetched.error), cache, [GetTeamsPermissionsCall(q)])
      else Lookup(Ok(hits + ConcatInOrder(fetched.value, order)), cache + TeamEntries(fetched.value, orgId),
                  [GetTeamsPermissionsCall(q)])
  }

  /**
   * Teams that are all cached are answered from the cache without a store
   * call, the cache left as it is; the answer holds exactly the cached
   * teams' permissions.
   */
  lemma CachedTeamsAllHit(store: Store, env: Collaborators, cache: Cache, teams: seq<int>, orgId: int,
                          order: seq<int>, p: Permission)
    requires forall i :: 0 <= i < |teams| ==> TeamKey(teams[i], orgId) in cache
    ensures CachedTeams(store, env, cache, teams, orgId, false, order) == Lookup(Ok(TeamHits(teams, orgId, cache, false)), cache, [])
    ensures p in CachedTeams(store, env, cache, teams, orgId, false, order).result.value <==>
              exists i :: 0 <= i < |teams| && p in cache[TeamKey(teams[i], orgId)]
  {
    AllTeamsCached(teams, orgId, cache, p);
  }

  /** `order` is an iteration order of the store's team answer, whenever the store was asked and answered. */
  ghost predicate TeamOrder(store: Store, env: Collaborators, cache: Cache, teams: seq<int>,
                            orgId: int, reload: bool, order: seq<int>)
  {
    var miss := TeamMisses(teams, orgId, cache, reload);
    var fetched := store.getTeamsPermissions(TeamsQuery(env, miss, orgId));
    miss != [] && fetched.Ok? ==> IsEnumeration(order, fetched.value.Keys)
  }

  /** After a successful store answer, every returned team is cached with the returned permissions. */
  lemma TeamsWrittenBack(store: Store, env: Collaborators, cache: Cache, teams: seq<int>,
                         orgId: int, reload: bool, order: seq<int>, t: int)
    requires var miss := TeamMisses(teams, orgId, cache, reload);
      miss != [] && store.getTeamsPermissions(TeamsQuery(env, miss, orgId)).Ok?
    requires t in store.getTeamsPermissions(TeamsQuery(env, TeamMisses(teams, orgId, cache, reload), orgId)).value
    ensures var o := CachedTeams(store, env, cache, teams, orgId, reload, order);
      TeamKey(t, orgId) in o.cache
      && o.cache[TeamKey(t, orgId)] == store.getTeamsPermissions(TeamsQuery(env, TeamMisses(teams, orgId, cache, reload), orgId)).value[t]
  {
  }

  /** getCachedUserDirectPermissions */
  function CachedDirect(store: Store, features: Features, env: Collaborators, cache: Cache, user: Principal, reload: bool): Lookup
  {
    CacheOrCompute(cache, UserDirectKey(user.cacheKey), reload, DirectFresh(store, features, env, user))
  }

  /**
   * getCachedUserPermissions: basic-role, then team, then direct permissions,
   * each sub-query with its own cache entries; the first failure is the answer.
   */
  function CachedUserPermissions(roles: map<string, RoleDTO>, store: Store, features: Features, env: Collaborators,
                                 cache: Cache, user: Principal, reload: bool, order: seq<int>): Lookup
  {
    var b := CachedBasicRoles(roles, store, env, cache, user.orgRoles, user.orgId, reload);
    if b.result.Err? then b
    else
      var t := CachedTeams(store, env, b.cache, user.teams, user.orgId, reload, order);
      if t.result.Err? then Lookup(t.result, t.cache, b.calls + t.calls)
      else
        var d := CachedDirect(store, features, env, t.cache, user, reload);
        Lookup(if d.result.Err? then d.result else Ok(b.result.value + t.result.value + d.result.value),
               d.cache, b.calls + t.calls + d.calls)
  }

  lemma {:induction false} TeamMissesFrame(teams: seq<int>, orgId: int, c1: Cache, c2: Cache, reload: bool)
    requires forall k: CacheKey :: k.TeamKey? ==> SameEntry(c1, c2, k)
    ensures TeamMisses(teams, orgId, c1, reload) == TeamMisses(teams, orgId, c2, reload)
    ensures TeamHits(teams, orgId, c1, reload) == TeamHits(teams, orgId, c2, reload)
    decreases |teams|
  {
    if !reload && teams != [] {
      TeamMissesFrame(teams[..|teams| - 1], orgId, c1, c2, reload);
      assert SameEntry(c1, c2, TeamKey(teams[|teams| - 1], orgId));
    }
  }

  /**
   * Merge order, with each sub-query judged on the cache as the call found
   * it: the cached resolution fails exactly when one of its three
   * sub-queries fails, and otherwise is basic-role permissions followed by
   * team permissions followed by direct permissions. The sub-queries touch
   * disjoint kinds of keys, so none sees another's writes.
   */
  lemma CachedUserPermissionsMerge(roles: map<string, RoleDTO>, store: Store, features: Features, env: Collaborators,
                                   cache: Cache, user: Principal, reload: bool, order: seq<int>)
    ensures var all := CachedUserPermissions(roles, store, features, env, cache, user, reload, order);
      var b := CachedBasicRoles(roles, store, env, cache, user.orgRoles, user.orgId, reload);
      var t := CachedTeams(store, env, cache, user.teams, user.orgId, reload, order);
      var d := CachedDirect(store, features, env, cache, user, reload);
      && (all.result.Ok? <==> b.result.Ok? && t.result.Ok? && d.result.Ok?)
      && (all.result.Ok? ==> all.result.value == b.result.value + t.result.value + d.result.value)
  {
    var b := CachedBasicRoles(roles, store, env, cache, user.orgRoles, user.orgId, reload);
    TeamMissesFrame(user.teams, user.orgId, cache, b.cache, reload);
    var t0 := CachedTeams(store, env, cache, user.teams, user.orgId, reload, order);
    var t := CachedTeams(store, env, b.cache, user.teams, user.orgId, reload, order);
    assert t.result == t0.result;
    var dk := UserDirectKey(user.cacheKey);
    assert SameEntry(cache, b.cache, dk);
    assert SameEntry(b.cache, t.cache, dk);
    assert CachedDirect(store, features, env, t.cache, user, reload).result
        == CachedDirect(store, features, env, cache, user, reload).result;
  }

  /** A principal's direct entry is what recomputing it now would give, if present. */
  predicate DirectCoherent(store: Store, features: Features, env: Collaborators, cache: Cache, user: Principal)
  {
    UserDirectKey(user.cacheKey) in cache ==>
      DirectFresh(store, features, env, user).result == Ok(cache[UserDirectKey(user.cacheKey)])
  }

  /**
   * Cache transparency for basic-role and direct permissions: with coherent
   * entries, answering from the cache gives what a reload gives for those
   * two sub-queries, and the entries stay coherent either way.
   */
  lemma CachedDirectTransparent(store: Store, features: Features, env: Collaborators, cache: Cache, user: Principal)
    requires DirectCoherent(store, features, env, cache, user)
    ensures CachedDirect(store, features, env, cache, user, false).result == CachedDirect(store, features, env, cache, user, true).result
    ensures DirectCoherent(store, features, env, CachedDirect(store, features, env, cache, user, false).cache, user)
    ensures DirectCoherent(store, features, env, CachedDirect(store, features, env, cache, user, true).cache, user)
  {
  }

  /** Dropping a principal's entries makes its next direct lookup a miss that asks the store again. */
  lemma ClearedDirectRecomputes(store: Store, features: Features, env: Collaborators, cache: Cache, user: Principal)
    ensures var cleared := cache - {UserAggregateKey(user.cacheKey), UserDirectKey(user.cacheKey)};
      var d := CachedDirect(store, features, env, cleared, user, false);
      d.result == DirectFresh(store, features, env, user).result && d.calls == DirectFresh(store, features, env, user).calls
  {
  }

  // ---------------------------------------------------------------------
  // Agreement of the cached and the uncached resolution
  // ---------------------------------------------------------------------

  /** The managed permissions the store holds for each named basic role, in order; the first failure is the answer. */
  function ManagedBasic(store: Store, env: Collaborators, names: seq<string>, orgId: int): Result<seq<Permission>>
    decreases |names|
  {
    if names == [] then Ok([])
    else
      var prev := ManagedBasic(store, env, names[..|names| - 1], orgId);
      var db := store.getBasicRolesPermissions(BasicRoleQuery(env, names[|names| - 1], orgId));
      if prev.Err? then prev
      else if db.Err? then Err(db.error)
      else Ok(prev.value + db.value)
  }

  /** The store's batch answer for a list of teams, concatenated in `order`; no teams need no query. */
  function FetchedTeams(store: Store, env: Collaborators, teams: seq<int>, orgId: int, order: seq<int>): Result<seq<Permission>>
  {
    if teams == [] then Ok([])
    else
      match store.getTeamsPermissions(TeamsQuery(env, teams, orgId))
      case Err(e) => Err(e)
      case Ok(m) => Ok(ConcatInOrder(m, order))
  }

  /**
   * The store answers the uncached resolution's combined query for a
   * principal as it answers the cached resolution's separate queries: it
   * succeeds exactly when the per-role, the team and the direct queries all
   * do, and then with the same permissions, counted with multiplicity.
   */
  ghost predicate StoreCombines(store: Store, env: Collaborators, user: Principal, order: seq<int>)
  {
    DirectUserId(user).Ok? ==>
      var combined := store.getUserPermissions(UncachedQuery(env, user, DirectUserId(user).value));
      var managed := ManagedBasic(store, env, user.orgRoles, user.orgId);
      var teams := FetchedTeams(store, env, user.teams, user.orgId, order);
      var direct := store.getUserPermissions(DirectQuery(env, user, DirectUserId(user).value));
      && (combined.Ok? <==> managed.Ok? && teams.Ok? && direct.Ok?)
      && (combined.Ok? ==> multiset(combined.value) == multiset(managed.value + teams.value + direct.value))
  }

  /** On reload the basic-role walk is the in-memory permissions of the roles plus their managed ones. */
  lemma {:induction false} CachedBasicRolesReload(roles: map<string, RoleDTO>, store: Store, env: Collaborators,
                                                  cache: Cache, names: seq<string>, orgId: int)
    ensures var b := CachedBasicRoles(roles, store, env, cache, names, orgId, true);
      && (b.result.Ok? <==> ManagedBasic(store, env, names, orgId).Ok?)
      && (b.result.Ok? ==> multiset(b.result.value)
                           == multiset(BasicPermissions(roles, names)) + multiset(ManagedBasic(store, env, names, orgId).value))
    decreases |names|
  {
    if names != [] {
      CachedBasicRolesReload(roles, store, env, cache, names[..|names| - 1], orgId);
    }
  }

  /** On an empty cache every team misses and none hits. */
  lemma {:induction false} TeamsEmptyCache(teams: seq<int>, orgId: int)
    ensures TeamMisses(teams, orgId, map[], false) == teams
    ensures TeamHits(teams, orgId, map[], false) == []
    decreases |teams|
  {
    if teams != [] {
      TeamsEmptyCache(teams[..|teams| - 1], orgId);
      assert teams == teams[..|teams| - 1] + [teams[|teams| - 1]];
    }
  }

  /** On reload, or on an empty cache, the team lookup is the store's batch answer. */
  lemma CachedTeamsFetched(store: Store, env: Collaborators, cache: Cache, teams: seq<int>, orgId: int,
                           reload: bool, order: seq<int>)
    requires reload || cache == map[]
    ensures CachedTeams(store, env, cache, teams, orgId, reload, order).result == FetchedTeams(store, env, teams, orgId, order)
  {
    if !reload {
      TeamsEmptyCache(teams, orgId);
    }
    var fetched := store.getTeamsPermissions(TeamsQuery(env, teams, orgId));
    if teams != [] && fetched.Ok? {
      assert [] + ConcatInOrder(fetched.value, order) == ConcatInOrder(fetched.value, order);
    }
  }

  /**
   * The two resolution modes agree, on reload or on an empty cache: when
   * the identifier the uncached query uses is the one the direct query
   * uses, and the store answers the combined query as the sum of the
   * separate ones, both succeed or both fail, and their answers hold the
   * same permissions with the same multiplicity.
   */
  lemma CachedAgreesUncached(roles: map<string, RoleDTO>, store: Store, features: Features, env: Collaborators,
                             cache: Cache, user: Principal, reload: bool, order: seq<int>)
    requires reload || cache == map[]
    requires env.userIdentifier(user.namespace, user.identifier) == DirectUserId(user)
    requires StoreCombines(store, env, user, order)
    ensures var u := UncachedPermissions(roles, store, features, env, user);
      var c := CachedUserPermissions(roles, store, features, env, cache, user, reload, order);
      && (u.result.Ok? <==> c.result.Ok?)
      && (u.result.Ok? ==> multiset(u.result.value) == multiset(c.result.value))
  {
    CachedUserPermissionsMerge(roles, store, features, env, cache, user, reload, order);
    var b := CachedBasicRoles(roles, store, env, cache, user.orgRoles, user.orgId, reload);
    var bT := CachedBasicRoles(roles, store, env, cache, user.orgRoles, user.orgId, true);
    CachedBasicRolesReload(roles, store, env, cache, user.orgRoles, user.orgId);
    if !reload {
      CachedBasicRolesTransparent(roles, store, env, cache, user.orgRoles, user.orgId);
    }
    assert b.result == bT.result;
    CachedTeamsFetched(store, env, cache, user.teams, user.orgId, reload, order);
    var d := CachedDirect(store, features, env, cache, user, reload);
    assert d.result == DirectFresh(store, features, env, user).result;
  }

  // ---------------------------------------------------------------------
  // The write-back loop's invariant and its steps
  // ---------------------------------------------------------------------

  /**
   * Where the write-back loop stands: the teams not yet visited, the order
   * of those visited, the cache holding exactly their entries on top of
   * what it held, and the permissions gathered so far.
   */
  ghost predicate WriteBackState(before: Cache, cache: Cache, m: map<int, seq<Permission>>, orgId: int,
                                 hits: seq<Permission>, remaining: set<int>, order: seq<int>,
                                 permissions: seq<Permission>)
  {
    && remaining <= m.Keys
    && IsEnumeration(order, m.Keys - remaining)
    && permissions == hits + ConcatInOrder(m, order)
    && cache == before + TeamEntries(m - remaining, orgId)
  }

  lemma WriteBackInit(before: Cache, m: map<int, seq<Permission>>, orgId: int, hits: seq<Permission>)
    ensures WriteBackState(before, before, m, orgId, hits, m.Keys, [], hits)
  {
    assert m - m.Keys == map[];
    assert before + TeamEntries(map[], orgId) == before;
    assert hits + [] == hits;
  }

  lemma WriteBackStep(before: Cache, cache: Cache, m: map<int, seq<Permission>>, orgId: int,
                      hits: seq<Permission>, remaining: set<int>, order: seq<int>,
                      permissions: seq<Permission>, t: int)
    requires WriteBackState(before, cache, m, orgId, hits, remaining, order, permissions)
    requires t in remaining
    ensures WriteBackState(before, cache[TeamKey(t, orgId) := m[t]], m, orgId, hits, remaining - {t},
                           order + [t], permissions + m[t])
  {
    EnumerationStep(order, m.Keys, remaining, t);
    ConcatStep(m, hits, order, t);
    EntriesStep(before, m, remaining, t, orgId);
  }

  /** Visiting one more key keeps the visited keys an enumeration. */
  lemma EnumerationStep(order: seq<int>, keys: set<int>, remaining: set<int>, t: int)
    requires remaining <= keys && t in remaining
    requires IsEnumeration(order, keys - remaining)
    ensures remaining - {t} <= keys
    ensures IsEnumeration(order + [t], keys - (remaining - {t}))
  {
  }

  /** Visiting one more team appends its permissions. */
  lemma ConcatStep(m: map<int, seq<Permission>>, hits: seq<Permission>, order: seq<int>, t: int)
    requires t in m
    ensures (hits + ConcatInOrder(m, order)) + m[t] == hits + ConcatInOrder(m, order + [t])
  {
    assert (order + [t])[..|order|] == order;
  }

  lemma WriteBackDone(before: Cache, cache: Cache, m: map<int, seq<Permission>>, orgId: int,
                      hits: seq<Permission>, order: seq<int>, permissions: seq<Permission>)
    requires WriteBackState(before, cache, m, orgId, hits, {}, order, permissions)
    ensures cache == before + TeamEntries(m, orgId)
    ensures permissions == hits + ConcatInOrder(m, order)
    ensures IsEnumeration(order, m.Keys)
  {
    assert m - {} == m;
    assert m.Keys - {} == m.Keys;
  }

  /** One write-back of a team's permissions extends the written entries by that team. */
  lemma EntriesStep(before: Cache, m: map<int, seq<Permission>>, remaining: set<int>, t: int, orgId: int)
    requires t in remaining && remaining <= m.Keys
    ensures before + TeamEntries(m - (remaining - {t}), orgId)
         == (before + TeamEntries(m - remaining, orgId))[TeamKey(t, orgId) := m[t]]
  {
    var lhs := before + TeamEntries(m - (remaining - {t}), orgId);
    var rhs := (before + TeamEntries(m - remaining, orgId))[TeamKey(t, orgId) := m[t]];
    forall k | k in lhs
      ensures k in rhs && lhs[k] == rhs[k]
    {
      if k.TeamKey? && k.orgId == orgId && k.teamId in m && k.teamId !in remaining - {t} {
        assert k in TeamEntries(m - (remaining - {t}), orgId);
      }
    }
    forall k | k in rhs
      ensures k in lhs
    {
      if k != TeamKey(t, orgId) && k !in before {
        assert k in TeamEntries(m - remaining, orgId);
        assert k.teamId in m - (remaining - {t});
      }
    }
  }
}
