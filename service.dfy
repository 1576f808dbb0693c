/**
 * The access-control service as an object: its basic-role map, its
 * append-only registration list and its permission cache change in place;
 * the store, the feature toggles, the collaborators and the
 * RBACPermissionCache setting are fixed when it is built. Each method is
 * proved to agree with the specification functions of Resolution, Registry,
 * Search and UserSearch, whose properties are proved there.
 */
module ServiceImpl {
  import opened AccessControl
  import opened GoStrings
  import opened Search
  import opened Resolution
  import opened Registry
  import opened UserSearch

  class Service {
    var roles: map<string, RoleDTO>
    var registrations: seq<RoleRegistration>
    var cache: Cache
    const store: Store
    const features: Features
    const env: Collaborators
    const rbacPermissionCache: bool

    /** ProvideOSSService: the basic-role definitions, no registration yet, and the shared cache. */
    constructor (basicRoles: map<string, RoleDTO>, store: Store, features: Features, env: Collaborators,
                 rbacPermissionCache: bool, initialCache: Cache)
      ensures roles == basicRoles && registrations == [] && cache == initialCache
      ensures this.store == store && this.features == features && this.env == env
      ensures this.rbacPermissionCache == rbacPermissionCache
    {
      roles := basicRoles;
      registrations := [];
      cache := initialCache;
      this.store := store;
      this.features := features;
      this.env := env;
      this.rbacPermissionCache := rbacPermissionCache;
    }

    // -------------------------------------------------------------------
    // Permission resolution
    // -------------------------------------------------------------------

    /** GetUserPermissions: the cached resolution only with the cache setting on and a principal with a unique id. */
    method GetUserPermissions(user: Principal, options: Options)
      returns (r: Result<seq<Permission>>, calls: seq<StoreCall>, ghost order: seq<int>)
      modifies this`cache
      ensures !rbacPermissionCache || !user.hasUniqueId ==>
                Resolved(r, calls) == UncachedPermissions(roles, store, features, env, user) && cache == old(cache)
      ensures rbacPermissionCache && user.hasUniqueId ==>
                && Lookup(r, cache, calls) == CachedUserPermissions(roles, store, features, env, old(cache), user, options.reloadCache, order)
                && (r.Ok? ==> TeamOrder(store, env, old(cache), user.teams, user.orgId, options.reloadCache, order))
    {
      if !rbacPermissionCache || !user.hasUniqueId {
        order := [];
        r, calls := UserPermissions(user);
        return;
      }
      r, calls, order := GetCachedUserPermissions(user, options);
    }

    /** getUserPermissions */
    method UserPermissions(user: Principal) returns (r: Result<seq<Permission>>, calls: seq<StoreCall>)
      ensures Resolved(r, calls) == UncachedPermissions(roles, store, features, env, user)
    {
      var permissions: seq<Permission> := [];
      var held := user.orgRoles;
      for i := 0 to |held|
        invariant permissions == BasicPermissions(roles, held[..i])
      {
        assert held[..i + 1][..i] == held[..i];
        if held[i] in roles {
          permissions := permissions + roles[held[i]].permissions;
        }
      }
      assert held[..|held|] == held;
      if features.nestedFolders {
        permissions := permissions + [SharedWithMeFolderPermission];
      } else {
        assert permissions + [] == permissions;
      }
      var userId := env.userIdentifier(user.namespace, user.identifier);
      if userId.Err? {
        return Err(userId.error), [];
      }
      var q := UserPermissionsQuery(user.orgId, userId.value, user.orgRoles, user.teams, env.OSSRolesPrefixes());
      calls := [GetUserPermissionsCall(q)];
      var db := store.getUserPermissions(q);
      if db.Err? {
        return Err(db.error), calls;
      }
      r := Ok(permissions + db.value);
    }

    /** getBasicRolePermissions */
    method GetBasicRolePermissions(role: string, orgId: int) returns (r: Result<seq<Permission>>, calls: seq<StoreCall>)
      ensures Resolved(r, calls) == BasicRoleFresh(roles, store, env, role, orgId)
    {
      var permissions: seq<Permission> := [];
      if role in roles {
        assert [] + roles[role].permissions == roles[role].permissions;
        permissions := permissions + roles[role].permissions;
      }
      var q := UserPermissionsQuery(orgId, 0, [role], [], env.OSSRolesPrefixes());
      calls := [GetBasicRolesPermissionsCall(q)];
      var db := store.getBasicRolesPermissions(q);
      if db.Err? {
        return Err(db.error), calls;
      }
      r := Ok(permissions + db.value);
    }

    /** getUserDirectPermissions */
    method GetUserDirectPermissions(user: Principal) returns (r: Result<seq<Permission>>, calls: seq<StoreCall>)
      ensures Resolved(r, calls) == DirectFresh(store, features, env, user)
    {
      var userId := 0;
      if user.namespace == NamespaceUser || user.namespace == NamespaceServiceAccount {
        var parsed := ParseInt64(user.identifier);
        if parsed.None? {
          return Err(InvalidIdentifier(user.identifier)), [];
        }
        userId := parsed.value;
      }
      var q := UserPermissionsQuery(user.orgId, userId, [], [], env.OSSRolesPrefixes());
      calls := [GetUserPermissionsCall(q)];
      var db := store.getUserPermissions(q);
      if db.Err? {
        return Err(db.error), calls;
      }
      var permissions := db.value;
      if features.nestedFolders {
        permissions := permissions + [SharedWithMeFolderPermission];
      } else {
        assert permissions + [] == permissions;
      }
      r := Ok(permissions);
    }

    /** getCachedPermissions, with the producer closure given as data. */
    method GetCachedPermissions(key: CacheKey, producer: Producer, options: Options)
      returns (r: Result<seq<Permission>>, calls: seq<StoreCall>)
      modifies this`cache
      ensures Lookup(r, cache, calls)
           == CacheOrCompute(old(cache), key, options.reloadCache, Produce(roles, store, features, env, producer))
    {
      if !options.reloadCache && key in cache {
        return Ok(cache[key]), [];
      }
      match producer {
        case BasicRoleProducer(role, orgId) =>
          r, calls := GetBasicRolePermissions(role, orgId);
        case UserDirectProducer(user) =>
          r, calls := GetUserDirectPermissions(user);
      }
      if r.Ok? {
        cache := cache[key := r.value];
      }
    }

    /** getCachedBasicRolePermissions */
    method GetCachedBasicRolePermissions(role: string, orgId: int, options: Options)
      returns (r: Result<seq<Permission>>, calls: seq<StoreCall>)
      modifies this`cache
      ensures Lookup(r, cache, calls)
           == CacheOrCompute(old(cache), BasicRoleKey(role, orgId), options.reloadCache, BasicRoleFresh(roles, store, env, role, orgId))
    {
      r, calls := GetCachedPermissions(BasicRoleKey(role, orgId), BasicRoleProducer(role, orgId), options);
    }

    /** getCachedBasicRolesPermissions */
    method GetCachedBasicRolesPermissions(user: Principal, options: Options)
      returns (r: Result<seq<Permission>>, calls: seq<StoreCall>)
      modifies this`cache
      ensures Lookup(r, cache, calls) == CachedBasicRoles(roles, store, env, old(cache), user.orgRoles, user.orgId, options.reloadCache)
    {
      var held := user.orgRoles;
      var permissions: seq<Permission> := [];
      calls := [];
      for i := 0 to |held|
        invariant Lookup(Ok(permissions), cache, calls)
               == CachedBasicRoles(roles, store, env, old(cache), held[..i], user.orgId, options.reloadCache)
      {
        assert held[..i + 1][..i] == held[..i];
        var step, stepCalls := GetCachedBasicRolePermissions(held[i], user.orgId, options);
        if step.Err? {
          CachedBasicRolesErrorSticks(roles, store, env, old(cache), held, user.orgId, options.reloadCache, i + 1);
          return step, calls + stepCalls;
        }
        permissions := permissions + step.value;
        calls := calls + stepCalls;
      }
      assert held[..|held|] == held;
      r := Ok(permissions);
    }

    /** getCachedUserDirectPermissions */
    method GetCachedUserDirectPermissions(user: Principal, options: Options)
      returns (r: Result<seq<Permission>>, calls: seq<StoreCall>)
      modifies this`cache
      ensures Lookup(r, cache, calls) == CachedDirect(store, features, env, old(cache), user, options.reloadCache)
    {
      r, calls := GetCachedPermissions(UserDirectKey(user.cacheKey), UserDirectProducer(user), options);
    }

    /** The first loop of getCachedTeamsPermissions: cached teams answer, the others are collected, in order. */
    method CollectTeamHits(teams: seq<int>, orgId: int) returns (miss: seq<int>, permissions: seq<Permission>)
      ensures miss == TeamMisses(teams, orgId, cache, false)
      ensures permissions == TeamHits(teams, orgId, cache, false)
    {
      miss := [];
      permissions := [];
      for i := 0 to |teams|
        invariant miss == TeamMisses(teams[..i], orgId, cache, false)
        invariant permissions == TeamHits(teams[..i], orgId, cache, false)
      {
        assert teams[..i + 1][..i] == teams[..i];
        var key := TeamKey(teams[i], orgId);
        if key in cache {
          permissions := permissions + cache[key];
        } else {
          miss := miss + [teams[i]];
        }
      }
      assert teams[..|teams|] == teams;
    }

    /**
     * The write-back loop of getCachedTeamsPermissions: each team of the
     * store's answer, visited in some order, is cached and its permissions
     * appended.
     */
    method WriteBackTeams(m: map<int, seq<Permission>>, orgId: int, hits: seq<Permission>)
      returns (permissions: seq<Permission>, ghost order: seq<int>)
      modifies this`cache
      ensures cache == old(cache) + TeamEntries(m, orgId)
      ensures permissions == hits + ConcatInOrder(m, order)
      ensures IsEnumeration(order, m.Keys)
    {
      permissions := hits;
      order := [];
      var remaining := m.Keys;
      WriteBackInit(old(cache), m, orgId, hits);
      while remaining != {}
        invariant WriteBackState(old(cache), cache, m, orgId, hits, remaining, order, permissions)
        decreases |remaining|
      {
        ghost var w := HasElement(remaining);
        var t :| t in remaining;
        WriteBackStep(old(cache), cache, m, orgId, hits, remaining, order, permissions, t);
        cache := cache[TeamKey(t, orgId) := m[t]];
        permissions := permissions + m[t];
        order := order + [t];
        remaining := remaining - {t};
      }
      WriteBackDone(old(cache), cache, m, orgId, hits, order, permissions);
    }

    /**
     * getCachedTeamsPermissions (with getTeamsPermissions folded in). The
     * returned `order` is the order in which the store's answer was visited.
     */
    method GetCachedTeamsPermissions(user: Principal, options: Options)
      returns (r: Result<seq<Permission>>, calls: seq<StoreCall>, ghost order: seq<int>)
      modifies this`cache
      ensures Lookup(r, cache, calls) == CachedTeams(store, env, old(cache), user.teams, user.orgId, options.reloadCache, order)
      ensures TeamOrder(store, env, old(cache), user.teams, user.orgId, options.reloadCache, order)
    {
      var teams, orgId := user.teams, user.orgId;
      var permissions: seq<Permission> := [];
      var miss := teams;
      order := [];
      calls := [];
      if !options.reloadCache {
        miss, permissions := CollectTeamHits(teams, orgId);
      }
      if |miss| > 0 {
        var q := UserPermissionsQuery(orgId, 0, [], miss, env.OSSRolesPrefixes());
        calls := [GetTeamsPermissionsCall(q)];
        var fetched := store.getTeamsPermissions(q);
        if fetched.Err? {
          r := Err(fetched.error);
          return;
        }
        permissions, order := WriteBackTeams(fetched.value, orgId, permissions);
      }
      r := Ok(permissions);
    }

    /** getCachedUserPermissions */
    method GetCachedUserPermissions(user: Principal, options: Options)
      returns (r: Result<seq<Permission>>, calls: seq<StoreCall>, ghost order: seq<int>)
      modifies this`cache
      ensures Lookup(r, cache, calls) == CachedUserPermissions(roles, store, features, env, old(cache), user, options.reloadCache, order)
      ensures r.Ok? ==> TeamOrder(store, env, old(cache), user.teams, user.orgId, options.reloadCache, order)
    {
      order := [];
      var basic, basicCalls := GetCachedBasicRolesPermissions(user, options);
      if basic.Err? {
        return basic, basicCalls, order;
      }
      ghost var afterBasic := cache;
      var teams, teamCalls;
      teams, teamCalls, order := GetCachedTeamsPermissions(user, options);
      TeamMissesFrame(user.teams, user.orgId, old(cache), afterBasic, options.reloadCache);
      if teams.Err? {
        return teams, basicCalls + teamCalls, order;
      }
      var direct, directCalls := GetCachedUserDirectPermissions(user, options);
      calls := basicCalls + teamCalls + directCalls;
      if direct.Err? {
        return direct, calls, order;
      }
      r := Ok(basic.value + teams.value + direct.value);
    }

    /** ClearUserPermissionCache: drops the principal's aggregate and direct entries. */
    method ClearUserPermissionCache(user: Principal)
      modifies this`cache
      ensures cache == old(cache) - {UserAggregateKey(user.cacheKey), UserDirectKey(user.cacheKey)}
    {
      cache := cache - {UserAggregateKey(user.cacheKey)};
      cache := cache - {UserDirectKey(user.cacheKey)};
    }

    // -------------------------------------------------------------------
    // The role registry
    // -------------------------------------------------------------------

    /**
     * The loop shared by the two declaring operations: each registration is
     * validated (role first, then grants) and appended; the first rejection
     * ends the loop, keeping the registrations accepted before it.
     */
    method DeclareValidated(v: Validator, regs: seq<RoleRegistration>) returns (err: Option<Error>)
      modifies this`registrations
      ensures var k := FirstRejected(env, v, regs);
        && registrations == old(registrations) + regs[..k]
        && err == (if k < |regs| then Check(env, v, regs[k]) else None)
    {
      for i := 0 to |regs|
        invariant registrations == old(registrations) + regs[..i]
        invariant forall j :: 0 <= j < i ==> Check(env, v, regs[j]).None?
      {
        var roleCheck := match v
          case FixedRoleValidator => env.validateFixedRole(regs[i].role)
          case PluginRoleValidator(id) => env.validatePluginRole(id, regs[i].role);
        if roleCheck.Some? {
          return roleCheck;
        }
        var grantsCheck := env.validateBuiltInRoles(regs[i].grants);
        if grantsCheck.Some? {
          return grantsCheck;
        }
        assert regs[..i + 1] == regs[..i] + [regs[i]];
        registrations := registrations + [regs[i]];
      }
      assert regs[..|regs|] == regs;
      err := None;
    }

    /** DeclareFixedRoles */
    method DeclareFixedRoles(regs: seq<RoleRegistration>) returns (err: Option<Error>)
      modifies this`registrations
      ensures var k := FirstRejected(env, FixedRoleValidator, regs);
        && registrations == old(registrations) + regs[..k]
        && err == (if k < |regs| then Check(env, FixedRoleValidator, regs[k]) else None)
    {
      err := DeclareValidated(FixedRoleValidator, regs);
    }

    /** DeclarePluginRoles: nothing at all while the on-call access-control toggle is off. */
    method DeclarePluginRoles(pluginId: string, pluginName: string, regs: seq<PluginRoleRegistration>)
      returns (err: Option<Error>)
      modifies this`registrations
      ensures !features.accessControlOnCall ==> err == None && registrations == old(registrations)
      ensures features.accessControlOnCall ==>
                var acRegs := env.toRegistrations(pluginId, pluginName, regs);
                var k := FirstRejected(env, PluginRoleValidator(pluginId), acRegs);
                && registrations == old(registrations) + acRegs[..k]
                && err == (if k < |acRegs| then Check(env, PluginRoleValidator(pluginId), acRegs[k]) else None)
    {
      if !features.accessControlOnCall {
        return None;
      }
      var acRegs := env.toRegistrations(pluginId, pluginName, regs);
      err := DeclareValidated(PluginRoleValidator(pluginId), acRegs);
    }

    /**
     * RegisterFixedRoles: every registration's permissions are appended to
     * each known basic role its grants reach; unknown names are skipped.
     */
    method RegisterFixedRoles()
      modifies this`roles
      ensures roles == RegisterAll(old(roles), registrations, env.builtInRolesWithParents)
    {
      var regs := registrations;
      var withParents := env.builtInRolesWithParents;
      RegisterAllEmpty(roles, withParents);
      for i := 0 to |regs|
        invariant roles == RegisterAll(old(roles), regs[..i], withParents)
      {
        var reg := regs[i];
        var granted := withParents(reg.grants);
        var pending := granted;
        ghost var before := roles;
        while pending != {}
          invariant pending <= granted
          invariant roles.Keys == before.Keys
          invariant forall b :: b in roles ==>
            roles[b] == before[b].(permissions := before[b].permissions
                                   + (if b in granted && b !in pending then reg.role.permissions else []))
          decreases |pending|
        {
          ghost var w := HasElement(pending);
          var br :| br in pending;
          if br in roles {
            roles := roles[br := roles[br].(permissions := roles[br].permissions + reg.role.permissions)];
          }
          pending := pending - {br};
        }
        RegisterStep(old(roles), regs, i, withParents, before, roles);
      }
      assert regs[..|regs|] == regs;
    }

    /** GetRoleByName */
    method GetRoleByName(orgId: int, roleName: string) returns (r: Result<RoleDTO>)
      ensures r == RoleByName(roles, registrations, roleName)
    {
      if roleName in roles {
        return Err(RoleNotFound);
      }
      var regs := registrations;
      for i := 0 to |regs|
        invariant forall j :: 0 <= j < i ==> regs[j].role.name != roleName
      {
        if regs[i].role.name == roleName {
          var role := regs[i].role;
          return Ok(RoleDTO(role.name, "", role.displayName, role.description, role.permissions));
        }
      }
      r := Err(RoleNotFound);
    }

    // -------------------------------------------------------------------
    // Search
    // -------------------------------------------------------------------

    /** SearchUsersPermissions */
    method SearchUsersPermissions(usr: Principal, options: SearchOptions)
      returns (r: Result<map<int, seq<Permission>>>, calls: seq<StoreCall>)
      modifies this`cache
      ensures BulkLookup(r, cache, calls) == SearchUsers(roles, store, env, old(cache), usr, options)
    {
      var o := options.(rolePrefixes := env.OSSRolesPrefixes());
      if o.namespacedId != "" {
        var userId := env.computeUserId(o);
        if userId.Err? {
          return Err(userId.error), [];
        }
        var perms;
        perms, calls := SearchUserPermissions(usr.orgId, o);
        if perms.Err? {
          return Err(perms.error), calls;
        }
        return Ok(map[userId.value := perms.value]), calls;
      }
      r, calls := SearchAllUsersPermissions(usr, o);
    }

    /** The first loop of the bulk path: each basic role's matching in-memory permissions, for the roles that have some. */
    method MatchingBasicPermissions(o: SearchOptions) returns (basicPermissions: map<string, seq<Permission>>)
      ensures forall role :: role in basicPermissions <==>
        role in roles && FilterPermissions(roles[role].permissions, o, env.wildcards) != []
      ensures forall role :: role in basicPermissions ==>
        basicPermissions[role] == FilterPermissions(roles[role].permissions, o, env.wildcards)
    {
      basicPermissions := map[];
      var pending := roles.Keys;
      while pending != {}
        invariant pending <= roles.Keys
        invariant forall role :: role in basicPermissions <==>
          role in roles && role !in pending && FilterPermissions(roles[role].permissions, o, env.wildcards) != []
        invariant forall role :: role in basicPermissions ==>
          basicPermissions[role] == FilterPermissions(roles[role].permissions, o, env.wildcards)
        decreases |pending|
      {
        ghost var w := HasElement(pending);
        var role :| role in pending;
        var matching := FilterMatching(roles[role].permissions, o, env.wildcards);
        if matching != [] {
          basicPermissions := basicPermissions[role := matching];
        }
        pending := pending - {role};
      }
    }

    /** The basic-role share of one user in the bulk merge, read from the pre-filtered map. */
    method MergeBasicPermissions(basicPermissions: map<string, seq<Permission>>, held: seq<string>, o: SearchOptions)
      returns (perms: seq<Permission>)
      requires forall role :: role in basicPermissions <==>
        role in roles && FilterPermissions(roles[role].permissions, o, env.wildcards) != []
      requires forall role :: role in basicPermissions ==>
        basicPermissions[role] == FilterPermissions(roles[role].permissions, o, env.wildcards)
      ensures perms == RolesSearchPermissions(roles, held, o, env.wildcards)
    {
      perms := [];
      for i := 0 to |held|
        invariant perms == RolesSearchPermissions(roles, held[..i], o, env.wildcards)
      {
        assert held[..i + 1][..i] == held[..i];
        if held[i] in basicPermissions {
          perms := perms + basicPermissions[held[i]];
        } else {
          assert perms + [] == perms;
        }
      }
      assert held[..|held|] == held;
    }

    /** The bulk path of SearchUsersPermissions. */
    method SearchAllUsersPermissions(usr: Principal, o: SearchOptions)
      returns (r: Result<map<int, seq<Permission>>>, calls: seq<StoreCall>)
      ensures BulkResolved(r, calls) == BulkSearch(roles, store, env, usr, o)
    {
      var basicPermissions := MatchingBasicPermissions(o);
      calls := [GetUsersBasicRolesCall(None, usr.orgId)];
      var usersRoles := store.getUsersBasicRoles(None, usr.orgId);
      if usersRoles.Err? {
        return Err(usersRoles.error), calls;
      }
      calls := calls + [SearchUsersPermissionsCall(usr.orgId, o)];
      var usersPermissions := store.searchUsersPermissions(usr.orgId, o);
      if usersPermissions.Err? {
        return Err(usersPermissions.error), calls;
      }
      var canView := CanView(usr.permissions);
      var merged := MergeUsers(basicPermissions, usersRoles.value, usersPermissions.value, usr.permissions, canView, o);
      r := Ok(merged);
    }

    /**
     * The merge loop of the bulk path: for every user the requester may see,
     * its basic-role share then its stored permissions, kept when non-empty.
     */
    method MergeUsers(basicPermissions: map<string, seq<Permission>>, usersRoles: map<int, seq<string>>,
                      usersPermissions: map<int, seq<Permission>>, siu: map<string, seq<string>>,
                      canView: Visibility, o: SearchOptions)
      returns (res: map<int, seq<Permission>>)
      requires forall role :: role in basicPermissions <==>
        role in roles && FilterPermissions(roles[role].permissions, o, env.wildcards) != []
      requires forall role :: role in basicPermissions ==>
        basicPermissions[role] == FilterPermissions(roles[role].permissions, o, env.wildcards)
      requires forall u :: canView.Allows(u) <==> CanViewSpec(siu, u)
      ensures res == BulkSearchResult(roles, usersRoles, usersPermissions, siu, o, env.wildcards)
    {
      res := map[];
      var users := usersRoles.Keys;
      while users != {}
        invariant MergeState(roles, usersRoles, usersPermissions, siu, o, env.wildcards, users, res)
        decreases |users|
      {
        ghost var w := HasElement(users);
        var userId :| userId in users;
        if canView.Allows(userId) {
          var perms := MergeBasicPermissions(basicPermissions, usersRoles[userId], o);
          if userId in usersPermissions {
            perms := perms + usersPermissions[userId];
          } else {
            assert perms + [] == perms;
          }
          if |perms| > 0 {
            res := res[userId := perms];
          }
        }
        users := users - {userId};
      }
      MergeDone(roles, usersRoles, usersPermissions, siu, o, env.wildcards, res);
    }

    /** SearchUserPermissions */
    method SearchUserPermissions(orgId: int, o: SearchOptions) returns (r: Result<seq<Permission>>, calls: seq<StoreCall>)
      modifies this`cache
      ensures Lookup(r, cache, calls) == SearchUser(roles, store, env, old(cache), orgId, o)
    {
      if o.namespacedId == "" {
        return Err(MissingNamespacedId), [];
      }
      var permissions, success := SearchUserPermissionsFromCache(orgId, o);
      if success {
        return Ok(permissions), [];
      }
      r, calls := RecomputeUserSearch(orgId, o);
    }

    /** searchUserPermissionsFromCache */
    method SearchUserPermissionsFromCache(orgId: int, o: SearchOptions) returns (permissions: seq<Permission>, success: bool)
      ensures success <==> SearchFromCache(env, cache, orgId, o).Some?
      ensures success ==> permissions == SearchFromCache(env, cache, orgId, o).value
    {
      var userId := env.computeUserId(o);
      if userId.Err? {
        return [], false;
      }
      var key := AggregateKey(env, userId.value, orgId);
      if key !in cache {
        return [], false;
      }
      permissions := FilterMatching(cache[key], o, env.wildcards);
      success := true;
    }

    /** searchUserPermissions: the answer is also written, filtered, under the aggregate key. */
    method RecomputeUserSearch(orgId: int, o: SearchOptions) returns (r: Result<seq<Permission>>, calls: seq<StoreCall>)
      modifies this`cache
      ensures Lookup(r, cache, calls) == SearchRecompute(roles, store, env, old(cache), orgId, o)
    {
      var userId := env.computeUserId(o);
      if userId.Err? {
        return Err(userId.error), [];
      }
      var uid := userId.value;
      calls := [GetUsersBasicRolesCall(Some([uid]), orgId)];
      var roleList := store.getUsersBasicRoles(Some([uid]), orgId);
      if roleList.Err? {
        return Err(BasicRolesFetchFailed(roleList.error)), calls;
      }
      if uid !in roleList.value {
        return Err(NoBasicRoles(uid, orgId)), calls;
      }
      var held := roleList.value[uid];
      var permissions: seq<Permission> := [];
      for i := 0 to |held|
        invariant permissions == RolesSearchPermissions(roles, held[..i], o, env.wildcards)
        invariant cache == old(cache)
      {
        assert held[..i + 1][..i] == held[..i];
        if held[i] in roles {
          var matching := FilterMatching(roles[held[i]].permissions, o, env.wildcards);
          permissions := permissions + matching;
        }
      }
      assert held[..|held|] == held;
      calls := calls + [SearchUsersPermissionsCall(orgId, o)];
      var db := store.searchUsersPermissions(orgId, o);
      if db.Err? {
        return Err(db.error), calls;
      }
      if uid in db.value {
        permissions := permissions + db.value[uid];
      } else {
        assert permissions + [] == permissions;
      }
      cache := cache[AggregateKey(env, uid, orgId) := permissions];
      r := Ok(permissions);
    }
  }
}
