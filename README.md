# Grafana access-control service (OSS) — a Dafny model

This project models the open-source role-based access-control service of
Grafana, `Service` in `pkg/services/accesscontrol/acimpl/service.go`, and
proves properties of that model. The service answers four kinds of question:

- **Permission resolution.** What may a signed-in principal do? The answer
  gathers the permissions of the principal's basic roles (Viewer, Editor,
  Admin, Grafana Admin), the folder shared-with-me permission when nested
  folders are on, its teams' permissions and its own stored grants. It
  reads them either straight from the store, or through a cache with one
  entry per basic role, per team and per user.
- **Role registry.** Fixed roles and plugin roles are declared, each one
  validated. Registering them appends each role's permissions to every
  basic role it grants, or inherits through a parent. A declared role can
  be looked up by name.
- **Permission search.** The permissions of all users, or of one named user,
  that match an action, an action prefix and a scope. The bulk search is
  restricted to the users the requester may see.
- **Cache clearing.** Removing a user's cached entries.

## How the model is built

- `types.dfy` (module `AccessControl`) holds the entities as datatypes:
  permissions, roles, registrations, principals, options, search options,
  cache keys and errors.
  - The store is a datatype of functions. Each one answers a query with
    permissions or an error, so store failures are modelled on every path.
  - Every method that queries the store returns the round trips it made
    as `calls`, in order. Its contract says which queries are asked, and
    when.
  - Helpers defined outside `service.go` are given, not computed. The
    validators, `ToRegistrations`, `BuiltInRolesWithParents`, the identity
    helpers, the scope wildcards and the cache key of a bare signed-in user
    are fields of `Collaborators`. What `GetOrgRoles` returns for a principal
    is its field `orgRoles`.
  - The cache-key builders are the constructors of `CacheKey`: `BasicRoleKey`
    and `TeamKey` over a role or team and the org, and `UserDirectKey` and
    `UserAggregateKey` over the principal's `cacheKey`.
  - Cache keys are a datatype whose constructors cannot collide. The real
    keys are strings, and their formats are not part of this model.
- `strings.dfy` (module `GoStrings`) holds the Go helpers the decisions
  depend on: `strings.HasPrefix`, `strings.HasSuffix`, `slices.Contains`,
  `strings.Split` and `strconv.ParseInt` in base 10 with 64 bits. The
  service never calls `strings.Join` or `strconv.FormatInt`. They are
  defined here only as the inverses that the round-trip lemmas about
  `Split` and `ParseInt` are stated with.
- `search.dfy` (module `Search`) covers `PermissionMatchesSearchOptions`,
  the filters, the `canView` helper of the bulk search and the bulk merge
  as specification functions.
- `resolution.dfy` (module `Resolution`) states each resolution as a
  function of the role map, the store, the flags, the collaborators and the
  cache. It returns the answer, the cache afterwards and the store calls.
- `registry.dfy` (module `Registry`) covers validation order, registration
  replay and lookup by name.
- `usersearch.dfy` (module `UserSearch`) covers the single-user search and
  its cache, the bulk search, the entry point that chooses between them,
  and the defect recorded under Findings.
- `service.dfy` (module `ServiceImpl`) is the service as a `class Service`.
  - The basic-role map, the registration list and the cache are fields that
    its methods update in place.
  - The loops of the source are `for` and `while` loops with invariants.
  - Go's unordered `range` over a map becomes a pick from the set of keys
    not yet visited. A ghost out-parameter records the order that was taken.
  - Each method's ensures ties its answer and the new state to the
    specification functions above, whose properties the lemmas prove.

Nothing in the model runs: clocks, tracing, metrics and logging are outside
it. The store, the feature flags and the `RBACPermissionCache` setting are
fixed when a `Service` is built.

## Model

| member | source | states |
|---|---|---|
| ServiceImpl.Service.constructor | pkg/services/accesscontrol/acimpl/service.go:68-80 | the service starts with the given basic-role definitions, no registrations and the given cache |
| ServiceImpl.Service.GetUserPermissions | pkg/services/accesscontrol/acimpl/service.go:101-112 | without the cache setting, or for a principal with no unique id, the answer is the uncached resolution and the cache is untouched; otherwise it is the cached resolution, and the team write-back order is an enumeration of the fetched teams |
| Resolution.UncachedPermissions | pkg/services/accesscontrol/acimpl/service.go:114-143 | getUserPermissions: the held basic roles' in-memory permissions, the shared-with-me permission when nested folders are on, then one store query with the resolved user id, the principal's roles and teams and the OSS prefixes; an identifier or store failure is the answer |
| ServiceImpl.Service.UserPermissions | pkg/services/accesscontrol/acimpl/service.go:114-143 | the loop over the principal's basic roles, then the shared-with-me permission, then one store query, equals `UncachedPermissions` |
| Resolution.UncachedPermissionsContents | pkg/services/accesscontrol/acimpl/service.go:114-143 | uncached resolution asks the store at most once. It fails exactly when the identifier or the store fails. On success it holds every permission of every held basic role, the shared-with-me permission when the flag is on, and every stored permission |
| Resolution.BasicPermissionsMember | pkg/services/accesscontrol/acimpl/service.go:116-120 | a permission is collected from the basic roles exactly when some held role that the map knows carries it |
| Resolution.BasicRoleFresh | pkg/services/accesscontrol/acimpl/service.go:145-162 | getBasicRolePermissions: the role's in-memory permissions, if the map has it, followed by the managed ones from one store query for that role with user id 0 |
| ServiceImpl.Service.GetBasicRolePermissions | pkg/services/accesscontrol/acimpl/service.go:145-162 | the role's in-memory permissions followed by its managed ones, from one store query with the OSS role prefixes; a store failure is an error |
| Resolution.DirectFresh | pkg/services/accesscontrol/acimpl/service.go:177-207 | getUserDirectPermissions: no store call when the identifier does not parse; otherwise one store query with no roles or teams, and the answer is the stored grants followed by the shared-with-me permission when enabled |
| ServiceImpl.Service.GetUserDirectPermissions | pkg/services/accesscontrol/acimpl/service.go:177-207 | for users and service accounts, an identifier that does not parse fails before the store is asked; other namespaces query with id 0; the stored grants come first, then the shared-with-me permission when enabled |
| Resolution.DirectFreshFormattedId | pkg/services/accesscontrol/acimpl/service.go:182-194 | a user or service account whose identifier is the base-10 form of a 64-bit integer is looked up in the store under that integer |
| GoStrings.ParseInt64 | pkg/services/accesscontrol/acimpl/service.go:186 | an accepted value lies in the 64-bit range |
| GoStrings.ParseDecimalMeaning | pkg/services/accesscontrol/acimpl/service.go:186 | the digit parser accepts exactly the non-empty strings of decimal digits, with their decimal value |
| GoStrings.ParseFormatInt | pkg/services/accesscontrol/acimpl/service.go:186 | every 64-bit integer, formatted in base 10, parses back to itself |
| GoStrings.DecimalValue | pkg/services/accesscontrol/acimpl/service.go:186 | the digits produced for a natural number have that number as their value |
| GoStrings.ParseDecimalOfDecimal | pkg/services/accesscontrol/acimpl/service.go:186 | the digits of a natural number parse back to it |
| GoStrings.Decimal | pkg/services/accesscontrol/acimpl/service.go:186 | the digits of a number are non-empty and all decimal |
| Resolution.CachedUserPermissions | pkg/services/accesscontrol/acimpl/service.go:209-230 | getCachedUserPermissions: the basic-role walk, then the team lookup on the cache it left, then the direct lookup on the cache that left; the first failure is the answer, with the cache as it stood then |
| ServiceImpl.Service.GetCachedUserPermissions | pkg/services/accesscontrol/acimpl/service.go:209-230 | answer, cache and store calls equal `CachedUserPermissions` of the old cache; on success the team order enumerates the fetched teams |
| Resolution.CachedUserPermissionsMerge | pkg/services/accesscontrol/acimpl/service.go:209-230 | the cached resolution succeeds exactly when all three parts succeed, and then it is basic-role, then team, then direct permissions in that order |
| Resolution.CachedAgreesUncached | pkg/services/accesscontrol/acimpl/service.go:101-230 | on reload or on an empty cache, the cached and the uncached resolution both succeed or both fail, and hold the same permissions with the same multiplicity; this needs the identifier of the uncached query to equal the direct query's id, and the store to answer the combined query as the per-role, team and direct queries together |
| ServiceImpl.Service.GetCachedBasicRolesPermissions | pkg/services/accesscontrol/acimpl/service.go:232-246 | the loop over the held basic roles equals `CachedBasicRoles` of the old cache |
| Resolution.CachedBasicRoles | pkg/services/accesscontrol/acimpl/service.go:232-246 | walking the basic roles leaves every non-basic-role cache entry as it was |
| Resolution.CachedBasicRolesErrorSticks | pkg/services/accesscontrol/acimpl/service.go:238-241 | once a basic role's lookup fails, the later roles change nothing: the answer, cache and calls are those of the failing prefix |
| Resolution.CachedBasicRolesTransparent | pkg/services/accesscontrol/acimpl/service.go:232-254 | when every cached basic-role entry equals a fresh computation, the cached and reloading walks answer alike, and both keep the cache coherent |
| ServiceImpl.Service.GetCachedBasicRolePermissions | pkg/services/accesscontrol/acimpl/service.go:248-254 | cache-or-compute under the basic-role key with the basic role's fresh computation as producer |
| Resolution.CachedDirect | pkg/services/accesscontrol/acimpl/service.go:256-265 | getCachedUserDirectPermissions: cache-or-compute under the principal's direct key, with the direct resolution as the producer |
| ServiceImpl.Service.GetCachedUserDirectPermissions | pkg/services/accesscontrol/acimpl/service.go:256-266 | cache-or-compute under the user's direct key with the direct computation as producer |
| Resolution.CachedDirectTransparent | pkg/services/accesscontrol/acimpl/service.go:256-266 | when the cached direct entry equals a fresh computation, the cached and reloading lookups answer alike and keep it coherent |
| ServiceImpl.Service.GetCachedPermissions | pkg/services/accesscontrol/acimpl/service.go:270-291 | answer, new cache and store calls equal `CacheOrCompute` of the old cache for the key, the reload flag and the producer's computation |
| Resolution.CacheOrCompute | pkg/services/accesscontrol/acimpl/service.go:270-291 | a hit without reload answers the cached list with no store call; otherwise it answers the producer's result and calls. Only a success is stored, under the key. A failure leaves the cache unchanged. Every other key keeps its entry |
| Resolution.RepeatedLookupHits | pkg/services/accesscontrol/acimpl/service.go:275-281 | right after a successful lookup, a non-reloading lookup of the same key is a hit with the same answer and no store call, whatever its producer |
| ServiceImpl.Service.CollectTeamHits | pkg/services/accesscontrol/acimpl/service.go:302-314 | the scan returns the teams with no cache entry, in order, and the cached permissions of the others, in order |
| Resolution.TeamMisses | pkg/services/accesscontrol/acimpl/service.go:299-314 | with reload every team is a miss; otherwise a team is a miss exactly when its key is absent; never more misses than teams |
| Resolution.TeamHits | pkg/services/accesscontrol/acimpl/service.go:302-313 | the cached lists of the teams that hit, concatenated in team order; nothing on reload |
| Resolution.AllTeamsCached | pkg/services/accesscontrol/acimpl/service.go:302-314 | when every team is cached there is no miss, and a permission is found exactly when some team's cached list holds it |
| Resolution.CachedTeamsAllHit | pkg/services/accesscontrol/acimpl/service.go:302-332 | when every team is cached and no reload is asked for, the team resolution answers the cached lists with no store call and the cache unchanged; a permission is in the answer exactly when some team's cached list holds it |
| Resolution.TeamMissesFrame | pkg/services/accesscontrol/acimpl/service.go:302-314 | the team scan depends only on the team entries of the cache, so the basic-role walk before it cannot change it |
| ServiceImpl.Service.WriteBackTeams | pkg/services/accesscontrol/acimpl/service.go:324-328 | the loop over the fetched teams writes exactly their entries into the cache. It appends their permissions to the hits in the order it visited them, and that order visits every fetched team exactly once |
| ServiceImpl.Service.GetCachedTeamsPermissions | pkg/services/accesscontrol/acimpl/service.go:164-332 | answer, new cache and calls equal `CachedTeams` of the old cache, and the order taken enumerates the fetched teams |
| Resolution.CachedTeams | pkg/services/accesscontrol/acimpl/service.go:293-332 | at most one store call; it happens exactly when some team missed, and it asks for exactly the missed teams with the OSS role prefixes. Non-team entries are untouched. On success the answer begins with the cached teams' lists, in team order |
| Resolution.TeamsWrittenBack | pkg/services/accesscontrol/acimpl/service.go:324-328 | after a successful fetch, every team the store answered for is cached under its team key with the store's list |
| ServiceImpl.Service.ClearUserPermissionCache | pkg/services/accesscontrol/acimpl/service.go:334-337 | the new cache is the old one without the user's aggregate and direct entries |
| Resolution.ClearedDirectRecomputes | pkg/services/accesscontrol/acimpl/service.go:334-337 | after clearing, a direct lookup recomputes from the store: its answer and calls are those of a fresh computation |
| ServiceImpl.Service.DeclareValidated | pkg/services/accesscontrol/acimpl/service.go:349-405 | the registrations before the first rejected one are appended in order; the error is the first complaint about that one (role check first, then the grants), or none |
| ServiceImpl.Service.DeclareFixedRoles | pkg/services/accesscontrol/acimpl/service.go:349-365 | as above with the fixed-role validator |
| ServiceImpl.Service.DeclarePluginRoles | pkg/services/accesscontrol/acimpl/service.go:384-405 | with the on-call access-control flag off nothing is appended and there is no error; otherwise as above over the converted registrations with the plugin-role validator |
| Registry.FirstRejected | pkg/services/accesscontrol/acimpl/service.go:350-361 | every registration before the returned index passes both checks, and the one at the index, if any, fails one |
| ServiceImpl.Service.RegisterFixedRoles | pkg/services/accesscontrol/acimpl/service.go:368-380 | the new role map is `RegisterAll` of the old one over the registrations, in order |
| Registry.RegisterAll | pkg/services/accesscontrol/acimpl/service.go:368-380 | registration never adds or removes a basic role; unknown granted roles are skipped |
| Registry.GrantedToContains | pkg/services/accesscontrol/acimpl/service.go:370-373 | every permission of a registration granting a basic role, directly or through a parent, reaches that role |
| Registry.GrantedToOnlyFromGrants | pkg/services/accesscontrol/acimpl/service.go:370-373 | nothing reaches a basic role except permissions of registrations granting it |
| Registry.RegisteredPermissionsResolve | pkg/services/accesscontrol/acimpl/service.go:368-380 | after registration a role's earlier permissions are a prefix of its list, and a granted permission is resolved for every principal holding the basic role |
| UserSearch.SearchUsers | pkg/services/accesscontrol/acimpl/service.go:408-505 | SearchUsersPermissions: the OSS prefixes are set on the search; a named target is resolved and answered by the single-user search as a one-entry map; otherwise the gated bulk search, which leaves the cache alone |
| ServiceImpl.Service.SearchUsersPermissions | pkg/services/accesscontrol/acimpl/service.go:408-505 | the answer, new cache and calls equal `SearchUsers` of the old cache |
| UserSearch.SearchUsersShape | pkg/services/accesscontrol/acimpl/service.go:408-505 | a search naming a user answers a one-entry map for that user, holding the single-user search's answer and leaving its cache. A bulk search leaves the cache alone. Its answer holds only users the requester may see, each with a non-empty list, and the store search uses the forced OSS role prefixes |
| UserSearch.BulkSearch | pkg/services/accesscontrol/acimpl/service.go:429-505 | every user in a bulk answer is visible to the requester and has a non-empty list |
| ServiceImpl.Service.SearchAllUsersPermissions | pkg/services/accesscontrol/acimpl/service.go:429-505 | the bulk path's answer and calls equal `BulkSearch` |
| ServiceImpl.Service.MatchingBasicPermissions | pkg/services/accesscontrol/acimpl/service.go:432-439 | a basic role appears exactly when it has matching permissions, and then with exactly those, in order |
| ServiceImpl.Service.MergeBasicPermissions | pkg/services/accesscontrol/acimpl/service.go:489-496 | a user's basic-role part is the matching permissions of each held role, in the order held |
| ServiceImpl.Service.MergeUsers | pkg/services/accesscontrol/acimpl/service.go:483-502 | the merge loop equals `BulkSearchResult` |
| Search.MergedUserPermissions | pkg/services/accesscontrol/acimpl/service.go:489-499 | one user's bulk entry: the matching permissions of the user's basic roles in held order, then the user's stored permissions if the store returned any |
| Search.BulkSearchResult | pkg/services/accesscontrol/acimpl/service.go:483-502 | every user in the result has basic roles, may be seen by the requester and has a non-empty list |
| Search.BulkSearchResultMember | pkg/services/accesscontrol/acimpl/service.go:483-502 | a user's entry holds a permission exactly when it matches the search and one of the user's basic roles carries it, or it is one of the user's stored permissions |
| Search.BulkSearchOnlyScopedUser | pkg/services/accesscontrol/acimpl/service.go:453-502 | on the bulk path, a requester allowed only `users:id:7` gets at most user 7 back |
| UserSearch.NamedSearchIgnoresVisibility | pkg/services/accesscontrol/acimpl/service.go:411-426 | a search naming a user is not gated by visibility: its answer, cache and calls are the same whatever the requester's own permissions, so a requester allowed only `users:id:7` who names user 8 gets user 8's permissions |
| Search.CanView | pkg/services/accesscontrol/acimpl/service.go:453-479 | the visibility computed once allows a user exactly when `CanViewSpec` does; without the read action nobody is visible |
| Search.Visibility.Allows | pkg/services/accesscontrol/acimpl/service.go:455-478 | the three shapes of `canView`: nobody, everybody, or a set of ids |
| Search.ScopeUserId | pkg/services/accesscontrol/acimpl/service.go:468-476 | the user id a scope names: split at `:`, exactly three pieces, the third parsed as a base-10 64-bit integer; anything else names nobody |
| Search.OnlyScopedUserVisible | pkg/services/accesscontrol/acimpl/service.go:460-478 | with `users:id:7` as the only scope, exactly user 7 is visible |
| Search.ScopeUserIdOfFormatted | pkg/services/accesscontrol/acimpl/service.go:468-476 | the scope `users:id:` followed by a 64-bit integer in base 10 names exactly that user |
| GoStrings.SplitJoin | pkg/services/accesscontrol/acimpl/service.go:468 | splitting a join of separator-free parts gives the parts back |
| GoStrings.JoinSplit | pkg/services/accesscontrol/acimpl/service.go:468 | joining the pieces of a split gives the string back |
| GoStrings.Split | pkg/services/accesscontrol/acimpl/service.go:468 | a split has at least one piece and no piece contains the separator |
| UserSearch.SearchUser | pkg/services/accesscontrol/acimpl/service.go:508-520 | SearchUserPermissions as written: an empty target is an error with no store call; a cache hit is the filtered entry; otherwise the recompute, which writes the cache |
| ServiceImpl.Service.SearchUserPermissions | pkg/services/accesscontrol/acimpl/service.go:508-520 | answer, new cache and calls equal `SearchUser` of the old cache: an empty target is an error, a cache hit is answered filtered, otherwise the recompute, which writes the cache |
| ServiceImpl.Service.SearchUserPermissionsFromCache | pkg/services/accesscontrol/acimpl/service.go:562-592 | a hit exactly when the target id resolves and its aggregate entry exists, and then the entry filtered by the search |
| UserSearch.SearchFromCache | pkg/services/accesscontrol/acimpl/service.go:562-592 | a hit exactly when the id resolves and the aggregate key is cached; every permission of a hit matches the search |
| ServiceImpl.Service.RecomputeUserSearch | pkg/services/accesscontrol/acimpl/service.go:522-560 | answer, new cache and calls equal `SearchRecompute` of the old cache: the basic roles, then the matching permissions, then the stored ones, with a success written under the aggregate key |
| UserSearch.SearchRecompute | pkg/services/accesscontrol/acimpl/service.go:522-560 | as written: a failure leaves the cache alone, and a success is written under the target's aggregate key |
| UserSearch.RepeatedSearchHits | pkg/services/accesscontrol/acimpl/service.go:508-592 | as written, repeating the same search right after a recompute is a hit with the same answer and no store call, when the store's answer matches the search |
| UserSearch.RecomputeMatches | pkg/services/accesscontrol/acimpl/service.go:538-554 | a recompute's answer matches the search whenever the store's answer does |
| UserSearch.RolesSearchPermissionsMatch | pkg/services/accesscontrol/acimpl/service.go:539-547 | every permission taken from the basic roles matches the search |
| Search.RolesSearchPermissions | pkg/services/accesscontrol/acimpl/service.go:539-547 | the permissions of each held basic role the map knows that match the search, in held order, each role's list in its own order |
| Search.RolesSearchPermissionsMember | pkg/services/accesscontrol/acimpl/service.go:539-547 | a permission is taken from the basic roles exactly when it matches and some held role the map knows carries it |
| UserSearch.FilterKeepsMatching | pkg/services/accesscontrol/acimpl/service.go:585-590 | filtering a list that already matches gives it back |
| UserSearch.StaleFilteredSearch | pkg/services/accesscontrol/acimpl/service.go:556-590 | as written, a second search answers `[]` from the entry the first search cached, where the same search on an empty cache answers `[b:read on x]` |
| UserSearch.SearchRecomputeIntended | pkg/services/accesscontrol/acimpl/service.go:522-554 | the corrected recompute leaves the cache alone and answers what the code answers |
| UserSearch.SearchUserIntended | pkg/services/accesscontrol/acimpl/service.go:508-520 | the corrected search never changes the cache; an empty target is an error with no store call; a hit is the filtered entry with no store call |
| UserSearch.SearchUserAgreesIntended | pkg/services/accesscontrol/acimpl/service.go:508-560 | on the same cache, the search as written and the corrected one give the same answer with the same store calls; only the cache afterwards differs |
| UserSearch.IntendedSearchIndependent | pkg/services/accesscontrol/acimpl/service.go:508-592 | with the correction, a search's answer and calls do not depend on any searches made before it. This follows directly from `SearchUserIntended` never changing the cache: any run of earlier corrected searches leaves the cache as it was |
| UserSearch.IntendedSearchExample | pkg/services/accesscontrol/acimpl/service.go:508-592 | with the correction, the example's second search finds `b:read on x` |
| GoStrings.HasPrefix | pkg/services/accesscontrol/acimpl/service.go:605 | strings.HasPrefix: the prefix is an initial segment of the string |
| GoStrings.HasSuffix | pkg/services/accesscontrol/acimpl/service.go:465 | strings.HasSuffix: the suffix is a final segment of the string |
| Search.PermissionMatchesSearchOptions | pkg/services/accesscontrol/acimpl/service.go:594-606 | a scoped search rejects a permission whose scope is neither the scope nor one of its wildcards; otherwise an exact action decides by equality, and else the action prefix decides |
| Search.ExactActionOverridesPrefix | pkg/services/accesscontrol/acimpl/service.go:602-605 | when an exact action is given, the action prefix has no effect |
| Search.ScopeFilterNarrows | pkg/services/accesscontrol/acimpl/service.go:595-601 | adding a scope can only remove matches |
| Search.SearchMatchExamples | pkg/services/accesscontrol/acimpl/service.go:594-606 | a wildcard scope matches a scoped search; a different exact action does not match; a prefix matches |
| Search.FilterPermissions | pkg/services/accesscontrol/acimpl/service.go:585-590 | the filtered list is a sub-multiset of the input. It holds exactly the input's matching permissions, every one of which matches |
| Search.FilterConcat | pkg/services/accesscontrol/acimpl/service.go:585-590 | filtering distributes over concatenation |
| Search.FilterIdempotent | pkg/services/accesscontrol/acimpl/service.go:585-590 | filtering twice is filtering once |
| Search.FilterMatching | pkg/services/accesscontrol/acimpl/service.go:585-590 | the filter loop equals `FilterPermissions` |
| GoStrings.Contains | pkg/services/accesscontrol/acimpl/service.go:598 | the scan finds a string exactly when it is in the list |
| ServiceImpl.Service.GetRoleByName | pkg/services/accesscontrol/acimpl/service.go:636-658 | equals `RoleByName` of the current roles and registrations |
| Registry.RoleByName | pkg/services/accesscontrol/acimpl/service.go:636-658 | a basic role's name is never found. Otherwise the answer is the first registration with that name, copied into a role DTO; with no such registration it is a not-found error |
| Registry.FirstNamed | pkg/services/accesscontrol/acimpl/service.go:642-655 | no registration before the returned index carries the name, and the one at the index, if any, does |

## Left out

- `ProvideService` and most of `ProvideOSSService` are left out. Route and HTTP registration, the database store and wiring are outside the service's logic, and the constructor takes their results as parameters.
- `GetUsageStats` only reports a constant counter for telemetry.
- Tracing spans, Prometheus timers and cache-hit counters, and logging have no effect on any answer.
- The store's internals are outside `service.go`. The store is a set of total functions that may fail, and queries are recorded as values.
- Cache entries expire after `cacheTTL` and can be evicted. The model has no clock, so an entry stays until it is overwritten or deleted.
- Feature flags are evaluated once, as the booleans `nestedFolders` and `accessControlOnCall`.
- Foreign helpers appear only through their results:
  - as fields of `Collaborators`: `ValidateFixedRole`, `ValidateBuiltInRoles`, `ValidatePluginRole`, `ToRegistrations`, `BuiltInRolesWithParents`, `UserIdentifier`, `ComputeUserID`, the scope `Wildcards`, and the cache key of the bare signed-in user that a single-user search builds (`signedInUserCacheKey`)
  - `GetOrgRoles`, as the principal's field `orgRoles`
  - the four cache-key builders, as the `CacheKey` constructors over the principal's `cacheKey` string
- The string value of the `OSSRolesPrefixes` constant is not modelled. Every query carries `OSSRolesPrefixes()`, whatever it holds.
- `DeleteUserPermissions`, `DeleteTeamPermissions`, `SaveExternalServiceRole`, `DeleteExternalServiceRole` and `SyncUserRoles` are not modelled. They only forward to the store, or are feature-flagged no-ops, and change no state of the service.
- Concurrency is not modelled. The source's registration list is a concurrent list and its cache is shared; the model's methods run one at a time.
- Go map iteration order is not fixed in the model. Where the source ranges over a map, the model picks any unvisited key; a ghost order records the pick where it matters for the result's order.
- ServiceImpl.Service.GetBasicRolePermissions: on a store error the source returns the partial list alongside the error. The model returns only the error, because its only caller discards the list on error.
- Resolution.CachedAgreesUncached: the two resolution modes are proved to agree only on reload or on an empty cache, and only under two conditions on the collaborators. First, `UserIdentifier` must give the id the direct query uses. For a principal outside the user and service-account namespaces the direct query uses id 0, so the modes agree there only when `UserIdentifier` gives 0. Second, the store must answer the combined query as the per-role, team and direct queries together. Neither condition follows from the service's code.
- Cached team entries are not proved coherent with the store, as basic-role and direct entries are. Team entries are rewritten from a single batch answer, and the model does not constrain how that batch relates to per-team answers.
- The shared-with-me folder permission comes before the stored permissions in the uncached answer and after the direct permissions in the cached answer. The model reproduces both orders and does not try to reconcile them.
- `RegisterFixedRoles` logs unknown granted roles; the model skips them silently.
- UserSearch.SearchUsersShape: it does not restate the bulk answer's exact contents. `BulkSearch`, `Search.BulkSearchResult` and `Search.BulkSearchResultMember` state them.

## Findings

| source | as written | input that shows it | evidently intended | confidence | as-written member | corrected member |
|---|---|---|---|---|---|---|
| pkg/services/accesscontrol/acimpl/service.go:556-557 | `searchUserPermissions` stores the search-filtered permission list under the user's aggregate permission key. `searchUserPermissionsFromCache` later answers any search for that user by re-filtering that entry, so permissions excluded by the first search can never be found by a later one while the entry lives | basic role `Viewer` holds `a:read` and `b:read`, both on scope `x`, and the store holds nothing. Search user 1 for action `a:read`, then for action `b:read`. The second search answers `[]`; on an empty cache it answers `[b:read on x]` | the aggregate entry should hold the user's full permission list, or the filtered list should not be cached. The model takes the second: a search never changes the cache, so its answer does not depend on earlier searches | medium, not executed | UserSearch.StaleFilteredSearch | UserSearch.SearchUserIntended |

`UserSearch.SearchRecompute` and `UserSearch.SearchUser` model the lines as
written. The class methods `ServiceImpl.Service.SearchUserPermissions`,
`ServiceImpl.Service.RecomputeUserSearch` and
`ServiceImpl.Service.SearchUsersPermissions`, and the entry point
`UserSearch.SearchUsers`, follow them. `UserSearch.StaleFilteredSearch`
proves the stale answer on the input above.

The correction is `UserSearch.SearchRecomputeIntended` and
`UserSearch.SearchUserIntended`. `UserSearch.IntendedSearchIndependent`
proves that with it, a search's answer does not depend on earlier
searches. `UserSearch.SearchUserAgreesIntended` proves that on the same
cache, the correction changes nothing but the cache afterwards.
