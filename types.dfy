/**
 * Entities of the role-based access-control service: permissions, roles and
 * their registrations, the principal asking for permissions, search options,
 * cache keys, and the narrow interfaces of the collaborators the service
 * calls (the permission store and a handful of foreign helpers).
 */
module AccessControl {

  datatype Option<T> = None | Some(value: T)

  /** The errors the service returns or passes through unchanged. */
  datatype Error =
    | ValidationError(reason: string)          // reported by a role or grant validator
    | RoleNotFound                             // accesscontrol.ErrRoleNotFound
    | StoreError(reason: string)               // any failure of the permission store
    | InvalidIdentifier(identifier: string)    // strconv.ParseInt rejected an identifier
    | UnresolvableIdentity(reason: string)     // UserIdentifier / ComputeUserID failed
    | MissingNamespacedId                      // a single-user search without a target
    | BasicRolesFetchFailed(cause: Error)      // wraps a store error when fetching basic roles
    | NoBasicRoles(userId: int, orgId: int)    // the target user has no basic role in the org

  datatype Result<T> = Ok(value: T) | Err(error: Error)

  /** An action on a scope; scopes may end in a wildcard. */
  datatype Permission = Permission(action: string, scope: string)

  /** A role as the service hands it out (accesscontrol.RoleDTO, the fields this service touches). */
  datatype RoleDTO = RoleDTO(
    name: string,
    uid: string,
    displayName: string,
    description: string,
    permissions: seq<Permission>)

  /** A declared fixed or plugin role (accesscontrol.Role). */
  datatype Role = Role(
    name: string,
    uid: string,
    displayName: string,
    description: string,
    group: string,
    hidden: bool,
    permissions: seq<Permission>)

  /** A role together with the basic roles (or "Grafana Admin") it is granted to. */
  datatype RoleRegistration = RoleRegistration(role: Role, grants: seq<string>)

  /** A role registration as a plugin declares it, before conversion. */
  datatype PluginRoleRegistration = PluginRoleRegistration(
    name: string,
    description: string,
    permissions: seq<Permission>,
    grants: seq<string>)

  datatype Namespace = NamespaceUser | NamespaceServiceAccount | OtherNamespace(name: string)

  /**
   * The authenticated principal (identity.Requester), reduced to what the
   * service reads from it. `orgRoles` is what accesscontrol.GetOrgRoles
   * returns for it, `permissions` its own action-to-scopes map and
   * `cacheKey` its GetCacheKey string, from which the per-user cache keys are built.
   */
  datatype Principal = Principal(
    orgId: int,
    namespace: Namespace,
    identifier: string,
    orgRoles: seq<string>,
    teams: seq<int>,
    permissions: map<string, seq<string>>,
    hasUniqueId: bool,
    cacheKey: string)

  /** accesscontrol.Options */
  datatype Options = Options(reloadCache: bool)

  /** accesscontrol.SearchOptions; the empty string means "not set". */
  datatype SearchOptions = SearchOptions(
    actionPrefix: string,
    action: string,
    scope: string,
    namespacedId: string,
    rolePrefixes: seq<string>)

  /**
   * Cache keys, one constructor per key builder. Being constructors they are
   * injective and keys of different kinds never collide.
   */
  datatype CacheKey =
    | BasicRoleKey(role: string, orgId: int)      // GetBasicRolePermissionCacheKey
    | TeamKey(teamId: int, orgId: int)            // GetTeamPermissionCacheKey
    | UserDirectKey(user: string)                 // GetUserDirectPermissionCacheKey
    | UserAggregateKey(user: string)              // GetPermissionCacheKey

  type Cache = map<CacheKey, seq<Permission>>

  /** accesscontrol.GetUserPermissionsQuery; an unset list field is the empty sequence. */
  datatype UserPermissionsQuery = UserPermissionsQuery(
    orgId: int,
    userId: int,
    roles: seq<string>,
    teamIds: seq<int>,
    rolePrefixes: seq<string>)

  /**
   * The permission store, as the answers it gives. Each query may fail.
   * `getUsersBasicRoles` takes None for "every user of the organization".
   */
  datatype Store = Store(
    getUserPermissions: UserPermissionsQuery -> Result<seq<Permission>>,
    getBasicRolesPermissions: UserPermissionsQuery -> Result<seq<Permission>>,
    getTeamsPermissions: UserPermissionsQuery -> Result<map<int, seq<Permission>>>,
    getUsersBasicRoles: (Option<seq<int>>, int) -> Result<map<int, seq<string>>>,
    searchUsersPermissions: (int, SearchOptions) -> Result<map<int, seq<Permission>>>)

  /** One round trip to the store, with its arguments. */
  datatype StoreCall =
    | GetUserPermissionsCall(query: UserPermissionsQuery)
    | GetBasicRolesPermissionsCall(query: UserPermissionsQuery)
    | GetTeamsPermissionsCall(query: UserPermissionsQuery)
    | GetUsersBasicRolesCall(userIds: Option<seq<int>>, orgId: int)
    | SearchUsersPermissionsCall(orgId: int, options: SearchOptions)

  /** Feature toggles the service consults. */
  datatype Features = Features(nestedFolders: bool, accessControlOnCall: bool)

  /**
   * Helpers defined outside the service, taken as given functions:
   * the wildcard forms of a search scope (SearchOptions.Wildcards), the
   * grant expansion to parent basic roles (BuiltInRolesWithParents), the
   * validators, the plugin registration conversion, identifier resolution,
   * the cache key of a bare signed-in user, and the two role-name prefixes
   * that make up OSSRolesPrefixes.
   */
  datatype Collaborators = Collaborators(
    wildcards: string -> seq<string>,
    builtInRolesWithParents: seq<string> -> set<string>,
    validateFixedRole: Role -> Option<Error>,
    validateBuiltInRoles: seq<string> -> Option<Error>,
    validatePluginRole: (string, Role) -> Option<Error>,
    toRegistrations: (string, string, seq<PluginRoleRegistration>) -> seq<RoleRegistration>,
    userIdentifier: (Namespace, string) -> Result<int>,
    computeUserId: SearchOptions -> Result<int>,
    signedInUserCacheKey: (int, int) -> string,
    managedRolePrefix: string,
    externalServiceRolePrefix: string)
  {
    /** OSSRolesPrefixes: only managed and external-service roles are read from the store. */
    function OSSRolesPrefixes(): seq<string> {
      [managedRolePrefix, externalServiceRolePrefix]
    }
  }

  /** dashboards.ActionFoldersRead */
  const ActionFoldersRead: string := "folders:read"

  /** The scope of the virtual "shared with me" folder (folder uid "sharedwithme"). */
  const SharedWithMeFolderScope: string := "folders:uid:sharedwithme"

  /** SharedWithMeFolderPermission */
  const SharedWithMeFolderPermission: Permission := Permission(ActionFoldersRead, SharedWithMeFolderScope)

  /** accesscontrol.ActionUsersPermissionsRead */
  const ActionUsersPermissionsRead: string := "users.permissions:read"

  /** A non-empty set has an element to pick; the element returned is one witness. */
  lemma HasElement<T>(s: set<T>) returns (x: T)
    requires s != {}
    ensures x in s
  {
    x :| x in s;
  }
}
