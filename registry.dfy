/**
 * The role registry: validation of declared registrations, the replay of
 * registrations into the basic roles' in-memory permission lists, and
 * lookup of a declared role by name.
 */
module Registry {
  import opened AccessControl
  import Resolution

  /** Which validator a declaration uses for the role itself. */
  datatype Validator = FixedRoleValidator | PluginRoleValidator(pluginId: string)

  /** The first complaint about a registration: the role's validator first, then the grants'. */
  function Check(env: Collaborators, v: Validator, r: RoleRegistration): Option<Error>
  {
    var roleCheck := match v
      case FixedRoleValidator => env.validateFixedRole(r.role)
      case PluginRoleValidator(id) => env.validatePluginRole(id, r.role);
    if roleCheck.Some? then roleCheck else env.validateBuiltInRoles(r.grants)
  }

  /** The index of the first rejected registration, or the length when all pass. */
  function FirstRejected(env: Collaborators, v: Validator, regs: seq<RoleRegistration>): (k: nat)
    ensures k <= |regs|
    ensures forall j :: 0 <= j < k ==> Check(env, v, regs[j]).None?
    ensures k < |regs| ==> Check(env, v, regs[k]).Some?
    decreases |regs|
  {
    if regs == [] then 0
    else if Check(env, v, regs[0]).Some? then 0
    else 1 + FirstRejected(env, v, regs[1..])
  }

  /** The role handed out for a registration: the four fields GetRoleByName copies. */
  function ToDTO(role: Role): RoleDTO
  {
    RoleDTO(role.name, "", role.displayName, role.description, role.permissions)
  }

  /** The index of the first registration named `name`, or the length when there is none. */
  function FirstNamed(regs: seq<RoleRegistration>, name: string): (k: nat)
    ensures k <= |regs|
    ensures forall j :: 0 <= j < k ==> regs[j].role.name != name
    ensures k < |regs| ==> regs[k].role.name == name
    decreases |regs|
  {
    if regs == [] then 0
    else if regs[0].role.name == name then 0
    else 1 + FirstNamed(regs[1..], name)
  }

  /** GetRoleByName: basic-role names are never found; otherwise the first registration with the name. */
  function RoleByName(roles: map<string, RoleDTO>, regs: seq<RoleRegistration>, name: string): (r: Result<RoleDTO>)
    ensures r.Ok? <==> name !in roles && exists j :: 0 <= j < |regs| && regs[j].role.name == name
    ensures r.Err? ==> r.error == RoleNotFound
    ensures r.Ok? ==> exists k :: 0 <= k < |regs| && regs[k].role.name == name && r.value == ToDTO(regs[k].role)
                                  && forall j :: 0 <= j < k ==> regs[j].role.name != name
  {
    if name in roles then Err(RoleNotFound)
    else
      var k := FirstNamed(regs, name);
      if k < |regs| then Ok(ToDTO(regs[k].role)) else Err(RoleNotFound)
  }

  /**
   * The permissions, in registration order, of every registration whose
   * grants (with their parent basic roles) include `basicRole`.
   */
  function GrantedTo(regs: seq<RoleRegistration>, basicRole: string, withParents: seq<string> -> set<string>): seq<Permission>
    decreases |regs|
  {
    if regs == [] then []
    else
      var r := regs[|regs| - 1];
      GrantedTo(regs[..|regs| - 1], basicRole, withParents)
        + (if basicRole in withParents(r.grants) then r.role.permissions else [])
  }

  /** Every permission of a registration granting a basic role ends up in that role's share. */
  lemma {:induction false} GrantedToContains(regs: seq<RoleRegistration>, basicRole: string,
                                             withParents: seq<string> -> set<string>, i: nat, p: Permission)
    requires i < |regs| && basicRole in withParents(regs[i].grants) && p in regs[i].role.permissions
    ensures p in GrantedTo(regs, basicRole, withParents)
    decreases |regs|
  {
    if i < |regs| - 1 {
      GrantedToContains(regs[..|regs| - 1], basicRole, withParents, i, p);
    }
  }

  /** Nothing but the registrations' permissions ever reaches a basic role. */
  lemma {:induction false} GrantedToOnlyFromGrants(regs: seq<RoleRegistration>, basicRole: string,
                                                   withParents: seq<string> -> set<string>, p: Permission)
    requires p in GrantedTo(regs, basicRole, withParents)
    ensures exists i :: 0 <= i < |regs| && basicRole in withParents(regs[i].grants) && p in regs[i].role.permissions
    decreases |regs|
  {
    var init := regs[..|regs| - 1];
    var r := regs[|regs| - 1];
    if p in GrantedTo(init, basicRole, withParents) {
      GrantedToOnlyFromGrants(init, basicRole, withParents, p);
      var i :| 0 <= i < |init| && basicRole in withParents(init[i].grants) && p in init[i].role.permissions;
      assert regs[i] == init[i];
    } else {
      assert regs[|regs| - 1] == r;
    }
  }

  /** The role map after RegisterFixedRoles: the same roles, each list extended by what is granted to it. */
  function RegisterAll(roles: map<string, RoleDTO>, regs: seq<RoleRegistration>,
                       withParents: seq<string> -> set<string>): (after: map<string, RoleDTO>)
    ensures after.Keys == roles.Keys
  {
    map b | b in roles :: roles[b].(permissions := roles[b].permissions + GrantedTo(regs, b, withParents))
  }

  /** Replaying no registration leaves the role map as it is. */
  lemma RegisterAllEmpty(roles: map<string, RoleDTO>, withParents: seq<string> -> set<string>)
    ensures RegisterAll(roles, [], withParents) == roles
  {
    var after := RegisterAll(roles, [], withParents);
    forall b | b in roles
      ensures after[b] == roles[b]
    {
      assert roles[b].permissions + [] == roles[b].permissions;
    }
  }

  /**
   * Registering a role that grants a basic role makes its permissions part
   * of the resolution of every principal holding that basic role, while
   * what the role had before stays in front.
   */
  lemma RegisteredPermissionsResolve(roles: map<string, RoleDTO>, regs: seq<RoleRegistration>,
                                     withParents: seq<string> -> set<string>, i: nat, basicRole: string,
                                     held: seq<string>, p: Permission)
    requires i < |regs| && basicRole in withParents(regs[i].grants) && p in regs[i].role.permissions
    requires basicRole in roles && basicRole in held
    ensures var after := RegisterAll(roles, regs, withParents);
      && roles[basicRole].permissions <= after[basicRole].permissions
      && p in Resolution.BasicPermissions(after, held)
  {
    var after := RegisterAll(roles, regs, withParents);
    GrantedToContains(regs, basicRole, withParents, i, p);
    assert p in after[basicRole].permissions;
    var j :| 0 <= j < |held| && held[j] == basicRole;
    Resolution.BasicPermissionsMember(after, held, p);
  }

  /** One registration's pass turns the registered map for a prefix into that of the longer prefix. */
  lemma RegisterStep(initial: map<string, RoleDTO>, regs: seq<RoleRegistration>, i: nat,
                     withParents: seq<string> -> set<string>, before: map<string, RoleDTO>,
                     after: map<string, RoleDTO>)
    requires i < |regs|
    requires before == RegisterAll(initial, regs[..i], withParents)
    requires after.Keys == before.Keys
    requires forall b :: b in after ==>
      after[b] == before[b].(permissions := before[b].permissions
                             + (if b in withParents(regs[i].grants) then regs[i].role.permissions else []))
    ensures after == RegisterAll(initial, regs[..i + 1], withParents)
  {
    var next := RegisterAll(initial, regs[..i + 1], withParents);
    assert regs[..i + 1][..i] == regs[..i];
    forall b | b in after
      ensures after[b] == next[b]
    {
      var extra := if b in withParents(regs[i].grants) then regs[i].role.permissions else [];
      assert GrantedTo(regs[..i + 1], b, withParents) == GrantedTo(regs[..i], b, withParents) + extra;
      assert initial[b].permissions + GrantedTo(regs[..i], b, withParents) + extra
          == initial[b].permissions + (GrantedTo(regs[..i], b, withParents) + extra);
    }
  }
}
