/**
 * The search side of the service: the permission predicate of a search,
 * filtering, the visibility gate built from the requester's own permissions
 * (`canView`), and the specification of the bulk search's per-user merge.
 */
module Search {
  import opened AccessControl
  import opened GoStrings

  /**
   * PermissionMatchesSearchOptions. A scope filter, when set, must be met by
   * the scope itself or one of its wildcard forms; then an exact action, when
   * set, decides alone, and otherwise the action prefix does.
   */
  function PermissionMatchesSearchOptions(p: Permission, o: SearchOptions, wildcardsOf: string -> seq<string>): (b: bool)
    ensures o.scope != "" && p.scope != o.scope && p.scope !in wildcardsOf(o.scope) ==> !b
    ensures (o.scope == "" || p.scope == o.scope || p.scope in wildcardsOf(o.scope)) ==>
              (b <==> if o.action != "" then p.action == o.action else o.actionPrefix <= p.action)
  {
    (o.scope != "" ==> Contains(wildcardsOf(o.scope) + [o.scope], p.scope))
    && (if o.action != "" then p.action == o.action else HasPrefix(p.action, o.actionPrefix))
  }

  /** An exact action makes the action prefix irrelevant. */
  lemma ExactActionOverridesPrefix(p: Permission, o: SearchOptions, prefix: string, wildcardsOf: string -> seq<string>)
    requires o.action != ""
    ensures PermissionMatchesSearchOptions(p, o, wildcardsOf)
        == PermissionMatchesSearchOptions(p, o.(actionPrefix := prefix), wildcardsOf)
  {
  }

  /** A scope filter only ever narrows a search. */
  lemma ScopeFilterNarrows(p: Permission, o: SearchOptions, wildcardsOf: string -> seq<string>)
    ensures PermissionMatchesSearchOptions(p, o, wildcardsOf) ==> PermissionMatchesSearchOptions(p, o.(scope := ""), wildcardsOf)
  {
  }

  /**
   * The three worked cases: a wildcard scope matches a concrete scope filter,
   * an exact action rejects another action, an action prefix admits an action
   * that starts with it.
   */
  lemma SearchMatchExamples(wildcardsOf: string -> seq<string>)
    requires "dashboards:*" in wildcardsOf("dashboards:uid:abc")
    ensures PermissionMatchesSearchOptions(Permission("dashboards:read", "dashboards:*"),
              SearchOptions("", "dashboards:read", "dashboards:uid:abc", "", []), wildcardsOf)
    ensures !PermissionMatchesSearchOptions(Permission("dashboards:write", "dashboards:*"),
              SearchOptions("", "dashboards:read", "", "", []), wildcardsOf)
    ensures PermissionMatchesSearchOptions(Permission("dashboards:read", "dashboards:*"),
              SearchOptions("dashboards:", "", "", "", []), wildcardsOf)
  {
    assert "dashboards:" <= "dashboards:read";
  }

  /** The permissions of `ps` that match the search, in their order. */
  function FilterPermissions(ps: seq<Permission>, o: SearchOptions, wildcardsOf: string -> seq<string>): (r: seq<Permission>)
    ensures |r| <= |ps|
    ensures forall i :: 0 <= i < |r| ==> PermissionMatchesSearchOptions(r[i], o, wildcardsOf)
    ensures forall x :: x in r <==> x in ps && PermissionMatchesSearchOptions(x, o, wildcardsOf)
    ensures multiset(r) <= multiset(ps)
    decreases |ps|
  {
    if ps == [] then []
    else
      var init := FilterPermissions(ps[..|ps| - 1], o, wildcardsOf);
      var last := ps[|ps| - 1];
      assert ps == ps[..|ps| - 1] + [last];
      if PermissionMatchesSearchOptions(last, o, wildcardsOf) then init + [last] else init
  }

  lemma {:induction false} FilterConcat(a: seq<Permission>, b: seq<Permission>, o: SearchOptions, wildcardsOf: string -> seq<string>)
    ensures FilterPermissions(a + b, o, wildcardsOf) == FilterPermissions(a, o, wildcardsOf) + FilterPermissions(b, o, wildcardsOf)
    decreases |b|
  {
    if b != [] {
      var b' := b[..|b| - 1];
      FilterConcat(a, b', o, wildcardsOf);
      assert (a + b)[..|a + b| - 1] == a + b';
    } else {
      assert a + b == a;
    }
  }

  /** Filtering twice with the same search is filtering once. */
  lemma {:induction false} FilterIdempotent(ps: seq<Permission>, o: SearchOptions, wildcardsOf: string -> seq<string>)
    ensures FilterPermissions(FilterPermissions(ps, o, wildcardsOf), o, wildcardsOf) == FilterPermissions(ps, o, wildcardsOf)
    decreases |ps|
  {
    if ps != [] {
      var init := ps[..|ps| - 1];
      var last := ps[|ps| - 1];
      FilterIdempotent(init, o, wildcardsOf);
      var fi := FilterPermissions(init, o, wildcardsOf);
      if PermissionMatchesSearchOptions(last, o, wildcardsOf) {
        FilterConcat(fi, [last], o, wildcardsOf);
      }
    }
  }

  /** The loop over a permission slice that keeps the matching ones. */
  method FilterMatching(ps: seq<Permission>, o: SearchOptions, wildcardsOf: string -> seq<string>) returns (r: seq<Permission>)
    ensures r == FilterPermissions(ps, o, wildcardsOf)
  {
    r := [];
    for i := 0 to |ps|
      invariant r == FilterPermissions(ps[..i], o, wildcardsOf)
    {
      assert ps[..i + 1][..i] == ps[..i];
      if PermissionMatchesSearchOptions(ps[i], o, wildcardsOf) {
        r := r + [ps[i]];
      }
    }
    assert ps[..|ps|] == ps;
  }

  /** The user id a "kind:attribute:id" scope names, if its third part is a 64-bit integer. */
  function ScopeUserId(scope: string): Option<int>
  {
    var parts := Split(scope, ':');
    if |parts| != 3 then None else ParseInt64(parts[2])
  }

  /** The scope "users:id:<n>", with n a 64-bit integer in base 10, names user n. */
  lemma ScopeUserIdOfFormatted(n: int)
    requires MinInt64 <= n <= MaxInt64
    ensures ScopeUserId("users:id:" + FormatInt(n)) == Some(n)
  {
    var s := FormatInt(n);
    FormatIntNoColon(n);
    var parts := ["users", "id", s];
    assert parts[..2] == ["users", "id"] && parts[..2][..1] == ["users"];
    assert Join(["users"], ':') == "users";
    assert Join(["users", "id"], ':') == "users" + [':'] + "id";
    assert Join(parts, ':') == Join(["users", "id"], ':') + [':'] + s;
    assert "users" + [':'] + "id" + [':'] + s == "users:id:" + s;
    SplitJoin(parts, ':');
    ParseFormatInt(n);
  }

  /**
   * Who the requester may see, as the search promises it: nobody without
   * the user-permissions read action; everybody when one of its scopes ends
   * in a wildcard; otherwise exactly the ids its scopes name.
   */
  predicate CanViewSpec(siu: map<string, seq<string>>, userId: int)
  {
    ActionUsersPermissionsRead in siu
    && var scopes := siu[ActionUsersPermissionsRead];
    || (exists j :: 0 <= j < |scopes| && HasSuffix(scopes[j], "*"))
    || (exists j :: 0 <= j < |scopes| && ScopeUserId(scopes[j]) == Some(userId))
  }

  /** The predicate `canView` returns, as data. */
  datatype Visibility = NoUsers | AllUsers | UsersIn(ids: set<int>)
  {
    predicate Allows(userId: int) {
      match this
      case NoUsers => false
      case AllUsers => true
      case UsersIn(ids) => userId in ids
    }
  }

  /** canView: computed once per search from the requester's permissions. */
  method CanView(siu: map<string, seq<string>>) returns (v: Visibility)
    ensures forall userId :: v.Allows(userId) <==> CanViewSpec(siu, userId)
    ensures ActionUsersPermissionsRead !in siu ==> v == NoUsers
  {
    if |siu| == 0 {
      return NoUsers;
    }
    if ActionUsersPermissionsRead !in siu {
      return NoUsers;
    }
    var scopes := siu[ActionUsersPermissionsRead];
    var ids: set<int> := {};
    var i := 0;
    while i < |scopes|
      invariant 0 <= i <= |scopes|
      invariant forall j :: 0 <= j < i ==> !HasSuffix(scopes[j], "*")
      invariant forall id :: id in ids <==> exists j :: 0 <= j < i && ScopeUserId(scopes[j]) == Some(id)
    {
      if HasSuffix(scopes[i], "*") {
        forall userId
          ensures CanViewSpec(siu, userId)
        {
          assert 0 <= i < |scopes| && HasSuffix(scopes[i], "*");
        }
        return AllUsers;
      }
      var id := ScopeUserId(scopes[i]);
      if id.Some? {
        ids := ids + {id.value};
      }
      i := i + 1;
    }
    forall userId
      ensures userId in ids <==> CanViewSpec(siu, userId)
    {
      assert !exists j :: 0 <= j < |scopes| && HasSuffix(scopes[j], "*");
    }
    return UsersIn(ids);
  }

  /** A requester whose only grant is on "users:id:7" may see user 7 and nobody else. */
  lemma {:induction false} OnlyScopedUserVisible(siu: map<string, seq<string>>, userId: int)
    requires siu == map[ActionUsersPermissionsRead := ["users:id:7"]]
    ensures CanViewSpec(siu, userId) <==> userId == 7
  {
    var scope := "users:id:7";
    assert scope == Join(["users", "id", "7"], ':');
    SplitJoin(["users", "id", "7"], ':');
    assert ScopeUserId(scope) == ParseInt64("7");
    assert DigitsValue("7") == 7 by {
      assert "7"[..0] == "";
    }
    assert ScopeUserId(scope) == Some(7);
    assert !HasSuffix(scope, "*");
    var scopes := siu[ActionUsersPermissionsRead];
    assert scopes == [scope];
    if CanViewSpec(siu, userId) {
      var j :| 0 <= j < |scopes| && ScopeUserId(scopes[j]) == Some(userId);
      assert j == 0;
    }
    if userId == 7 {
      assert ScopeUserId(scopes[0]) == Some(userId);
    }
  }

  /** The matching permissions of the basic roles a user holds, in role order. */
  function RolesSearchPermissions(roles: map<string, RoleDTO>, userRoles: seq<string>, o: SearchOptions,
                                  wildcardsOf: string -> seq<string>): seq<Permission>
    decreases |userRoles|
  {
    if userRoles == [] then []
    else
      var r := userRoles[|userRoles| - 1];
      RolesSearchPermissions(roles, userRoles[..|userRoles| - 1], o, wildcardsOf)
        + (if r in roles then FilterPermissions(roles[r].permissions, o, wildcardsOf) else [])
  }

  lemma {:induction false} RolesSearchPermissionsMember(roles: map<string, RoleDTO>, userRoles: seq<string>, o: SearchOptions,
                                                        wildcardsOf: string -> seq<string>, p: Permission)
    ensures p in RolesSearchPermissions(roles, userRoles, o, wildcardsOf) <==>
              PermissionMatchesSearchOptions(p, o, wildcardsOf)
              && exists i :: 0 <= i < |userRoles| && userRoles[i] in roles && p in roles[userRoles[i]].permissions
    decreases |userRoles|
  {
    if userRoles != [] {
      var init := userRoles[..|userRoles| - 1];
      RolesSearchPermissionsMember(roles, init, o, wildcardsOf, p);
      assert forall i :: 0 <= i < |init| ==> init[i] == userRoles[i];
    }
  }

  /** One user's bulk-search result: role permissions that match, then the user's stored ones. */
  function MergedUserPermissions(roles: map<string, RoleDTO>, userRoles: seq<string>,
                                 usersPermissions: map<int, seq<Permission>>, userId: int,
                                 o: SearchOptions, wildcardsOf: string -> seq<string>): seq<Permission>
  {
    RolesSearchPermissions(roles, userRoles, o, wildcardsOf)
      + (if userId in usersPermissions then usersPermissions[userId] else [])
  }

  /**
   * The bulk search result: every user the store knows roles for, whom the
   * requester may see and who has something to show, mapped to its merge.
   */
  function BulkSearchResult(roles: map<string, RoleDTO>, usersRoles: map<int, seq<string>>,
                            usersPermissions: map<int, seq<Permission>>, siu: map<string, seq<string>>,
                            o: SearchOptions, wildcardsOf: string -> seq<string>): (res: map<int, seq<Permission>>)
    ensures res.Keys <= usersRoles.Keys
    ensures forall u :: u in res ==> CanViewSpec(siu, u) && res[u] != []
  {
    map u | u in usersRoles && CanViewSpec(siu, u)
              && MergedUserPermissions(roles, usersRoles[u], usersPermissions, u, o, wildcardsOf) != []
          :: MergedUserPermissions(roles, usersRoles[u], usersPermissions, u, o, wildcardsOf)
  }

  /**
   * What a user's entry in the bulk result holds: exactly the matching
   * permissions of the basic roles they hold, and their stored permissions.
   */
  lemma BulkSearchResultMember(roles: map<string, RoleDTO>, usersRoles: map<int, seq<string>>,
                               usersPermissions: map<int, seq<Permission>>, siu: map<string, seq<string>>,
                               o: SearchOptions, wildcardsOf: string -> seq<string>, u: int, p: Permission)
    requires u in BulkSearchResult(roles, usersRoles, usersPermissions, siu, o, wildcardsOf)
    ensures p in BulkSearchResult(roles, usersRoles, usersPermissions, siu, o, wildcardsOf)[u] <==>
              (PermissionMatchesSearchOptions(p, o, wildcardsOf)
               && exists i :: 0 <= i < |usersRoles[u]| && usersRoles[u][i] in roles && p in roles[usersRoles[u][i]].permissions)
              || (u in usersPermissions && p in usersPermissions[u])
  {
    RolesSearchPermissionsMember(roles, usersRoles[u], o, wildcardsOf, p);
  }

  /** Whatever the store returns, a requester granted only "users:id:7" sees at most user 7. */
  lemma BulkSearchOnlyScopedUser(roles: map<string, RoleDTO>, usersRoles: map<int, seq<string>>,
                                 usersPermissions: map<int, seq<Permission>>, siu: map<string, seq<string>>,
                                 o: SearchOptions, wildcardsOf: string -> seq<string>)
    requires siu == map[ActionUsersPermissionsRead := ["users:id:7"]]
    ensures BulkSearchResult(roles, usersRoles, usersPermissions, siu, o, wildcardsOf).Keys <= {7}
  {
    var res := BulkSearchResult(roles, usersRoles, usersPermissions, siu, o, wildcardsOf);
    forall u | u in res
      ensures u == 7
    {
      OnlyScopedUserVisible(siu, u);
    }
  }

  /** The merge loop's invariant, once every user is visited, is the bulk result. */
  lemma MergeDone(roles: map<string, RoleDTO>, usersRoles: map<int, seq<string>>,
                  usersPermissions: map<int, seq<Permission>>, siu: map<string, seq<string>>,
                  o: SearchOptions, wildcardsOf: string -> seq<string>, res: map<int, seq<Permission>>)
    requires MergeState(roles, usersRoles, usersPermissions, siu, o, wildcardsOf, {}, res)
    ensures res == BulkSearchResult(roles, usersRoles, usersPermissions, siu, o, wildcardsOf)
  {
    var expected := BulkSearchResult(roles, usersRoles, usersPermissions, siu, o, wildcardsOf);
    forall u
      ensures u in res <==> u in expected
    {
    }
    forall u | u in res
      ensures res[u] == expected[u]
    {
    }
  }

  /** Where the merge loop stands: `res` is the bulk result for the users already visited. */
  ghost predicate MergeState(roles: map<string, RoleDTO>, usersRoles: map<int, seq<string>>,
                             usersPermissions: map<int, seq<Permission>>, siu: map<string, seq<string>>,
                             o: SearchOptions, wildcardsOf: string -> seq<string>, users: set<int>,
                             res: map<int, seq<Permission>>)
  {
    && users <= usersRoles.Keys
    && (forall u :: u in res <==>
          u in usersRoles && u !in users && CanViewSpec(siu, u)
          && MergedUserPermissions(roles, usersRoles[u], usersPermissions, u, o, wildcardsOf) != [])
    && (forall u :: u in res ==> res[u] == MergedUserPermissions(roles, usersRoles[u], usersPermissions, u, o, wildcardsOf))
  }
}
