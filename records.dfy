/** The server's records as the pages receive them, and the first-match
    lookup (`Array.prototype.find` by `_id`) the pages use on them. */
module Records {
  import opened JsValues

  /** A record's `_id`. The server issues non-empty identifiers, so an `_id`
      is always truthy. */
  type Id = s: string | s != "" witness "0"

  datatype RolePermission = RolePermission(permissionKey: string)
  datatype Role = Role(id: Id, name: string, permissions: seq<RolePermission>)
  datatype Permission = Permission(key: string, description: string)
  datatype Team = Team(id: Id, name: string, description: string)

  /** A user's `roles[i].roleId`: either the populated role document or the
      bare identifier the server left unpopulated. */
  datatype RoleRef = RolePopulated(id: Id, name: string) | RoleIdOnly(rawId: Id)
  datatype RoleAssignment = RoleAssignment(roleId: Option<RoleRef>)

  /** A user's `teamId`: absent, a bare identifier, or the populated team. */
  datatype TeamRef = NoTeam | TeamIdOnly(rawId: Id) | TeamPopulated(id: Id, name: string)

  /** `roles` is optional in the payload (`user.roles?.[0]`). */
  datatype User = User(id: Id, name: string, email: string,
                       roles: Option<seq<RoleAssignment>>, teamId: TeamRef)

  function RoleKey(r: Role): string { r.id }
  function TeamKey(t: Team): string { t.id }

  /** `xs.find(x => key(x) === want)`: the first element whose key is `want`,
      or `None` (JavaScript's `undefined`) when there is none. */
  function Find<T>(xs: seq<T>, key: T -> string, want: string): (r: Option<T>)
    ensures r.None? <==> forall i :: 0 <= i < |xs| ==> key(xs[i]) != want
    ensures r.Some? ==> exists i :: 0 <= i < |xs| && xs[i] == r.value && key(xs[i]) == want &&
                                   forall j :: 0 <= j < i ==> key(xs[j]) != want
  {
    if |xs| == 0 then None
    else if key(xs[0]) == want then Some(xs[0])
    else
      var r := Find(xs[1..], key, want);
      assert forall i :: 1 <= i < |xs| ==> xs[i] == xs[1..][i - 1];
      r
  }

  /** `roles.find(r => r._id === id)` */
  function FindRole(roles: seq<Role>, id: string): Option<Role>
  {
    Find(roles, RoleKey, id)
  }

  /** `teams.find(t => t._id === id)` */
  function FindTeam(teams: seq<Team>, id: string): Option<Team>
  {
    Find(teams, TeamKey, id)
  }

  /** Whatever `find` returns is an element of the list carrying the wanted
      identifier, and no earlier element carries it: the row a table shows
      for that identifier and the record `find` returns are the same value. */
  lemma FindRoleIsFirstRow(roles: seq<Role>, id: string)
    ensures FindRole(roles, id).Some? ==>
              FindRole(roles, id).value in roles && FindRole(roles, id).value.id == id
    ensures FindRole(roles, id).None? ==> forall r :: r in roles ==> r.id != id
    ensures forall k :: 0 <= k < |roles| && roles[k].id == id &&
                        (forall j :: 0 <= j < k ==> roles[j].id != id)
                        ==> FindRole(roles, id) == Some(roles[k])
  {
    var r := FindRole(roles, id);
    forall k | 0 <= k < |roles| && roles[k].id == id && (forall j :: 0 <= j < k ==> roles[j].id != id)
      ensures r == Some(roles[k])
    {
      assert RoleKey(roles[k]) == id;
      var i :| 0 <= i < |roles| && roles[i] == r.value && RoleKey(roles[i]) == id &&
               forall j :: 0 <= j < i ==> RoleKey(roles[j]) != id;
      assert i == k;
    }
    if r.None? {
      forall x | x in roles ensures x.id != id {
        var k :| 0 <= k < |roles| && roles[k] == x;
        assert RoleKey(roles[k]) != id;
      }
    }
  }
}
