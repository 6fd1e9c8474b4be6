/**
 * `ProfilerUser`: the user of the profiler dashboard. Whatever roles it is
 * built with, it holds `ROLE_PROFILER`: the role is pushed onto the given
 * role list (which the caller shares) when it is not there yet.
 */
module ProfilerUser {
  import Js

  const RoleProfiler: string := "ROLE_PROFILER"

  /** The default user name. */
  const Anonymous: string := "anon."

  /** A JavaScript array of role names, shared by reference. */
  class RoleList {
    var items: seq<string>

    constructor(items: seq<string>)
      ensures this.items == items
    {
      this.items := items;
    }
  }

  /** `roles.indexOf(role)`: the first position of `role`, or -1. */
  function IndexOf(roles: seq<string>, role: string): (r: int)
    ensures -1 <= r < |roles|
    ensures r == -1 <==> role !in roles
    ensures r >= 0 ==> roles[r] == role && forall j | 0 <= j < r :: roles[j] != role
    decreases |roles|
  {
    if roles == [] then -1
    else if roles[0] == role then 0
    else
      var i := IndexOf(roles[1..], role);
      assert forall j | 0 <= j < |roles| - 1 :: roles[1..][j] == roles[j + 1];
      assert role in roles[1..] <==> role in roles;
      if i == -1 then -1 else i + 1
  }

  /** The roles after construction. */
  function WithProfilerRole(roles: seq<string>): (r: seq<string>)
    ensures RoleProfiler in r
    ensures RoleProfiler in roles ==> r == roles
    ensures RoleProfiler !in roles ==> r == roles + [RoleProfiler]
  {
    if IndexOf(roles, RoleProfiler) == -1 then roles + [RoleProfiler] else roles
  }

  /** Building a user from an existing user's roles changes nothing further. */
  lemma WithProfilerRoleIdempotent(roles: seq<string>)
    ensures WithProfilerRole(WithProfilerRole(roles)) == WithProfilerRole(roles)
  {
  }

  /** The given roles keep their order, in front; at most the one role is added. */
  lemma WithProfilerRoleKeeps(roles: seq<string>)
    ensures WithProfilerRole(roles)[..|roles|] == roles
    ensures forall x | x in WithProfilerRole(roles) :: x in roles || x == RoleProfiler
  {
  }

  class User {
    var username: Js.Value
    var password: Js.Value
    const roles: RoleList

    /**
     * `new ProfilerUser(username, password, roles)`; an argument left out
     * (`undefined`) takes the default `'anon.'`, `null` or a new empty list.
     */
    constructor(username: Js.Value, password: Js.Value, roles: RoleList?)
      modifies roles
      ensures this.username == (if username.Undefined? then Js.Str(Anonymous) else username)
      ensures this.password == (if password.Undefined? then Js.Null else password)
      ensures roles != null ==> this.roles == roles && roles.items == WithProfilerRole(old(roles.items))
      ensures roles == null ==> fresh(this.roles) && this.roles.items == [RoleProfiler]
    {
      var list := roles;
      if list == null {
        list := new RoleList([]);
      }
      if IndexOf(list.items, RoleProfiler) == -1 {
        list.items := list.items + [RoleProfiler];
      }
      this.username := if username.Undefined? then Js.Str(Anonymous) else username;
      this.password := if password.Undefined? then Js.Null else password;
      this.roles := list;
    }
  }
}
