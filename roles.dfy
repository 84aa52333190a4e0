/** The role hook: fetches the signed-in user's role rows and derives the
    capability flags from the resulting list. */
module UseRoles {
  import opened Base
  import opened Provider

  datatype AppRole = Admin | Moderator | UserRole

  function RoleName(role: AppRole): string {
    match role
    case Admin => "admin"
    case Moderator => "moderator"
    case UserRole => "user"
  }

  /** A row of the roles table as the query returns it. The value is cast to
      the role type, never checked, so any string can arrive. */
  datatype RoleRow = RoleRow(role: string)

  /** How the roles query ends: rows (possibly a null `data`), an error
      reported by the query, or an exception. */
  datatype RoleReply = Rows(data: Option<seq<RoleRow>>) | QueryError(message: string) | Thrown

  /** `data.map(r => r.role)` */
  function RoleColumn(rows: seq<RoleRow>): (roles: seq<string>)
    ensures |roles| == |rows|
    ensures forall i :: 0 <= i < |rows| ==> roles[i] == rows[i].role
  {
    if rows == [] then [] else [rows[0].role] + RoleColumn(rows[1..])
  }

  /** `roles.includes(name)`, scanning from the front. */
  function Includes(roles: seq<string>, name: string): (r: bool)
    ensures r <==> exists i :: 0 <= i < |roles| && roles[i] == name
  {
    if roles == [] then false
    else if roles[0] == name then true
    else
      var r := Includes(roles[1..], name);
      assert forall i :: 1 <= i < |roles| ==> roles[i] == roles[1..][i - 1];
      r
  }

  /** `hasRole` */
  function HasRole(roles: seq<string>, role: AppRole): (r: bool)
    ensures r <==> RoleName(role) in roles
  {
    Includes(roles, RoleName(role))
  }

  /** `isAdmin` */
  function IsAdmin(roles: seq<string>): (r: bool)
    ensures r <==> "admin" in roles
    ensures roles == [] ==> !r
  {
    HasRole(roles, Admin)
  }

  /** `isModerator` */
  function IsModerator(roles: seq<string>): (r: bool)
    ensures r <==> "moderator" in roles
    ensures roles == [] ==> !r
  {
    HasRole(roles, Moderator)
  }

  /** The hook's state. `queries` records, in order, the user ids the roles
      table was queried with. A change of user does nothing to this state
      until the next fetch completes: `loading` is not raised again and
      earlier replies are not discarded. */
  class RoleResolver {
    var roles: seq<string>
    var loading: bool
    var queries: seq<string>

    constructor ()
      ensures roles == [] && loading && queries == []
    {
      roles, loading, queries := [], true, [];
    }

    /** `fetchRoles` for the current user, with the query's outcome passed in. */
    method FetchRoles(user: Option<User>, reply: RoleReply)
      modifies this
      ensures !loading
      ensures user.None? ==> roles == [] && queries == old(queries)
      ensures user.Some? ==> queries == old(queries) + [user.value.id]
      ensures user.Some? && !reply.Rows? ==> roles == []
      ensures user.Some? && reply.Rows? && reply.data.None? ==> roles == []
      ensures user.Some? && reply.Rows? && reply.data.Some? ==> roles == RoleColumn(reply.data.value)
      ensures (user.None? || !reply.Rows?) ==> !IsAdmin(roles) && !IsModerator(roles)
    {
      if user.None? {
        roles := [];
        loading := false;
        return;
      }
      queries := queries + [user.value.id];
      match reply {
        case QueryError(_) =>
          roles := [];
        case Thrown =>
          roles := [];
        case Rows(data) =>
          roles := if data.Some? then RoleColumn(data.value) else [];
      }
      loading := false;
    }
  }
}
