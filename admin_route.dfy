/** The guard in front of admin-only views: a pure decision over the two
    loading flags, the user and the admin flag. */
module AdminRouteGuard {
  import opened Base
  import opened Provider
  import UseRoles

  /** The warning logged on the way out. */
  datatype Warning = UnauthorizedAttempt | AccessDenied(userId: string)

  datatype Decision = ShowLoading | Redirect(to: string, warning: Warning) | RenderChildren

  function AdminRoute(authLoading: bool, rolesLoading: bool, user: Option<User>, isAdmin: bool): (d: Decision)
    ensures authLoading || rolesLoading ==> d == ShowLoading
    ensures d == ShowLoading <==> authLoading || rolesLoading
    ensures d == Redirect("/login", UnauthorizedAttempt) <==> !authLoading && !rolesLoading && user.None?
    ensures d.Redirect? && d.to == "/dashboard" <==> !authLoading && !rolesLoading && user.Some? && !isAdmin
    ensures d.Redirect? && d.to == "/dashboard" ==> d.warning == AccessDenied(user.value.id)
    ensures d == RenderChildren <==> !authLoading && !rolesLoading && user.Some? && isAdmin
  {
    if authLoading || rolesLoading then ShowLoading
    else if user.None? then Redirect("/login", UnauthorizedAttempt)
    else if !isAdmin then Redirect("/dashboard", AccessDenied(user.value.id))
    else RenderChildren
  }

  /** Fed by a role fetch that failed, whatever the user, the guard never
      renders the admin view. */
  method GuardAfterFailedFetch(resolver: UseRoles.RoleResolver, authLoading: bool, user: Option<User>,
                               reply: UseRoles.RoleReply) returns (d: Decision)
    requires !reply.Rows?
    modifies resolver
    ensures d != RenderChildren
  {
    resolver.FetchRoles(user, reply);
    d := AdminRoute(authLoading, resolver.loading, user, UseRoles.IsAdmin(resolver.roles));
  }

  /** A fresh role hook reports loading, so the guard waits rather than
      deciding on its still-empty role list. */
  method GuardBeforeFirstFetch(authLoading: bool, user: Option<User>) returns (d: Decision)
    ensures d == ShowLoading
  {
    var resolver := new UseRoles.RoleResolver();
    d := AdminRoute(authLoading, resolver.loading, user, UseRoles.IsAdmin(resolver.roles));
  }

  /** As written, the role hook's first fetch runs at mount, before the
      authentication hook knows the user, and clears `loading` with no
      roles. When the user then arrives, the guard decides before the roles
      are fetched again, and an admin is sent to `/dashboard`. */
  method AdminRedirectedBeforeRolesArrive(admin: User) returns (d: Decision)
    ensures d == Redirect("/dashboard", AccessDenied(admin.id))
  {
    var resolver := new UseRoles.RoleResolver();
    resolver.FetchRoles(None, UseRoles.Rows(Some([UseRoles.RoleRow("admin")])));
    d := AdminRoute(false, resolver.loading, Some(admin), UseRoles.IsAdmin(resolver.roles));
  }

  /** As written, a reply for the previous user is committed after the user
      changed: the resolver neither raises `loading` on the change nor checks
      whose roles arrived, so the next user passes the guard on the previous
      user's admin row. */
  method StaleReplyAdmitsNextUser(previous: User, next: User) returns (d: Decision)
    ensures d == RenderChildren
  {
    var resolver := new UseRoles.RoleResolver();
    resolver.FetchRoles(Some(previous), UseRoles.Rows(Some([UseRoles.RoleRow("admin")])));
    assert "admin" in resolver.roles by {
      assert resolver.roles[0] == "admin";
    }
    d := AdminRoute(false, resolver.loading, Some(next), UseRoles.IsAdmin(resolver.roles));
  }
}
