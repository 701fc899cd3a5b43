/** The route guard: who may see a protected page. */
module RouteGuard {
  import opened Wrappers
  import opened Domain
  import opened Navigation

  datatype GuardOutcome = RedirectToLogin | RedirectToHome | RenderChildren

  /** The user's role is one of the allowed ones (`allowedRoles.includes(user.role)`). */
  predicate RoleAllowed(user: AuthUser, allowed: seq<string>)
  {
    user.role.Some? && user.role.value in allowed
  }

  /**
   * `ProtectedRoute`: no user goes to the login page; with `allowedRoles`
   * given, a user whose role is not listed goes home; anyone else sees the page.
   */
  function Guard(user: Option<AuthUser>, allowedRoles: Option<seq<string>>): (o: GuardOutcome)
    ensures o == RedirectToLogin <==> user.None?
    ensures o == RedirectToHome <==> user.Some? && allowedRoles.Some? && !RoleAllowed(user.value, allowedRoles.value)
    ensures o == RenderChildren <==> user.Some? && (allowedRoles.None? || RoleAllowed(user.value, allowedRoles.value))
  {
    if user.None? then RedirectToLogin
    else if allowedRoles.Some? && !RoleAllowed(user.value, allowedRoles.value) then RedirectToHome
    else RenderChildren
  }

  /**
   * For a user with a role, guarding a page by a menu entry's roles lets the
   * user in exactly when the menu offers that entry.
   */
  lemma GuardAgreesWithMenu(item: MenuItem, user: Option<AuthUser>)
    requires HasRole(user)
    ensures Guard(user, item.roles) == RenderChildren <==> HasAccess(item, user)
  {
  }

  /**
   * Signed out, the two differ on unrestricted entries: the menu would offer
   * them, the guard still sends the visitor to the login page.
   */
  lemma SignedOutAlwaysToLogin(item: MenuItem)
    ensures Guard(None, item.roles) == RedirectToLogin
    ensures item.roles.None? ==> HasAccess(item, None)
  {
  }
}
