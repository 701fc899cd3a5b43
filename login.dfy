/** Where the login page sends a user once the credentials are checked. */
module Login {
  import opened Wrappers
  import opened Domain
  import opened Navigation
  import opened RouteGuard

  datatype LoginOutcome = Navigate(path: string) | ShowError(message: string)

  const LOGIN_FAILED := "Login failed. Please check your credentials."

  /** ADMIN and CEO land on the admin dashboard, the two managers on their own, anyone else on "/". */
  function Landing(success: bool, role: Option<string>): (o: LoginOutcome)
    ensures !success <==> o == ShowError(LOGIN_FAILED)
    ensures success && role.Some? && (role.value == "ADMIN" || role.value == "CEO") ==> o == Navigate("/admin-dashboard")
    ensures success && role == Some("WORKSHOP_MANAGER") ==> o == Navigate("/workshop-dashboard")
    ensures success && role == Some("SHOP_MANAGER") ==> o == Navigate("/shop-dashboard")
    ensures success && !(role.Some? && role.value in ["ADMIN", "CEO", "WORKSHOP_MANAGER", "SHOP_MANAGER"]) ==> o == Navigate("/")
  {
    if !success then ShowError(LOGIN_FAILED)
    else if role == Some("ADMIN") || role == Some("CEO") then Navigate("/admin-dashboard")
    else if role == Some("WORKSHOP_MANAGER") then Navigate("/workshop-dashboard")
    else if role == Some("SHOP_MANAGER") then Navigate("/shop-dashboard")
    else Navigate("/")
  }

  const DASHBOARDS: seq<MenuItem> := [ADMIN_DASHBOARD, WORKSHOP_DASHBOARD, SHOP_DASHBOARD]

  /**
   * After a successful login a user lands on a dashboard exactly when the
   * menu offers that dashboard to the user's role.
   */
  lemma LandingMatchesMenu(user: AuthUser, i: nat)
    requires i < |DASHBOARDS|
    ensures HasAccess(DASHBOARDS[i], Some(user)) <==> Landing(true, user.role) == Navigate(DASHBOARDS[i].path.value)
  {
  }

  /** A dashboard a user lands on also lets the user past a guard keyed to its roles. */
  lemma LandingPassesGuard(user: AuthUser, i: nat)
    requires i < |DASHBOARDS|
    requires Landing(true, user.role) == Navigate(DASHBOARDS[i].path.value)
    ensures Guard(Some(user), DASHBOARDS[i].roles) == RenderChildren
  {
    LandingMatchesMenu(user, i);
  }
}
