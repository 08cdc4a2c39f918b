/** The dashboard gate: before rendering a dashboard, an anonymous visitor is sent
    to the login page and a signed-in user of another role to their own dashboard. */
module Layout {
  import opened ListOps
  import opened Session

  datatype Outcome = Redirect(to: string) | Render

  /** Each role's home dashboard. */
  function DashboardPath(r: Role): string
  {
    match r
    case Author => "/author-dashboard"
    case Reviewer => "/reviewer-dashboard"
    case Admin => "/admin-dashboard"
  }

  /** The decision taken from (`isAuthenticated`, `role`, `requiredRole`). A signed-in
      session without a role falls through every redirect and renders. */
  function Gate(isAuthenticated: bool, role: Option<Role>, requiredRole: Option<Role>): (o: Outcome)
    ensures !isAuthenticated ==> o == Redirect("/")
    ensures isAuthenticated && requiredRole.Some? && role.Some? && role != requiredRole ==>
              o == Redirect(DashboardPath(role.value))
    ensures isAuthenticated && (requiredRole.None? || role == requiredRole) ==> o == Render
    ensures isAuthenticated && role.None? ==> o == Render
  {
    if !isAuthenticated then Redirect("/")
    else if requiredRole.Some? && role != requiredRole then
      match role
      case Some(r) => Redirect(DashboardPath(r))
      case None => Render
    else Render
  }

  /** No redirect loop: a user sent away from another role's dashboard lands on one
      that renders for them. */
  lemma RedirectSettles(role: Role, requiredRole: Option<Role>)
    ensures Gate(true, Some(role), requiredRole).Redirect? ==>
              Gate(true, Some(role), requiredRole).to == DashboardPath(role) &&
              Gate(true, Some(role), Some(role)) == Render
  {
  }

  /** The decision as a function of the session store: after logout every dashboard
      redirects to `/`, and a successful login as role `r` opens `r`'s dashboard. */
  lemma GateOnSession(s: SessionStore, requiredRole: Option<Role>)
    requires s.Valid()
    ensures s.user.None? ==> Gate(s.IsAuthenticated(), s.role, requiredRole) == Redirect("/")
    ensures s.user.Some? ==>
              Gate(s.IsAuthenticated(), s.role, Some(s.user.value.role)) == Render
  {
  }
}
