/**
 * The allow-or-redirect decision of src/routes/ProtectedRoute.tsx: a
 * required `role` that is truthy and differs from `userRole` sends the
 * visitor to the login page (replacing the history entry); otherwise the
 * protected children are rendered.
 */
module ProtectedRoute {
  import opened Wrappers
  import opened JsonValue
  import opened SessionModel

  datatype Outcome = RenderChildren | Redirect(to: string, replace: bool)

  const LoginPath: string := "/login"

  function Guard(role: Option<string>, userRole: Option<string>): (d: Outcome)
    ensures role.None? || role == Some("") ==> d == RenderChildren
    ensures role.Some? && role == userRole ==> d == RenderChildren
    ensures role.Some? && role.value != "" && role != userRole ==> d == Redirect(LoginPath, true)
  {
    if role.Some? && role.value != "" && role != userRole then Redirect(LoginPath, true)
    else RenderChildren
  }

  /** The intended access rule, stated on its own: allowed when no role is required or the required role is the user's. */
  predicate Allow(required: Option<string>, current: Option<string>) {
    required.None? || required == current
  }

  /**
   * The guard renders exactly when `Allow` holds, except that the empty
   * string, being falsy, also counts as "no role required".
   */
  lemma GuardAgreesWithAllow(role: Option<string>, userRole: Option<string>)
    ensures Guard(role, userRole).RenderChildren? <==> Allow(role, userRole) || role == Some("")
    ensures Guard(role, userRole).Redirect? ==> !Allow(role, userRole)
  {
  }

  /**
   * Logging in with a token whose claims carry role "ADMIN" opens a route that
   * requires "ADMIN"; after logging out the same route redirects to the login page.
   */
  lemma AdminScenario(p: Page, t: string, decode: Decoder)
    requires decode(t).Some? && RoleOf(decode(t).value) == Some("ADMIN")
    ensures Guard(Some("ADMIN"), RoleOf(LoginStep(p, t, decode).page.session.user)) == RenderChildren
    ensures Guard(Some("ADMIN"), RoleOf(LogoutStep(LoginStep(p, t, decode).page).session.user)) ==
              Redirect(LoginPath, true)
  {
  }
}
