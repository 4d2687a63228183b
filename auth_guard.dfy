/**
 * The route guard (`AuthGuard`) and its three presets: a decision over the
 * guard's props and the session's `isAuthenticated` and `user`, made once in
 * the redirect effect and once in the render.
 */
module AuthGuard {
  import opened Wrappers
  import opened TodoTypes

  /** The props; `requireAuth` defaults to true and `requireAdmin` to false. */
  datatype GuardProps = GuardProps(requireAuth: bool, requireAdmin: bool, redirectTo: Option<string>)

  /** What the guard reads from the session store; how the flag is derived is not assumed. */
  datatype SessionView = SessionView(isAuthenticated: bool, user: Option<User>)

  const LoginPath := "/auth/login"
  const DashboardPath := "/dashboard"
  const AdminPath := "/admin"

  /** `user?.role === 'ADMIN'`. */
  predicate IsAdmin(v: SessionView) {
    v.user.Some? && v.user.value.role == Some(ADMIN)
  }

  /** `redirectTo || '/auth/login'`: an absent or empty target falls back to the login page. */
  function LoginTarget(redirectTo: Option<string>): string {
    if redirectTo.None? || redirectTo.value == "" then LoginPath else redirectTo.value
  }

  /** The redirect the effect issues, if any; the first matching rule wins. */
  function Redirect(props: GuardProps, v: SessionView): (r: Option<string>)
    ensures r.Some? ==> r.value == LoginTarget(props.redirectTo) || r.value in {DashboardPath, AdminPath}
  {
    if props.requireAuth && !v.isAuthenticated then Some(LoginTarget(props.redirectTo))
    else if props.requireAdmin && (!v.isAuthenticated || !IsAdmin(v)) then Some(DashboardPath)
    else if !props.requireAuth && v.isAuthenticated then Some(if IsAdmin(v) then AdminPath else DashboardPath)
    else None
  }

  /** Whether the render returns the children (rather than `null`). */
  predicate RendersChildren(props: GuardProps, v: SessionView) {
    && !(props.requireAuth && !v.isAuthenticated)
    && !(props.requireAdmin && (!v.isAuthenticated || !IsAdmin(v)))
    && !(!props.requireAuth && v.isAuthenticated)
  }

  /** The render and the effect agree: children show exactly when no redirect is issued. */
  lemma RenderAgreesWithEffect(props: GuardProps, v: SessionView)
    ensures RendersChildren(props, v) <==> Redirect(props, v).None?
  {
  }

  /** Without authentication where it is required, the target is `redirectTo`, else the login page. */
  lemma UnauthenticatedTarget(props: GuardProps, v: SessionView)
    requires props.requireAuth && !v.isAuthenticated
    ensures Redirect(props, v) == Some(if props.redirectTo.Some? && props.redirectTo.value != "" then props.redirectTo.value else "/auth/login")
  {
  }

  const ProtectedRoute := GuardProps(true, false, None)
  const AdminRoute := GuardProps(true, true, None)
  const GuestRoute := GuardProps(false, false, None)

  /** `ProtectedRoute` admits every authenticated session, whatever the role, and sends others to login. */
  lemma ProtectedRouteDecision(v: SessionView)
    ensures v.isAuthenticated ==> RendersChildren(ProtectedRoute, v) && Redirect(ProtectedRoute, v).None?
    ensures !v.isAuthenticated ==> Redirect(ProtectedRoute, v) == Some("/auth/login")
  {
  }

  /**
   * `AdminRoute` sends an unauthenticated session to the login page (the
   * first rule wins), an authenticated non-admin to the dashboard, and
   * admits an authenticated admin.
   */
  lemma AdminRouteDecision(v: SessionView)
    ensures !v.isAuthenticated ==> Redirect(AdminRoute, v) == Some("/auth/login")
    ensures v.isAuthenticated && !IsAdmin(v) ==> Redirect(AdminRoute, v) == Some("/dashboard")
    ensures v.isAuthenticated && IsAdmin(v) ==> RendersChildren(AdminRoute, v)
  {
  }

  /**
   * `GuestRoute` sends an authenticated admin to `/admin`, any other
   * authenticated session to `/dashboard`, and renders for a guest.
   */
  lemma GuestRouteDecision(v: SessionView)
    ensures v.isAuthenticated && IsAdmin(v) ==> Redirect(GuestRoute, v) == Some("/admin")
    ensures v.isAuthenticated && !IsAdmin(v) ==> Redirect(GuestRoute, v) == Some("/dashboard")
    ensures !v.isAuthenticated ==> RendersChildren(GuestRoute, v) && Redirect(GuestRoute, v).None?
  {
  }

  /** A guest page and a protected page never both render for the same session. */
  lemma GuestAndProtectedExclusive(v: SessionView)
    ensures !(RendersChildren(GuestRoute, v) && RendersChildren(ProtectedRoute, v))
    ensures RendersChildren(GuestRoute, v) || RendersChildren(ProtectedRoute, v)
  {
  }
}
