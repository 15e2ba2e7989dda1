/** The access decision of src/components/auth/ProtectedRoute.tsx: what a
    guarded page shows for the current session and the route's role
    requirements. */
module ProtectedRoute {
  import opened Common
  import AuthContext

  /** The four things a guarded route can render. */
  datatype Outcome = Spinner | RedirectToLogin | RedirectHome | RenderChildren

  /** The decision chain, in order: loading, then signed out, then the admin
      requirement, then the host requirement. `role` is the signed-in user's
      role, absent when nobody is signed in. */
  function Decide(loading: bool, role: Option<Role>, requireHost: bool, requireAdmin: bool): (o: Outcome)
    ensures loading ==> o == Spinner
    ensures !loading && role.None? ==> o == RedirectToLogin
    ensures o == RenderChildren <==>
              && !loading && role.Some?
              && (requireAdmin ==> role.value == Admin)
              && (requireHost ==> role.value in {Host, Admin})
    ensures o == RedirectHome <==>
              && !loading && role.Some?
              && ((requireAdmin && role.value != Admin) || (requireHost && role.value !in {Host, Admin}))
  {
    if loading then Spinner
    else if role.None? then RedirectToLogin
    else if requireAdmin && role.value != Admin then RedirectHome
    else if requireHost && role.value !in {Host, Admin} then RedirectHome
    else RenderChildren
  }

  /** A guest never gets past a host-only route, and only an admin gets past
      an admin-only one. */
  lemma RoleRequirements(loading: bool, role: Option<Role>, requireHost: bool, requireAdmin: bool)
    ensures requireHost && role == Some(Guest) ==> Decide(loading, role, requireHost, requireAdmin) != RenderChildren
    ensures requireAdmin && role != Some(Admin) ==> Decide(loading, role, requireHost, requireAdmin) != RenderChildren
  {
  }

  /** An admin passes every route once the session is loaded; with no role
      requirement every signed-in user does. */
  lemma AdminPassesEverything(requireHost: bool, requireAdmin: bool, r: Role)
    ensures Decide(false, Some(Admin), requireHost, requireAdmin) == RenderChildren
    ensures Decide(false, Some(r), false, false) == RenderChildren
  {
  }

  /** `logout` dispatches only `LOGOUT`, which restores `initialState` with
      its loading flag set, and nothing clears that flag until the next
      start-up: every guarded page shows the spinner, not the login
      redirect, after a sign-out. The guard imports `src/contexts/AuthContext`;
      it is taken to read the same context as
      `client/src/contexts/AuthContext.tsx`, whose reducer is modelled in
      `AuthContext`. */
  lemma LogoutLeavesSpinner(s: AuthContext.AuthState, requireHost: bool, requireAdmin: bool)
    ensures var r := AuthContext.Reduce(s, AuthContext.Logout);
      && r.user.None?
      && Decide(r.loading, None, requireHost, requireAdmin) == Spinner
      && Decide(false, None, requireHost, requireAdmin) == RedirectToLogin
  {
    AuthContext.LogoutForgetsEverything(s, s);
  }
}
