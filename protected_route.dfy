/** What the `ProtectedRoute` component renders, given the auth slice's
    state, its own `isChecking` flag and its props. */
module ProtectedRoute {
  import opened Wrappers
  import AuthSlice

  datatype Role = AdminRole | UserRole

  /** The prop `requiredRole`, which defaults to `'user'`. */
  function EffectiveRole(requiredRole: Option<Role>): Role {
    requiredRole.GetOr(UserRole)
  }

  /** The render outcomes. `Fallback` is the caller's `fallback` node, shown when it is truthy. */
  datatype View = Fallback | Spinner | Nothing | AccessDenied(rol: string) | Children

  predicate IsLoadingView(v: View) {
    v == Fallback || v == Spinner
  }

  /** The component's return value. */
  function Render(
    isLoading: bool, isChecking: bool, isAuthenticated: bool, user: Option<AuthSlice.User>,
    requiredRole: Option<Role>, hasFallback: bool): (v: View)
    ensures IsLoadingView(v) <==> isLoading || isChecking
    ensures v == Fallback <==> (isLoading || isChecking) && hasFallback
    ensures v == Nothing <==> !isLoading && !isChecking && (!isAuthenticated || user.None?)
    ensures v.AccessDenied? <==>
      !isLoading && !isChecking && isAuthenticated && user.Some? &&
      requiredRole == Some(AdminRole) && user.value.rol != "admin"
    ensures v.AccessDenied? ==> v.rol == user.value.rol
    ensures v == Children <==>
      !isLoading && !isChecking && isAuthenticated && user.Some? &&
      (requiredRole != Some(AdminRole) || user.value.rol == "admin")
  {
    if isLoading || isChecking then (if hasFallback then Fallback else Spinner)
    else if !isAuthenticated || user.None? then Nothing
    else if EffectiveRole(requiredRole) == AdminRole && user.value.rol != "admin" then AccessDenied(user.value.rol)
    else Children
  }

  /** With the default role, every authenticated user with a record sees the children. */
  lemma DefaultRoleAdmitsAnyUser(user: AuthSlice.User)
    ensures Render(false, false, true, Some(user), None, false) == Children
    ensures Render(false, false, true, Some(user), Some(UserRole), true) == Children
  {
  }
}
