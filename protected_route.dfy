/**
 * The route guard (src/components/ProtectedRoute.jsx): from the auth state
 * (still loading, signed in, the profile if one was loaded) and the roles a
 * route admits, decide between a spinner, a redirect and the guarded page.
 */
module ProtectedRoute {
  import opened Wrappers
  import opened Roles

  const LoginPath: string := "/login"
  const UnauthorizedPath: string := "/unauthorized"

  datatype Decision = Spinner | RedirectTo(path: string) | RenderChildren

  /** The guard's checks in source order; `allowedRoles` defaults to the empty list. */
  function Decide(loading: bool, isAuthenticated: bool, profile: Option<Profile>, allowedRoles: seq<string>): (d: Decision)
    ensures d.RedirectTo? ==> d.path == LoginPath || d.path == UnauthorizedPath
  {
    if loading then Spinner
    else if !isAuthenticated then RedirectTo(LoginPath)
    else if profile.Some? && !IsTruthy(profile.value.isActive) then RedirectTo(UnauthorizedPath)
    else if |allowedRoles| > 0 && (profile.None? || profile.value.role !in allowedRoles) then RedirectTo(UnauthorizedPath)
    else RenderChildren
  }

  /** While the auth state loads, only the spinner shows. */
  lemma LoadingShowsSpinner(isAuthenticated: bool, profile: Option<Profile>, allowedRoles: seq<string>)
    ensures Decide(true, isAuthenticated, profile, allowedRoles) == Spinner
  {
  }

  /** Not signed in sends to the login page, before the active and role checks are looked at. */
  lemma UnauthenticatedGoesToLogin(profile: Option<Profile>, allowedRoles: seq<string>)
    ensures Decide(false, false, profile, allowedRoles) == RedirectTo(LoginPath)
  {
  }

  /** A loaded profile whose `is_active` is falsy is sent away even when its role is admitted. */
  lemma InactiveGoesToUnauthorized(p: Profile, allowedRoles: seq<string>)
    requires !IsTruthy(p.isActive)
    ensures Decide(false, true, Some(p), allowedRoles) == RedirectTo(UnauthorizedPath)
  {
  }

  /** With a non-empty list of admitted roles, no profile or a role outside the list is sent away. */
  lemma RoleOutsideListGoesToUnauthorized(profile: Option<Profile>, allowedRoles: seq<string>)
    requires |allowedRoles| > 0
    requires profile.None? || profile.value.role !in allowedRoles
    ensures Decide(false, true, profile, allowedRoles) == RedirectTo(UnauthorizedPath)
  {
  }

  /** The page renders exactly when every check passes. */
  lemma RendersExactlyWhen(loading: bool, isAuthenticated: bool, profile: Option<Profile>, allowedRoles: seq<string>)
    ensures Decide(loading, isAuthenticated, profile, allowedRoles) == RenderChildren
        <==> !loading && isAuthenticated
             && (profile.None? || IsTruthy(profile.value.isActive))
             && (|allowedRoles| == 0 || (profile.Some? && profile.value.role in allowedRoles))
  {
  }

  /** With no role list, every signed-in user gets the page, even one whose profile is missing. */
  lemma EmptyListAdmitsAnySignedIn(profile: Option<Profile>)
    requires profile.None? || IsTruthy(profile.value.isActive)
    ensures Decide(false, true, profile, []) == RenderChildren
    ensures Decide(false, true, None, []) == RenderChildren
  {
  }

  /**
   * The guard tests truthiness where the role rules test `=== true`: a profile
   * whose `is_active` is a truthy non-boolean passes the guard, yet no rule
   * grants it its role.
   */
  lemma GuardLooserThanRoleRules(p: Profile)
    requires p.isActive == Other(true)
    ensures Decide(false, true, Some(p), [p.role]) == RenderChildren
    ensures !HasRole(Some(p), p.role)
  {
  }
}
