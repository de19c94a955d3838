/**
 * The guard component of frontend/src/components/ProtectedRoute.tsx. It
 * reads the session from the `getMe` query (still loading, or a user or none)
 * and the location being visited, and decides what to render.
 */
module ProtectedRoute {
  import opened Common

  /** The signed-in user as the front end sees it (`data.user` of `getMe`). */
  datatype SessionUser = SessionUser(name: string, email: string, role: Role)

  /** What the guard renders. */
  datatype Guarded =
    | Spinner                       // "Verifying access..."
    | ToLogin(from: seq<string>)    // <Navigate to="/login" state={{ from: location }} replace />
    | ToHome                        // <Navigate to="/" replace />
    | Children

  function Protect(loading: bool, user: Option<SessionUser>, role: Option<Role>, location: seq<string>): (r: Guarded)
    ensures loading ==> r == Spinner
    ensures !loading && user.None? ==> r == ToLogin(location)
    ensures r == ToHome <==> !loading && user.Some? && role.Some? && user.value.role != role.value
    ensures r == Children <==> !loading && user.Some? && (role.None? || user.value.role == role.value)
  {
    if loading then Spinner
    else if user.None? then ToLogin(location)
    else if role.Some? && user.value.role != role.value then ToHome
    else Children
  }

  /**
   * The guard's answer depends on the location only through the `from` it
   * carries to the login page: the same session gets the same decision for
   * every protected page.
   */
  lemma ProtectIgnoresLocation(loading: bool, user: Option<SessionUser>, role: Option<Role>, l1: seq<string>, l2: seq<string>)
    ensures Protect(loading, user, role, l1).ToLogin? <==> Protect(loading, user, role, l2).ToLogin?
    ensures !Protect(loading, user, role, l1).ToLogin? ==> Protect(loading, user, role, l1) == Protect(loading, user, role, l2)
  {
  }

  /** Without a required role the guard only asks for a session: every signed-in user sees the children. */
  lemma NoRoleAnyUser(user: SessionUser, location: seq<string>)
    ensures Protect(false, Some(user), None, location) == Children
  {
  }
}
