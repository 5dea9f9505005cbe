/**
 * CustomAuthorizationFilter.OnAuthorization: the role filter the
 * [CustomAuthorize(role)] attribute puts in front of an action. The request's
 * principal is reduced to whether it is authenticated and the value of its
 * first role claim, if any; the filter either sets a 401/403 result or lets
 * the request proceed.
 */
module Authorization {
  import opened Common

  const SessionExpired: string := "Your session expired..kindly login"
  const PermissionDenied: string := "You do not have permission to access this resource !!"

  /** What the filter reads of HttpContext.User. */
  datatype Principal = Principal(authenticated: bool, roleClaim: Option<string>)

  /** The filter either leaves context.Result unset or sets it, with the same
      code as HTTP status and as ApiResponse status. */
  datatype Decision = Proceed | Deny(status: int, message: string)

  /** OnAuthorization for a filter constructed with `requiredRole`. */
  function OnAuthorization(requiredRole: string, user: Principal): (d: Decision)
    // an unauthenticated request gets 401, whatever its role claim
    ensures !user.authenticated ==> d == Deny(401, SessionExpired)
    // an authenticated one proceeds exactly when its role claim is the required role
    ensures user.authenticated ==> (d == Proceed <==> user.roleClaim == Some(requiredRole))
    ensures user.authenticated && user.roleClaim != Some(requiredRole) ==> d == Deny(403, PermissionDenied)
  {
    if !user.authenticated then Deny(401, SessionExpired)
    else if user.roleClaim != Some(requiredRole) then Deny(403, PermissionDenied)
    else Proceed
  }

  /** The authentication check comes first: an unauthenticated request
      carrying the required role is still refused with 401, not let through. */
  lemma AuthenticationFirst(requiredRole: string)
    ensures OnAuthorization(requiredRole, Principal(false, Some(requiredRole))) == Deny(401, SessionExpired)
    ensures OnAuthorization(requiredRole, Principal(true, Some(requiredRole))) == Proceed
  {
  }

  /** A token without a role claim never passes the filter. */
  lemma MissingRoleDenied(requiredRole: string, authenticated: bool)
    ensures OnAuthorization(requiredRole, Principal(authenticated, None)).Deny?
  {
  }

  /** The only way through the filter: authenticated, with exactly the role. */
  lemma ProceedOnlyWithRole(requiredRole: string, user: Principal)
    ensures OnAuthorization(requiredRole, user) == Proceed <==> user.authenticated && user.roleClaim == Some(requiredRole)
    ensures OnAuthorization(requiredRole, user).Deny? ==> OnAuthorization(requiredRole, user).status in {401, 403}
  {
  }

  /** The comparison is ordinal: a claim differing only in case is refused. */
  lemma RoleComparisonIsExact()
    ensures OnAuthorization("admin", Principal(true, Some("Admin"))) == Deny(403, PermissionDenied)
  {
  }
}
