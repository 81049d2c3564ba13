/** `JwtAuthGuard.canActivate` of src/auth/guards/jwt-auth.guard.ts. */
module JwtAuthGuard {
  import opened Wrappers
  import opened HttpErrors
  import opened UserEntity

  /** What `canActivate` does: resolve to a boolean, or throw. */
  datatype GuardResult = Returns(allowed: bool) | Throws(error: HttpError)

  const NotVerifiedMessage: string := "Usuario no verificado. Confirma tu email."

  function NeedsRoleMessage(name: string): string
  {
    "User " + name + " needs a valid role"
  }

  /** `usuario.verified` is truthy: the property is present and true. */
  predicate IsVerified(u: UserView)
  {
    u.verified == Present(true)
  }

  /** `!validRolesString || validRolesString.length === 0`. */
  predicate NoRolesRequired(validRoles: Option<seq<Role>>)
  {
    validRoles.None? || |validRoles.value| == 0
  }

  /** The guard, over `req.user` and the route's role metadata. The checks run
      in order: a user, then a verified user, then an empty role list. The
      user's role is never compared with the list, so a non-empty list is a
      Forbidden for everyone, ADMIN included. */
  function CanActivate(user: Option<UserView>, validRoles: Option<seq<Role>>): (r: GuardResult)
    ensures r != Returns(false)
    ensures user.None? ==> r == Throws(Unauthorized(DefaultUnauthorizedMessage))
    ensures user.Some? && !IsVerified(user.value) ==> r == Throws(Unauthorized(NotVerifiedMessage))
    ensures r == Returns(true) <==> user.Some? && IsVerified(user.value) && NoRolesRequired(validRoles)
    ensures user.Some? && IsVerified(user.value) && !NoRolesRequired(validRoles) ==>
      r == Throws(Forbidden(NeedsRoleMessage(user.value.name)))
    ensures r.Throws? ==> r.error.Unauthorized? || r.error.Forbidden?
  {
    if user.None? then Throws(Unauthorized(DefaultUnauthorizedMessage))
    else if !IsVerified(user.value) then Throws(Unauthorized(NotVerifiedMessage))
    else if NoRolesRequired(validRoles) then Returns(true)
    else Throws(Forbidden(NeedsRoleMessage(user.value.name)))
  }

  /** The user's role plays no part in the decision. */
  lemma RoleIsNeverInspected(user: UserView, role: Role, validRoles: Option<seq<Role>>)
    ensures CanActivate(Some(user), validRoles) == CanActivate(Some(user.(role := role)), validRoles)
  {
  }

  /** A verified ADMIN on a route that requires ADMIN is still refused. */
  lemma AdminOnAdminRouteIsForbidden(user: UserView)
    requires IsVerified(user) && user.role == ADMIN
    ensures CanActivate(Some(user), Some([ADMIN])) == Throws(Forbidden(NeedsRoleMessage(user.name)))
  {
  }
}
