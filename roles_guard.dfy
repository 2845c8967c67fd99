/** The role gate in front of the seller routes (`RolesGuard.canActivate`):
    a decision over the roles the route requires and the request's user. */
module RolesGuard {
  import opened Common

  /** `request.user` as the authentication strategy left it; `role` is
      `None` when the property is absent. */
  datatype RequestUser = RequestUser(userId: int, email: string, role: Option<string>)

  /** The user the JWT strategy builds from a token payload: its id and
      e-mail, and no role. */
  function FromJwtPayload(sub: int, email: string): (u: RequestUser)
    ensures u.userId == sub && u.email == email && u.role.None?
  {
    RequestUser(sub, email, None)
  }

  /** JavaScript truthiness of the user's role: absent and empty are falsy. */
  predicate HasRole(user: Option<RequestUser>) {
    user.Some? && user.value.role.Some? && user.value.role.value != ""
  }

  /** `canActivate`: allowed when the route declares no roles; otherwise
      Forbidden for a missing user or role, Forbidden naming the required
      roles when the user's role is not among them, and allowed when it is.
      The guard never answers `false`. */
  function CanActivate(required: Option<seq<string>>, user: Option<RequestUser>): (r: Result<bool>)
    ensures r.Ok? ==> r.value
    ensures required.None? ==> r == Ok(true)
    ensures required.Some? && !HasRole(user) ==> r == Err(MissingRole)
    ensures required.Some? && HasRole(user) ==>
              (r.Ok? <==> user.value.role.value in required.value)
    ensures r.Err? && HasRole(user) ==> r.error == RoleNotAllowed(required.value)
  {
    if required.None? then Ok(true)
    else if user.None? || user.value.role.None? || user.value.role.value == "" then Err(MissingRole)
    else if user.value.role.value !in required.value then Err(RoleNotAllowed(required.value))
    else Ok(true)
  }

  /** Access is granted exactly when no roles are required or the user
      holds one of them; every refusal is a Forbidden error. */
  lemma AllowedIff(required: Option<seq<string>>, user: Option<RequestUser>)
    ensures CanActivate(required, user) == Ok(true) <==>
              required.None? || (HasRole(user) && user.value.role.value in required.value)
    ensures CanActivate(required, user) != Ok(false)
  {
  }

  /** A user built by the JWT strategy carries no role, so every route that
      declares roles refuses it, whatever the roles are. */
  lemma JwtUserAlwaysForbidden(required: seq<string>, sub: int, email: string)
    ensures CanActivate(Some(required), Some(FromJwtPayload(sub, email))) == Err(MissingRole)
  {
  }

  /** A declared but empty role list lets nobody through. */
  lemma EmptyRoleListForbidsAll(user: Option<RequestUser>)
    ensures CanActivate(Some([]), user).Err?
  {
  }
}
