/** `Auth(...roles)` of src/auth/decorators/auth.decorator.ts: the role
    metadata it attaches to a route and the two guards it installs, run in
    order — the passport JWT guard (which calls `JwtStrategy.validate`) and
    then `JwtAuthGuard`. */
module AuthDecorator {
  import opened Wrappers
  import opened HttpErrors
  import opened UserEntity
  import opened JwtStrategy
  import opened JwtAuthGuard

  datatype GuardKind = PassportJwt | JwtAuth

  /** What a decorated route carries: its role list and its guards. */
  datatype RouteMetadata = RouteMetadata(roles: Option<seq<Role>>, guards: seq<GuardKind>)

  /** Message of the exception the framework throws when a guard resolves to
      false. */
  const DefaultForbiddenMessage: string := "Forbidden resource"

  /** `Auth(...roles)`: the role list is the argument list itself. */
  function Auth(roles: seq<Role>): (m: RouteMetadata)
    ensures m.roles == Some(roles) && m.guards == [PassportJwt, JwtAuth]
  {
    RouteMetadata(Some(roles), [PassportJwt, JwtAuth])
  }

  /** Run `guards` in order on a request whose bearer token decoded to `token`
      (`None` when passport-jwt refused the token: missing, badly signed or
      expired) against the table `rows`; `user` is `req.user` so far. A
      refused token is an Unauthorized, an exception of `validate` or of a
      guard ends the run with that exception, and a guard resolving to false
      is a Forbidden. */
  function RunGuards(guards: seq<GuardKind>, roles: Option<seq<Role>>, token: Option<Payload>,
                     rows: map<Id, User>, parseUuid: string -> Option<Id>, user: Option<UserView>): (r: GuardResult)
    ensures r != Returns(false)
    ensures guards == [] ==> r == Returns(true)
    ensures r.Throws? ==> r.error.Unauthorized? || r.error.Forbidden? || r.error.InternalServerError?
    ensures r == Returns(true) && PassportJwt in guards ==> token.Some?
    ensures guards != [] && guards[0] == PassportJwt && token.None? ==>
      r == Throws(Unauthorized(DefaultUnauthorizedMessage))
    decreases |guards|
  {
    if guards == [] then Returns(true)
    else
      match guards[0]
      case PassportJwt =>
        if token.None? then Throws(Unauthorized(DefaultUnauthorizedMessage))
        else
          (match Validate(token.value, rows, parseUuid)
           case Err(e) => Throws(e)
           case Ok(u) => RunGuards(guards[1..], roles, token, rows, parseUuid, Some(u)))
      case JwtAuth =>
        var g := CanActivate(user, roles);
        if g.Throws? then g
        else if g.allowed then RunGuards(guards[1..], roles, token, rows, parseUuid, user)
        else Throws(Forbidden(DefaultForbiddenMessage))
  }

  /** The decision for a request to a route: its guards, run from a request
      with no user attached yet. */
  function Authorize(route: RouteMetadata, token: Option<Payload>, rows: map<Id, User>, parseUuid: string -> Option<Id>): (r: GuardResult)
    ensures r != Returns(false)
    ensures route.guards == [] ==> r == Returns(true)
    ensures r == Returns(true) && PassportJwt in route.guards ==> token.Some?
  {
    RunGuards(route.guards, route.roles, token, rows, parseUuid, None)
  }

  /** The decision procedure for an `Auth(...roles)` route written out as one
      chain of checks: a decodable token, a truthy `userId` in uuid form
      whose uuid value names a stored user, a verified user, and an empty
      role list. */
  function AuthDecision(roles: seq<Role>, token: Option<Payload>, rows: map<Id, User>, parseUuid: string -> Option<Id>): GuardResult
  {
    if token.None? then Throws(Unauthorized(DefaultUnauthorizedMessage))
    else if Falsy(token.value.userId) then Throws(Unauthorized(TokenNotValidMessage))
    else if parseUuid(token.value.userId.value).None? then Throws(InternalServerError(UnhandledErrorMessage))
    else
      var id := parseUuid(token.value.userId.value).value;
      if id !in rows then Throws(Unauthorized(TokenNotValidMessage))
      else if !rows[id].verified then Throws(Unauthorized(NotVerifiedMessage))
      else if |roles| == 0 then Returns(true)
      else Throws(Forbidden(NeedsRoleMessage(rows[id].name)))
  }

  /** The two guards of `Auth(...roles)` decide exactly as the chain above. */
  lemma AuthRouteDecision(roles: seq<Role>, token: Option<Payload>, rows: map<Id, User>, parseUuid: string -> Option<Id>)
    ensures Authorize(Auth(roles), token, rows, parseUuid) == AuthDecision(roles, token, rows, parseUuid)
  {
  }

  /** Consequences for every `Auth(...roles)` route: a verified stored user
      passes exactly when the list is empty, the guard's own missing-user
      check never fires behind passport, and a non-empty list never passes. */
  lemma AuthRouteOutcomes(roles: seq<Role>, token: Option<Payload>, rows: map<Id, User>, parseUuid: string -> Option<Id>)
    ensures Authorize(Auth(roles), token, rows, parseUuid) == Returns(true) <==>
      && token.Some? && !Falsy(token.value.userId) && parseUuid(token.value.userId.value).Some?
      && parseUuid(token.value.userId.value).value in rows
      && rows[parseUuid(token.value.userId.value).value].verified && roles == []
    ensures token.Some? ==> Authorize(Auth(roles), token, rows, parseUuid) != Throws(Unauthorized(DefaultUnauthorizedMessage))
    ensures roles != [] ==> Authorize(Auth(roles), token, rows, parseUuid) != Returns(true)
  {
    AuthRouteDecision(roles, token, rows, parseUuid);
  }
}
