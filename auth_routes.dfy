/** The routes of src/auth/auth.controller.ts that carry `Auth(...)`, with
    the role lists they declare. */
module AuthRoutes {
  import opened Wrappers
  import opened UserEntity
  import opened JwtStrategy
  import opened JwtAuthGuard
  import opened AuthDecorator

  datatype Route = Route(verb: string, path: string, meta: RouteMetadata)

  /** The controller's guarded routes, in declaration order. */
  function ProtectedRoutes(): (routes: seq<Route>)
    ensures |routes| == 5
    ensures forall i :: 0 <= i < |routes| ==> routes[i].meta.guards == [PassportJwt, JwtAuth]
    ensures forall i :: 0 <= i < |routes| ==>
      routes[i].meta == (if routes[i].path == "validate" then Auth([]) else Auth([ADMIN]))
    ensures exists i :: 0 <= i < |routes| && routes[i].path == "validate"
  {
    var routes :=
      [ Route("GET", "/user/:id", Auth([ADMIN])),
        Route("GET", "validate", Auth([])),
        Route("DELETE", "/user/:id", Auth([ADMIN])),
        Route("GET", "access/logs", Auth([ADMIN])),
        Route("POST", "access/allow/:id", Auth([ADMIN])) ];
    assert routes[1].path == "validate";
    routes
  }

  /** Every route declared `Auth(ADMIN)` refuses every request, whatever the
      token and whoever the user. */
  lemma AdminRoutesRefuseEveryone(i: nat, token: Option<Payload>, rows: map<Id, User>, parseUuid: string -> Option<Id>)
    requires i < |ProtectedRoutes()| && ProtectedRoutes()[i].meta.roles == Some([ADMIN])
    ensures Authorize(ProtectedRoutes()[i].meta, token, rows, parseUuid).Throws?
  {
    AuthRouteOutcomes([ADMIN], token, rows, parseUuid);
  }

  /** `GET validate`, declared `Auth()`, admits exactly the verified stored
      users whose token names them by a spelling of their uuid. */
  lemma ValidateRouteAdmitsVerifiedUsers(i: nat, token: Option<Payload>, rows: map<Id, User>, parseUuid: string -> Option<Id>)
    requires i < |ProtectedRoutes()| && ProtectedRoutes()[i].path == "validate"
    ensures Authorize(ProtectedRoutes()[i].meta, token, rows, parseUuid) == Returns(true) <==>
      && token.Some? && !Falsy(token.value.userId) && parseUuid(token.value.userId.value).Some?
      && parseUuid(token.value.userId.value).value in rows
      && rows[parseUuid(token.value.userId.value).value].verified
  {
    AuthRouteOutcomes([], token, rows, parseUuid);
  }
}
