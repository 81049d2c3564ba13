/** `JwtStrategy.validate` of src/auth/strategies/jwt.strategy.ts: from the
    decoded token payload to the user attached to the request. */
module JwtStrategy {
  import opened Wrappers
  import opened HttpErrors
  import opened UserEntity

  /** The decoded `{userId}` payload; `None` when the property is missing. */
  datatype Payload = Payload(userId: Option<string>)

  const TokenNotValidMessage: string := "Token not valid"

  /** `!userId`: missing or the empty string. */
  predicate Falsy(userId: Option<string>)
  {
    userId.None? || userId.value == ""
  }

  /** `validate(payload)` against the table `rows`: reject a falsy `userId`,
      otherwise read the row with that id, selecting `verified` besides the
      default columns, and reject when there is none. The id column is a
      `uuid`: the database parses the parameter (`parseUuid`) and compares
      uuid values, so the row found carries the canonical spelling of the
      id, and text that is not a uuid makes the query fail with a 500. */
  function Validate(payload: Payload, rows: map<Id, User>, parseUuid: string -> Option<Id>): (r: Result<UserView, HttpError>)
    ensures Falsy(payload.userId) ==> r == Err(Unauthorized(TokenNotValidMessage))
    ensures !Falsy(payload.userId) && parseUuid(payload.userId.value).None? ==>
      r == Err(InternalServerError(UnhandledErrorMessage))
    ensures r.Err? && (Falsy(payload.userId) || parseUuid(payload.userId.value).Some?) ==>
      r.error == Unauthorized(TokenNotValidMessage)
    ensures r.Ok? ==>
      && payload.userId.Some? && parseUuid(payload.userId.value).Some?
      && r.value.password.Absent? && r.value.deletedAt.Absent?
      && (exists k :: k in rows && r.value == Project(rows[k], {VerifiedColumn}))
    ensures TableInvariant(rows) ==>
      (r.Ok? <==> && !Falsy(payload.userId) && parseUuid(payload.userId.value).Some?
                  && exists k :: k in rows && rows[k].id == parseUuid(payload.userId.value).value)
    ensures TableInvariant(rows) && r.Ok? ==>
      && payload.userId.Some? && parseUuid(payload.userId.value) == Some(r.value.id)
      && r.value.verified == Present(rows[r.value.id].verified)
  {
    if Falsy(payload.userId) then
      Err(Unauthorized(TokenNotValidMessage))
    else
      match parseUuid(payload.userId.value)
      case None => Err(InternalServerError(UnhandledErrorMessage))
      case Some(id) =>
        match Lookup(rows, id)
        case None => Err(Unauthorized(TokenNotValidMessage))
        case Some(u) => Ok(Project(u, {VerifiedColumn}))
  }

  /** A falsy `userId` is rejected without the table being read: the answer
      is the same whatever the table holds. */
  lemma FalsyUserIdIgnoresStore(payload: Payload, rows1: map<Id, User>, rows2: map<Id, User>, parseUuid: string -> Option<Id>)
    requires Falsy(payload.userId)
    ensures Validate(payload, rows1, parseUuid) == Validate(payload, rows2, parseUuid)
  {
  }

  /** Two spellings of one uuid (upper-case digits, braces, no hyphens) are
      the same token: they find the same user, or fail the same way. */
  lemma SpellingsOfOneUuidAgree(a: string, b: string, rows: map<Id, User>, parseUuid: string -> Option<Id>)
    requires a != "" && b != "" && parseUuid(a) == parseUuid(b)
    ensures Validate(Payload(Some(a)), rows, parseUuid) == Validate(Payload(Some(b)), rows, parseUuid)
  {
  }
}
