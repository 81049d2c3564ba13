/** The database-error classifier of src/common/helpers/handle-db-error.ts. */
module HandleDbError {
  import opened Wrappers
  import opened HttpErrors
  import opened Strings

  /** The part of a thrown database error the classifier looks at: its
      optional `detail` text. */
  datatype DbErrorObject = DbErrorObject(detail: Option<string>)

  /** What a call of the helper does: return normally, or throw. */
  datatype Outcome = Returns | Throws(error: HttpError)

  const DuplicateMarker: string := "already exists"
  const DuplicateEmailMessage: string := "El email ya está registrado"

  /** `handleDbError(error)`: a BadRequest with the duplicate-email message
      when `error?.detail?.includes('already exists')` holds, and a normal
      return otherwise, including for a null error and an error without
      `detail`. */
  function HandleDbError(error: Option<DbErrorObject>): (r: Outcome)
    ensures r.Throws? <==>
      error.Some? && error.value.detail.Some? &&
      exists i :: OccursAt(error.value.detail.value, DuplicateMarker, i)
    ensures r.Throws? ==> r.error == BadRequest(DuplicateEmailMessage)
    ensures error.None? || error.value.detail.None? ==> r == Returns
  {
    if error.Some? && error.value.detail.Some? && Includes(error.value.detail.value, DuplicateMarker) then
      Throws(BadRequest(DuplicateEmailMessage))
    else
      Returns
  }

  /** The marker is recognised wherever it stands in the detail text, not only
      at its start. */
  lemma {:induction false} MarkerAnywhere(prefix: string, suffix: string)
    ensures HandleDbError(Some(DbErrorObject(Some(prefix + DuplicateMarker + suffix))))
         == Throws(BadRequest(DuplicateEmailMessage))
  {
    var d := prefix + DuplicateMarker + suffix;
    assert d[|prefix|..|prefix| + |DuplicateMarker|] == DuplicateMarker;
    assert OccursAt(d, DuplicateMarker, |prefix|);
  }

  /** A detail text without the marker leaves the helper returning normally. */
  lemma NoMarkerReturns(detail: string)
    requires forall i :: !OccursAt(detail, DuplicateMarker, i)
    ensures HandleDbError(Some(DbErrorObject(Some(detail)))) == Returns
  {
  }
}
