/** The `users` table behind the ORM repository, as a map from primary key to
    row. `Save` inserts one draft; the database refuses a draft that breaks a
    NOT NULL column, the primary key or the unique email column. */
module UserRepository {
  import opened Wrappers
  import opened UserEntity
  import HandleDbError
  import HttpErrors
  import Strings

  /** Why the database refused an insert. */
  datatype DbError =
    | InvalidEnumValue(text: string)
    | NotNullViolation(column: string)
    | UniqueViolation(column: string, value: string)

  /** The `detail` text PostgreSQL attaches to a unique violation. */
  function UniqueViolationDetail(column: string, value: string): (d: string)
    ensures Strings.OccursAt(d, column, 5)
    ensures Strings.OccursAt(d, value, |column| + 8)
    ensures Strings.OccursAt(d, HandleDbError.DuplicateMarker, |column| + |value| + 10)
  {
    "Key (" + column + ")=(" + value + ") already exists."
  }

  /** The outcome of inserting `draft` under the generated key `newId` into
      `rows`: the new row, or what refuses it. A role text outside the enum
      fails when the parameter is read, before any constraint; then come the
      NOT NULL columns in declaration order, the primary key and the email. */
  function Insert(rows: map<Id, User>, draft: Draft, newId: Id): (r: Result<User, DbError>)
    ensures r.Ok? <==>
      draft.lastName.Some? && StoredRole(draft.role).Some? && newId !in rows && !EmailTaken(rows, draft.email)
    ensures r.Ok? ==> r.value == NewUser(newId, draft)
    ensures draft.role.RoleOther? ==> r == Err(InvalidEnumValue(draft.role.text))
    ensures !draft.role.RoleOther? && draft.lastName.None? ==> r == Err(NotNullViolation("lastName"))
    ensures draft.lastName.Some? && draft.role.RoleNull? ==> r == Err(NotNullViolation("role"))
    ensures draft.lastName.Some? && StoredRole(draft.role).Some? && newId !in rows && EmailTaken(rows, draft.email) ==>
      r == Err(UniqueViolation("email", draft.email))
  {
    if draft.role.RoleOther? then Err(InvalidEnumValue(draft.role.text))
    else if draft.lastName.None? then Err(NotNullViolation("lastName"))
    else if draft.role.RoleNull? then Err(NotNullViolation("role"))
    else if newId in rows then Err(UniqueViolation("id", newId))
    else if EmailTaken(rows, draft.email) then Err(UniqueViolation("email", draft.email))
    else Ok(NewUser(newId, draft))
  }

  /** A successful insert keeps the table invariant and adds exactly one row,
      leaving every other row as it was. */
  lemma InsertKeepsInvariant(rows: map<Id, User>, draft: Draft, newId: Id)
    requires TableInvariant(rows)
    requires Insert(rows, draft, newId).Ok?
    ensures var u := Insert(rows, draft, newId).value;
      && TableInvariant(rows[newId := u])
      && |rows[newId := u]| == |rows| + 1
      && (forall k :: k in rows ==> k in rows[newId := u] && rows[newId := u][k] == rows[k])
  {
  }

  /** Inserting a second draft with an email already registered is refused
      by the unique email column, whoever inserts it. */
  lemma {:induction false} DuplicateEmailRefused(rows: map<Id, User>, first: Draft, firstId: Id, second: Draft, secondId: Id)
    requires Insert(rows, first, firstId).Ok?
    requires second.email == first.email && second.lastName.Some? && StoredRole(second.role).Some?
    requires secondId != firstId
    requires secondId !in rows
    ensures Insert(rows[firstId := Insert(rows, first, firstId).value], second, secondId)
         == Err(UniqueViolation("email", first.email))
  {
    var rows' := rows[firstId := Insert(rows, first, firstId).value];
    assert rows'[firstId].email == second.email;
    assert EmailTaken(rows', second.email);
  }

  /** The classifier of handle-db-error.ts turns every unique violation into
      the duplicate-email BadRequest, whichever column it was on. */
  lemma UniqueViolationIsReadAsDuplicateEmail(column: string, value: string)
    ensures HandleDbError.HandleDbError(Some(HandleDbError.DbErrorObject(Some(UniqueViolationDetail(column, value)))))
         == HandleDbError.Throws(HttpErrors.BadRequest(HandleDbError.DuplicateEmailMessage))
  {
  }

  /** The repository: the live contents of the table. */
  class Repository {
    var rows: map<Id, User>

    ghost predicate Valid()
      reads this
    {
      TableInvariant(rows)
    }

    constructor ()
      ensures Valid() && rows == map[]
    {
      rows := map[];
    }

    /** `save(entity)` for a new entity: insert the draft, or leave the table
        untouched and report the refused constraint. */
    method Save(draft: Draft, newId: Id) returns (r: Result<User, DbError>)
      requires Valid()
      modifies this
      ensures Valid()
      ensures r == Insert(old(rows), draft, newId)
      ensures r.Ok? ==> rows == old(rows)[newId := r.value]
      ensures r.Err? ==> rows == old(rows)
    {
      r := Insert(rows, draft, newId);
      if r.Ok? {
        InsertKeepsInvariant(rows, draft, newId);
        rows := rows[newId := r.value];
      }
    }
  }
}
