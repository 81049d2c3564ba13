/** The `User` entity of src/auth/entities/user.entity.ts: the stored record,
    the draft that `create` builds, the column defaults applied on insert,
    the read projection and the invariant that every stored table keeps. */
module UserEntity {
  import opened Wrappers

  datatype Role = USER | ADMIN

  /** A uuid, as the canonical text PostgreSQL prints for it (lower-case hex
      digits in hyphenated groups). */
  type Id = string

  /** The value of the soft-delete marker column. */
  type Timestamp = nat

  /** A stored row. The non-null text columns are plain strings; `deletedAt`
      is nullable. */
  datatype User = User(
    id: Id,
    name: string,
    lastName: string,
    password: string,
    email: string,
    role: Role,
    verified: bool,
    deletedAt: Option<Timestamp>)

  /** The `role` property of an object handed to `create`: missing, `null`,
      a member of the enum, or text naming no member of it. */
  datatype RoleInput = RoleMissing | RoleNull | RoleMember(role: Role) | RoleOther(text: string)

  /** The role the `role` column stores for an input: a missing property
      takes the column default USER; `null` breaks NOT NULL and text outside
      the enum is refused by the enum type, so neither stores a role. */
  function StoredRole(input: RoleInput): (r: Option<Role>)
    ensures input.RoleMissing? ==> r == Some(USER)
    ensures input.RoleMember? ==> r == Some(input.role)
    ensures r.None? <==> input.RoleNull? || input.RoleOther?
  {
    match input
    case RoleMissing => Some(USER)
    case RoleNull => None
    case RoleMember(role) => Some(role)
    case RoleOther(_) => None
  }

  /** The object `repository.create(...)` returns: the properties it was given
      and nothing else. A `lastName` that is missing or `null` is `None`; the
      column defaults are only applied when the row is inserted. */
  datatype Draft = Draft(
    name: string,
    lastName: Option<string>,
    password: string,
    email: string,
    role: RoleInput)

  /** The columns declared with `select: false`, which a read leaves out
      unless the query asks for them by name. */
  datatype Column = PasswordColumn | VerifiedColumn | DeletedAtColumn

  /** A property of a JavaScript object: missing altogether or present. */
  datatype Field<+T> = Absent | Present(value: T)

  /** A user as a read returns it. */
  datatype UserView = UserView(
    id: Id,
    name: string,
    lastName: string,
    email: string,
    role: Role,
    password: Field<string>,
    verified: Field<bool>,
    deletedAt: Field<Option<Timestamp>>)

  /** The row written for `draft` under the generated key `id`: a missing
      `role` falls back to USER, `verified` to false and `deletedAt` to null.
      A draft without `lastName` or without a storable role has no row (the
      insert is refused), so those fields are only read when they are there. */
  function NewUser(id: Id, draft: Draft): (u: User)
    requires draft.lastName.Some? && StoredRole(draft.role).Some?
    ensures u.id == id && u.name == draft.name && u.lastName == draft.lastName.value
    ensures u.password == draft.password && u.email == draft.email
    ensures draft.role.RoleMissing? ==> u.role == USER
    ensures draft.role.RoleMember? ==> u.role == draft.role.role
    ensures !u.verified && u.deletedAt.None?
  {
    User(id, draft.name, draft.lastName.value, draft.password, draft.email,
         StoredRole(draft.role).value, false, None)
  }

  /** A read of `u` that selects the hidden columns in `optIn`; the visible
      columns are always returned. */
  function Project(u: User, optIn: set<Column>): (v: UserView)
    ensures v.id == u.id && v.name == u.name && v.lastName == u.lastName
    ensures v.email == u.email && v.role == u.role
    ensures v.password == (if PasswordColumn in optIn then Present(u.password) else Absent)
    ensures v.verified == (if VerifiedColumn in optIn then Present(u.verified) else Absent)
    ensures v.deletedAt == (if DeletedAtColumn in optIn then Present(u.deletedAt) else Absent)
  {
    UserView(u.id, u.name, u.lastName, u.email, u.role,
             if PasswordColumn in optIn then Present(u.password) else Absent,
             if VerifiedColumn in optIn then Present(u.verified) else Absent,
             if DeletedAtColumn in optIn then Present(u.deletedAt) else Absent)
  }

  /** The read a plain `findOne` performs. */
  function DefaultRead(u: User): (v: UserView)
    ensures v.password.Absent? && v.verified.Absent? && v.deletedAt.Absent?
  {
    Project(u, {})
  }

  /** The default read reveals nothing of the hidden columns: two rows that
      differ only there read the same. */
  lemma DefaultReadHidesSecrets(u: User, password: string, verified: bool, deletedAt: Option<Timestamp>)
    ensures DefaultRead(u) == DefaultRead(u.(password := password, verified := verified, deletedAt := deletedAt))
  {
  }

  /** The table invariant: every row sits under its own primary key, and no
      two rows share an email (the `unique: true` column). The empty table
      keeps it, and under it no two rows share an id. */
  ghost predicate TableInvariant(rows: map<Id, User>): (b: bool)
    ensures rows == map[] ==> b
    ensures b ==> forall k1, k2 :: k1 in rows && k2 in rows && rows[k1].id == rows[k2].id ==> k1 == k2
  {
    && (forall k :: k in rows ==> rows[k].id == k)
    && (forall k1, k2 :: k1 in rows && k2 in rows && rows[k1].email == rows[k2].email ==> k1 == k2)
  }

  /** Some row of the table carries this email. */
  predicate EmailTaken(rows: map<Id, User>, email: string)
  {
    exists k :: k in rows && rows[k].email == email
  }

  /** `where id = :id`: the row whose primary key is `id`, if any. */
  function Lookup(rows: map<Id, User>, id: Id): (r: Option<User>)
    ensures r.Some? ==> r.value in rows.Values
    ensures TableInvariant(rows) ==>
      (r.Some? <==> exists k :: k in rows && rows[k].id == id) &&
      (r.Some? ==> r.value.id == id)
  {
    if id in rows then Some(rows[id]) else None
  }
}
