/** `AuthService` of src/auth/auth.service.ts: `findOne` and `register` over
    the user repository. */
module AuthService {
  import opened Wrappers
  import opened HttpErrors
  import opened UserEntity
  import opened UserRepository
  import opened Strings

  /** The work factor `register` passes to the password hasher. */
  const BcryptSaltRounds: nat := 10

  /** The request body `register` receives. The declared DTO fields are
      `name`, `password` and `email`; the object spread also carries any other
      property the body held, of which `lastName` (a NOT NULL column) and
      `role` (a NOT NULL enum column with a default) decide what the insert
      does. */
  datatype RegisterBody = RegisterBody(
    name: string,
    password: string,
    email: string,
    lastName: Option<string>,
    role: RoleInput)

  /** `create({...dto, password: hash(dto.password, 10)})`: the body with its
      password replaced by the hash. */
  function RegistrationDraft(body: RegisterBody, hash: (string, nat) -> string): (d: Draft)
    ensures d.password == hash(body.password, BcryptSaltRounds)
    ensures d.name == body.name && d.email == body.email
    ensures d.lastName == body.lastName && d.role == body.role
  {
    Draft(body.name, body.lastName, hash(body.password, BcryptSaltRounds), body.email, body.role)
  }

  /** The saved entity after `delete user.password`: every column but the
      password, including the defaulted ones the insert wrote back. */
  function WithoutPassword(u: User): (v: UserView)
    ensures v.password.Absent?
    ensures v.verified == Present(u.verified) && v.deletedAt == Present(u.deletedAt)
    ensures v.id == u.id && v.email == u.email && v.role == u.role
  {
    Project(u, {VerifiedColumn, DeletedAtColumn})
  }

  /** The answer `register` gives loses only the password: two saved rows
      give the same answer exactly when they agree on every other column. */
  lemma WithoutPasswordKeepsAllButPassword(u1: User, u2: User)
    ensures WithoutPassword(u1) == WithoutPassword(u2) <==> u1.(password := u2.password) == u2
  {
  }

  function NotFoundMessage(id: string): string
  {
    "User with id '" + id + "' not found"
  }

  /** The NotFound message names the id that was looked for. */
  lemma {:induction false} NotFoundNamesId(id: string)
    ensures Includes(NotFoundMessage(id), id)
  {
    var m := NotFoundMessage(id);
    var p := "User with id '";
    assert m == p + id + "' not found";
    assert m[|p|..|p| + |id|] == id;
    assert OccursAt(m, id, |p|);
  }

  class AuthService {
    const repo: Repository

    ghost predicate Valid()
      reads repo
    {
      repo.Valid()
    }

    constructor (repo: Repository)
      requires repo.Valid()
      ensures this.repo == repo && Valid()
    {
      this.repo := repo;
    }

    /** `findOne(id)`: the stored user with that id, read with the default
        projection, or NotFound naming the id as given. The id column is a
        `uuid`: the database parses the parameter (`parseUuid`) and compares
        uuid values, so every spelling of a stored uuid finds its row, and
        text that is not a uuid makes the query fail with a 500. */
    function FindOne(id: string, parseUuid: string -> Option<Id>): (r: Result<UserView, HttpError>)
      reads repo
      ensures parseUuid(id).None? ==> r == Err(InternalServerError(UnhandledErrorMessage))
      ensures parseUuid(id).Some? && r.Err? ==> r.error == NotFound(NotFoundMessage(id))
      ensures Valid() ==>
        (r.Ok? <==> parseUuid(id).Some? && exists k :: k in repo.rows && repo.rows[k].id == parseUuid(id).value)
      ensures Valid() && r.Ok? ==>
        Some(r.value.id) == parseUuid(id) && r.value.password.Absent? && r.value.verified.Absent? &&
        exists u :: u in repo.rows.Values && r.value == DefaultRead(u)
    {
      match parseUuid(id)
      case None => Err(InternalServerError(UnhandledErrorMessage))
      case Some(uuid) =>
        match Lookup(repo.rows, uuid)
        case None => Err(NotFound(NotFoundMessage(id)))
        case Some(u) => Ok(DefaultRead(u))
    }

    /** `register(dto)`: hash the password, insert the row, and answer with
        the saved entity minus its password. Every refused insert, the
        duplicate email included, becomes a bare InternalServerError; the
        duplicate-email classifier is not consulted. `newId` is the uuid the
        database generates and `hash` is bcrypt. */
    method Register(body: RegisterBody, newId: Id, hash: (string, nat) -> string)
      returns (r: Result<UserView, HttpError>)
      requires Valid()
      modifies repo
      ensures Valid()
      ensures var draft := RegistrationDraft(body, hash);
        r.Ok? <==> Insert(old(repo.rows), draft, newId).Ok?
      ensures r.Ok? ==>
        && repo.rows == old(repo.rows)[newId := NewUser(newId, RegistrationDraft(body, hash))]
        && newId !in old(repo.rows)
        && repo.rows[newId].password == hash(body.password, BcryptSaltRounds)
        && !repo.rows[newId].verified
        && r.value == WithoutPassword(repo.rows[newId])
      ensures r.Err? ==>
        r.error == InternalServerError(DefaultInternalServerErrorMessage) && repo.rows == old(repo.rows)
    {
      var user := RegistrationDraft(body, hash);
      var saved := repo.Save(user, newId);
      match saved
      case Ok(row) =>
        r := Ok(WithoutPassword(row));
      case Err(_) =>
        r := Err(InternalServerError(DefaultInternalServerErrorMessage));
    }
  }
}
