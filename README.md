# Authentication core of qr_app_server, modelled in Dafny

This project models the request-authentication core of a NestJS server. It
covers five things:

- the passport JWT strategy, which turns a decoded `{userId}` payload into
  the user attached to the request;
- `JwtAuthGuard`, which allows the request, throws Unauthorized, or throws
  Forbidden;
- the `Auth(...roles)` decorator, which puts the two guards in front of a route;
- `AuthService.findOne` and `AuthService.register` over the `users` table;
- the database-error classifier `handleDbError` and the validation rules of
  the request bodies (`CreateUserDto`, `LoginUserDto`,
  `RequestPasswordEmailDto`, `ResetPasswordDto`).

Modules follow the source files:

| module | contents |
|---|---|
| `UserEntity` | the `User` row, the draft `create` builds, column defaults, read projection, table invariant |
| `UserRepository` | the table as a `Repository` class over `map<Id, User>`, with `Save` specified by the pure `Insert` |
| `AuthService` | class `AuthService` with `FindOne` (read-only) and `Register` (changes the repository) |
| `JwtStrategy` | `Validate` |
| `JwtAuthGuard` | `CanActivate` |
| `AuthDecorator` | `Auth`, the two guards run in order (`RunGuards`), and the same decision written as one chain of checks (`AuthDecision`) |
| `AuthRoutes` | the controller routes that carry `Auth(...)` |
| `Strings` | `Includes`, JavaScript's `String.prototype.includes` |
| `HandleDbError` | `HandleDbError` |
| `ClassValidator`, `CreateUserDto`, `LoginUserDto`, `ResetPasswordDto` | the validation decorators, as the set of violations a validation run reports |

Modelling choices:

- `Option.None` is an input property that is null or missing (a
  payload's `userId`, an error's `detail`, a draft's `lastName`).
- A draft's `role` is a `RoleInput`, because the column tells the cases
  apart. A missing property takes the column default USER. An explicit
  `null` breaks NOT NULL. Text naming no member of the enum is refused by
  the enum type. `StoredRole` says which role, if any, is stored.
- `Field.Absent` is a column that a read does not return.
- A read selects the `select: false` columns (`password`, `verified`,
  `deletedAt`) only when it names them: `Project(u, optIn)`.
  - `findOne` uses the default projection `Project(u, {})`.
  - `validate` selects `verified` as well.
  - `register` returns the saved entity with its password deleted.
- The database's generated uuid is the parameter `newId`.
- bcrypt is the function-typed parameter `hash(plaintext, rounds)`.
- The `IsEmail` format rule is the parameter `isEmail`.
- PostgreSQL's uuid input is the parameter `parseUuid`. It gives the
  canonical text of the uuid a string spells, or `None` for text that is
  no uuid. Stored ids are canonical text.
  - The id column is a `uuid`, so the database compares uuid values:
    upper-case digits, braces or missing hyphens find the same row, and the
    row comes back with its canonical id.
  - A lookup by text that is not a uuid makes the query fail. That failure
    is not an HTTP exception, so the framework answers it with a 500
    "Internal server error".
- JWT decoding happens before the model starts. Its result is an
  `Option<Payload>`, where `None` means passport-jwt refused the token.
- The bodies `register` receives are the declared DTO fields plus the two
  extra properties that the object spread carries into the entity. These
  are `lastName`, a NOT NULL column the DTO does not declare, and `role`,
  whose column has a default.
- `register` is modelled only for bodies that passed validation, so
  `password` is a string. `hashSync` runs before the `try`. A non-string
  password would make it throw there, and the framework would answer with
  its own 500 "Internal server error", not with `register`'s converted
  error.

Behaviour kept exactly as the code has it:

- `JwtAuthGuard` never compares the user's role with the route's role list.
  A non-empty list means Forbidden for everybody. So every `Auth(ADMIN)`
  route in the controller refuses every request (`AdminRoutesRefuseEveryone`).
- `register` turns every refused insert, a duplicate email included, into a
  bare InternalServerError. It never calls `handleDbError`.
- `handleDbError` maps any detail text containing "already exists" to the
  duplicate-email message. That includes a primary-key conflict
  (`UniqueViolationIsReadAsDuplicateEmail`).
- handle-db-error.ts exists to turn an "already exists" detail into a
  BadRequest, but `register` never calls it. A duplicate email therefore
  reaches the client as a 500, not as the duplicate-email message.

## Model

| member | source | states |
|---|---|---|
| `Strings.Includes` | src/common/helpers/handle-db-error.ts:4 | the substring test is true exactly when `sub` occurs in `s` at some index, whatever that index is |
| `HandleDbError.HandleDbError` | src/common/helpers/handle-db-error.ts:3-7 | throws exactly when the error and its `detail` exist and the detail contains "already exists"; what it throws is BadRequest with the duplicate-email message; a null error or a missing detail returns normally |
| `HandleDbError.MarkerAnywhere` | src/common/helpers/handle-db-error.ts:4-5 | the marker is recognised at any position in the detail, not only as a prefix |
| `HandleDbError.NoMarkerReturns` | src/common/helpers/handle-db-error.ts:4-7 | a detail without the marker returns normally |
| `UserEntity.StoredRole` | src/auth/entities/user.entity.ts:29-30 | a missing role stores the default USER, an enum member stores itself, and `null` or text outside the enum stores nothing |
| `UserEntity.NewUser` | src/auth/entities/user.entity.ts:14-42 | an inserted row keeps the draft's values under the generated id; a missing `role` gives USER and a given member is kept; `verified` is false and `deletedAt` is null |
| `UserEntity.Project` | src/auth/entities/user.entity.ts:23-42 | a read returns every visible column unchanged, and each `select: false` column exactly when the query names it |
| `UserEntity.DefaultRead` | src/auth/entities/user.entity.ts:23-42 | `password`, `verified` and `deletedAt` are absent from the default read |
| `UserEntity.DefaultReadHidesSecrets` | src/auth/entities/user.entity.ts:23-42 | two rows differing only in the hidden columns give the same default read |
| `UserEntity.TableInvariant` | src/auth/entities/user.entity.ts:14-27 | every row sits under its own primary key and no two rows share an email; the empty table keeps it, and under it no two rows share an id |
| `UserEntity.Lookup` | src/auth/strategies/jwt.strategy.ts:29 | the lookup `where id = :id`, given the parameter's uuid value, finds a stored row; under the table invariant it finds one exactly when some row has that id, and the row it finds has that id |
| `UserRepository.Insert` | src/auth/entities/user.entity.ts:14-33 | an insert succeeds exactly when `lastName` is present, the role is missing or an enum member, the generated id is unused and no row has the email; it then yields the defaulted row; role text outside the enum is an invalid enum value, a missing `lastName` or a `null` role a NOT NULL violation on that column, and a taken email a unique violation on `email` |
| `UserRepository.InsertKeepsInvariant` | src/auth/entities/user.entity.ts:14-27 | a successful insert keeps ids and emails unique, adds exactly one row and leaves every other row unchanged |
| `UserRepository.DuplicateEmailRefused` | src/auth/entities/user.entity.ts:26-27 | after a row with email e is inserted, a second insert with email e is refused with a unique violation on `email` |
| `UserRepository.UniqueViolationDetail` | src/common/helpers/handle-db-error.ts:4 | the detail text of a unique violation, in PostgreSQL's form, names the column and the value and contains "already exists" |
| `UserRepository.UniqueViolationIsReadAsDuplicateEmail` | src/common/helpers/handle-db-error.ts:4-5 | the classifier reads a unique violation's detail on any column, the id included, as the duplicate-email BadRequest |
| `UserRepository.Repository.Save` | src/auth/auth.service.ts:40 | save inserts the draft as `Insert` decides; on success the table gains exactly that row, and on refusal it is unchanged; the table invariant is kept |
| `AuthService.RegistrationDraft` | src/auth/auth.service.ts:34-37 | the entity `register` creates has the password replaced by `hash(password, 10)`; the other properties are carried over from the body |
| `AuthService.WithoutPassword` | src/auth/auth.service.ts:41-42 | the value `register` returns has no password field, but has the defaulted `verified` and `deletedAt` columns |
| `AuthService.WithoutPasswordKeepsAllButPassword` | src/auth/auth.service.ts:40-42 | `register`'s answer loses only the password: two saved rows give the same answer exactly when they agree on every other column |
| `AuthService.NotFoundNamesId` | src/auth/auth.service.ts:26 | the NotFound message contains the id that was looked for |
| `AuthService.AuthService.FindOne` | src/auth/auth.service.ts:23-30 | reads the store and changes nothing; a non-uuid id is a 500; a uuid with no row means NotFound naming the id as given; under the table invariant it succeeds exactly when the id spells a uuid that a stored user has, and returns that user's default read (its id the canonical form of the given one, no password, no verified) |
| `AuthService.AuthService.Register` | src/auth/auth.service.ts:32-47 | succeeds exactly when the insert does; then the table is the old one plus one new row with verified false and `hash(password, 10)` as password, and the result is that row without the password; any failure is InternalServerError with the table unchanged |
| `JwtStrategy.Validate` | src/auth/strategies/jwt.strategy.ts:21-35 | a missing or empty `userId` gives Unauthorized "Token not valid"; a non-uuid `userId` is a 500; every other failure is Unauthorized "Token not valid"; under the table invariant it succeeds exactly when the id spells a uuid that a stored user has, and returns that user with `verified` and without password or deletedAt, its id the canonical form of the payload's |
| `JwtStrategy.SpellingsOfOneUuidAgree` | src/auth/strategies/jwt.strategy.ts:26-30 | two non-empty spellings of the same uuid give the same result: the same user, or the same refusal |
| `JwtStrategy.FalsyUserIdIgnoresStore` | src/auth/strategies/jwt.strategy.ts:22-24 | a falsy `userId` is rejected without the store being read: the result does not depend on the table |
| `JwtAuthGuard.CanActivate` | src/auth/guards/jwt-auth.guard.ts:16-35 | never resolves to false; no user gives Unauthorized; an unverified user gives Unauthorized "not verified" whatever the roles; allows exactly a verified user on a route with no or an empty role list; a verified user on a non-empty list gets Forbidden; only Unauthorized or Forbidden is thrown |
| `JwtAuthGuard.RoleIsNeverInspected` | src/auth/guards/jwt-auth.guard.ts:32-34 | changing the user's role never changes the guard's outcome |
| `JwtAuthGuard.AdminOnAdminRouteIsForbidden` | src/auth/guards/jwt-auth.guard.ts:32-34 | a verified ADMIN on a route requiring ADMIN gets Forbidden |
| `AuthDecorator.Auth` | src/auth/decorators/auth.decorator.ts:7-11 | the role list is exactly the argument list (`Auth()` gives the empty list), and the guards are passport-jwt then `JwtAuthGuard` |
| `AuthDecorator.RunGuards` | src/auth/decorators/auth.decorator.ts:10 | the guards run in order; none resolves to false; no guards means allowed; a refused token is Unauthorized; what is thrown is only Unauthorized, Forbidden or a 500; passing a passport guard needs a decoded token |
| `AuthDecorator.Authorize` | src/auth/decorators/auth.decorator.ts:7-11 | a request to a route is decided by that route's guards starting with no user; it never resolves to false, and on a route with the passport guard it allows only a decoded token |
| `AuthDecorator.AuthRouteDecision` | src/auth/decorators/auth.decorator.ts:7-11 | the two guards of an `Auth(...roles)` route decide exactly as the single chain: token decodes, then userId is non-empty, then spells a uuid (else 500), then that uuid names a stored user, then verified, then empty role list |
| `AuthDecorator.AuthRouteOutcomes` | src/auth/decorators/auth.decorator.ts:7-11 | on an `Auth(...)` route a request passes exactly when its token names a verified stored user by a spelling of its uuid and the list is empty; the guard's missing-user branch never fires behind a decoded token; a non-empty list never passes |
| `AuthRoutes.ProtectedRoutes` | src/auth/auth.controller.ts:29-85 | the controller's five guarded routes all carry passport-jwt then `JwtAuthGuard`; each is `Auth(ADMIN)`, except `validate`, which is `Auth()`; a `validate` route is among them |
| `AuthRoutes.AdminRoutesRefuseEveryone` | src/auth/auth.controller.ts:29-88 | every controller route declared `Auth(RolesEnum.ADMIN)` throws for every request |
| `AuthRoutes.ValidateRouteAdmitsVerifiedUsers` | src/auth/auth.controller.ts:50-55 | the route with path `validate`, declared `Auth()`, admits exactly the requests whose token names a verified stored user by a spelling of its uuid |
| `ClassValidator.Holds` | src/auth/dto/create-user.dto.ts:4-15 | every decorator rejects a value that is not a string, so only a string can pass any of them |
| `ClassValidator.LengthIsMinAndMax` | src/auth/dto/reset-password.dto.ts:9-11 | `Length(lo, hi)` accepts exactly what `MinLength(lo)` and `MaxLength(hi)` accept together |
| `ClassValidator.PropertyViolations` | src/auth/dto/create-user.dto.ts:4-15 | one property's violations are exactly its decorators that fail on the value; there are none exactly when every decorator holds |
| `CreateUserDto.Violations` | src/auth/dto/create-user.dto.ts:3-16 | every violation names one of the three declared properties and one of that property's own decorators |
| `CreateUserDto.LengthRulesMeanBounds` | src/auth/dto/create-user.dto.ts:4-12 | `name` and `password` are accepted exactly when they are strings of length 4 to 60, both bounds included |
| `CreateUserDto.ValidIff` | src/auth/dto/create-user.dto.ts:3-16 | the body is valid exactly when name, password and email (`IsEmail`) each pass; each property's violations depend on that property alone |
| `CreateUserDto.NonStringNameFailsEveryRule` | src/auth/dto/create-user.dto.ts:4-7 | a non-string name violates IsString, MinLength and MaxLength at once |
| `LoginUserDto.Violations` | src/auth/dto/login-user.dto.ts:3-11 | every violation names `email` or `password` and one of that property's own decorators |
| `LoginUserDto.ValidIff` | src/auth/dto/login-user.dto.ts:3-11 | the login body is valid exactly when the email passes `IsEmail` and the password is a string of length 1 to 256; the empty password violates MinLength |
| `LoginUserDto.RegistrationPasswordPassesLogin` | src/auth/dto/login-user.dto.ts:7-10 | every password registration accepts is accepted at login |
| `ResetPasswordDto.RequestViolations` | src/auth/dto/reset-password.dto.ts:3-6 | the only violation a reset request can have is `IsEmail` on `email` |
| `ResetPasswordDto.ResetViolations` | src/auth/dto/reset-password.dto.ts:8-15 | every violation names `newPassword` or `token` and one of that property's own decorators |
| `ResetPasswordDto.RequestValidIff` | src/auth/dto/reset-password.dto.ts:3-6 | the reset request is valid exactly when its email passes `IsEmail` |
| `ResetPasswordDto.ResetValidIff` | src/auth/dto/reset-password.dto.ts:8-15 | the reset body is valid exactly when the new password has length 4 to 60 and the token is any string, the empty one included |
| `ResetPasswordDto.NewPasswordBoundsMatchRegistration` | src/auth/dto/reset-password.dto.ts:9-11 | the new-password rules accept exactly the passwords registration accepts |

## Left out

- JWT signing, verification and expiry (passport-jwt and the JWT module with the environment secret). The decoded payload, or the refusal, is an input. Its `userId` is taken to be a string or missing; a truthy non-string would reach the query and fail as non-uuid text (a 500), and a falsy one would be refused as "Token not valid".
- bcrypt internals: its random salt, its slowness and its constant-time comparison. `hash` is an uninterpreted parameter.
- AuthService.AuthService.Register: "never stores the plaintext" is stated as "stores `hash(password, 10)`". With an uninterpreted hasher, nothing says the hash differs from its input.
- The relational store: the table is a map keyed by primary key.
  - Other columns' constraints and the PostgreSQL not-null detail text are not modelled.
  - The order of the checks (enum text, then NOT NULL in column order, then primary key, then email) is a modelling choice.
  - The unique-violation detail has the PostgreSQL form `Key (col)=(val) already exists.`.
- PostgreSQL's uuid input syntax itself: `parseUuid` is a parameter. Nothing ties the generated `newId` to it; it is taken to be canonical text, as generated ids are.
- The enum's labels: src/auth/enums/roles.enum.ts is not part of this model, so role text is taken as already classified into a member of the enum or other text (`RoleInput`).
- Non-string `detail`s: `handleDbError` takes `any`. A truthy `detail` that is not a string would make `.includes` throw a TypeError, or, for an array, test element membership. The model takes `detail` to be a string or missing, which is what the PostgreSQL driver supplies.
- Soft-delete filtering of reads, and timestamps. `deletedAt` exists only as a column that reads hide. No operation here sets it.
- The service methods the controller calls that this service does not define: `findOneBy`, `verifyEmail`, `requestPasswordEmail`, `resetPassword`, `deleteOneById`, `getAccessLogs`, `allowAccess`. Also `login`, which is an empty stub.
- Outbound email (src/mail), HTTP routing and module wiring, logging (including `register`'s logging of the request body), and async plumbing.
- The password-reset entity, the access-log entity and the set-new-password DTO. They hold data only.
- The `passwordResets` and `accessLogs` relations of `User`.
- The role-metadata decorator file `role-protected.decorator.ts` is not part of this model. `Auth` is taken to store its arguments unchanged as the role list.
- The application bootstrap is not part of this model either, so the validation pipe's options (whitelisting or rejecting unknown properties) are unknown.
  - `register` bodies are assumed to carry no `id` or `verified` property.
  - Besides the declared DTO fields, they may carry `lastName` and `role`.
- The `IsEmail` format rules, and UTF-16 code units versus code points in lengths. Length is `|s|`.
- Non-null columns: the NOT NULL constraints of `name`, `lastName`, `password`, `email` and `role` are carried by the types. A `User` has plain fields, and a draft without `lastName` or with a `null` role is refused by `Insert`.
