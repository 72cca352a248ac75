# Users service: error classification from storage to HTTP status

This project models the error-classification path of a small Go users
service. There are two pieces:

- The find-all use case (`allUseCase.FindAll`) calls the repository once. It
  turns the storage signal `sql.ErrNoRows`, plain or wrapped, into the domain
  error `users.ErrNotFound`. Every other outcome passes through unchanged.
- The OpenAPI adapter (`UsersApiService`) serves CreateUser, GetAllUsers and
  GetUserById. Each calls its use case, classifies the error with
  `errors.Is`, and returns a status, a body and the original error.

Modules:

- `Errors` (errors.dfy): Go error values as a closed datatype.
  - Constructors: the domain sentinels, `NoRows`, `Other(msg)` and
    `Wrapped(msg, inner)`. A nil error is `None`.
  - `Is` walks the wrap chain, as `errors.Is` does.
  - `KindOf` forgets every message and keeps only the kind at the root.
- `Users` (users.dfy): the `User` entity and Go slices. A nil slice is
  distinct from an empty one. Also the `(value, error)` pair and the
  repository port.
- `Finding` (finding.dfy): the find-all use case.
- `Server` (server.dfy): the adapter, plus reference decision tables written
  over error kinds alone. Lemmas tie each handler to its table and wire the
  adapter to the find-all use case.

Collaborators whose code is not part of this model are given as the answers
they produce, as function-valued fields:

- the repository;
- the create, find-all and find-by-id use cases.

A handler's contract therefore speaks of the very call it makes. For
example, CreateUser's error is `creatingService(dto.name, dto.firstname)`:
the arguments are the name and the firstname, in that order.

The code (internal/users/finding/all.go:28-30) returns an empty slice with a
nil error unchanged. The model has no empty-result-means-NotFound rule, and
`Server.EmptyStoreAnswers200` states this.

## Model

| member | source | states |
|---|---|---|
| `Errors.Root` | internal/users/finding/all.go:32 | the bottom of an error's wrap chain wraps nothing, and `errors.Is` matches the error against it |
| `Errors.Is` | internal/platform/server/openapi/api_users_service.go:37-39 | Go's `errors.Is`, as called here, at line 54, at line 72 and at all.go:32: `Is(e, t)` holds exactly when `t` occurs in the unwrap chain of `e`, both directions |
| `Errors.IsUnwrappedIffRoot` | internal/users/finding/all.go:32 | against a target that wraps nothing, `errors.Is` holds exactly when the chain's root is that target, so wrapping layers and their messages never matter |
| `Errors.IsSentinelIffKind` | internal/platform/server/openapi/api_users_service.go:54 | matching a sentinel with `errors.Is` is the same as comparing error kinds |
| `Errors.RootEndsChain` | internal/users/finding/all.go:32 | the root is the last element of the unwrap chain; `IsUnwrappedIffRoot` is derived from this and from `Is`'s contract |
| `Finding.FindAll` | internal/users/finding/all.go:26-37 | nil error exactly when the repository's error is nil; on nil, the repository's slice unchanged, even when empty; no-rows, plain or wrapped, gives exactly NotFound; any other error comes back unchanged; every error path returns the nil slice |
| `Finding.FindAllByKind` | internal/users/finding/all.go:28-36 | the reported error has the repository error's kind, except that the no-rows kind becomes NotFound |
| `Finding.FindAllHidesNoRows` | internal/users/finding/all.go:32-36 | no error FindAll reports is a no-rows signal |
| `Finding.FindAllIdempotent` | internal/users/finding/all.go:27-36 | over a repository that already answers like FindAll, FindAll gives the same answer again |
| `Server.CreateUser` | internal/platform/server/openapi/api_users_service.go:32-47 | the use case gets dto.Name then dto.Firstname; its error or nil is returned unchanged; the body is always nil; the status is always 201, 400 or 500; 201 exactly when the error is nil; 400 exactly when the error Is InvalidUserID, EmptyUserName or EmptyFirstname |
| `Server.GetAllUsers` | internal/platform/server/openapi/api_users_service.go:50-64 | status in {200, 404, 500}; on success 200, a body of exactly the returned users and a nil error; on failure a nil body and the original error; 200 exactly when the error is nil; 404 exactly when it Is NotFound |
| `Server.GetUserById` | internal/platform/server/openapi/api_users_service.go:67-80 | userId is passed through unchanged; status in {200, 404, 500}; on success 200 with the returned user and a nil error; on failure a nil body and the original error; 404 exactly when the error Is NotFound |
| `Server.CreateUserFollowsTable` | internal/platform/server/openapi/api_users_service.go:35-46 | CreateUser's status is the kind-only table: nil 201; invalid id, empty name or empty firstname 400; anything else, NotFound included, 500 |
| `Server.GetAllUsersFollowsTable` | internal/platform/server/openapi/api_users_service.go:52-63 | GetAllUsers' status is the kind-only table: nil 200, NotFound 404, anything else 500 |
| `Server.GetUserByIdFollowsTable` | internal/platform/server/openapi/api_users_service.go:70-79 | GetUserById's status is the kind-only table: nil 200, NotFound 404, anything else 500 |
| `Server.CreateStatusIgnoresMessages` | internal/platform/server/openapi/api_users_service.go:36-43 | two create errors of the same kind get the same status, whatever their messages and wrapping |
| `Server.GetAllUsersStatusIgnoresMessages` | internal/platform/server/openapi/api_users_service.go:53-58 | two find-all errors of the same kind get the same status |
| `Server.GetUserByIdStatusIgnoresMessages` | internal/platform/server/openapi/api_users_service.go:71-76 | two find-by-id errors of the same kind get the same status |
| `Server.GetAllUsersOverRepository` | internal/platform/server/openapi/api_users_service.go:51-63 | GetAllUsers over the find-all use case (all.go:26-37) answers by the repository's error kind. Nil gives 200 with the repository's own slice. No-rows gives 404 with NotFound reported. NotFound gives 404 with the repository's error. Anything else gives 500 with the repository's error |
| `Server.RepositoryNoRowsAnswers404` | internal/users/finding/all.go:32-34 | a repository no-rows signal, plain or wrapped, makes GetAllUsers answer 404 |
| `Server.EmptyStoreAnswers200` | internal/users/finding/all.go:28-30 | an empty slice with a nil error from the repository gives 200 with an empty list, not 404 |

## Left out

- The request context (`ctx`) is passed through to collaborators and never inspected. It is not modelled, so cancellation is not modelled either.
- Finding.FindAll: the "exactly once" of the repository call is not stated as a count. A Dafny function cannot observe how often a collaborator is called. FindAll applies the repository's find-all answer once by construction, and the use case holds no state besides the repository.
- The create and find-by-id use cases, with their validation rules, are not part of this model. Their answers are inputs.
- `UsersToUserDtos` and `UserToUserDto` are not part of this model. A success body records the value handed to them.
- `Response` is not part of this model. It is taken to build `ImplResponse{Code, Body}` from its two arguments.
- `NewUsersApiService` and `NewFindAllUsersUseCase` only store their arguments. The datatype constructors `UsersApiService` and `AllUseCase` stand for them.
- `errors.Is` is modelled for single-error wrapping only. Custom `Is` methods and multi-error wrapping (`errors.Join`) are not modelled, and the service does not use them.
- Errors compare structurally: two `Other` errors with the same message are equal, whereas Go compares pointers. The service only ever matches against sentinels, where the two agree.
- The repository's Save and FindById appear only as fields of the port, because the use cases that call them are not part of this model.
- Process lifecycle is not modelled, because it is I/O and concurrency plumbing with no decision logic. This covers:
  - environment and YAML configuration;
  - opening the MySQL connection;
  - the two HTTP servers started on goroutines;
  - the interrupt wait and the timed graceful shutdown;
  - the health and documentation endpoints;
  - router construction.
