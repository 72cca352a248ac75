/** Package `server` (the OpenAPI adapter): `UsersApiService` calls one use case
    per endpoint and classifies the use case's error into an HTTP status. */
module Server {
  import opened Errors
  import opened Users
  import Finding

  const StatusOK := 200
  const StatusCreated := 201
  const StatusBadRequest := 400
  const StatusNotFound := 404
  const StatusInternalServerError := 500

  /** The request payload of CreateUser. */
  datatype UserDto = UserDto(name: string, firstname: string)

  /** A response body. A success body records the value handed to the DTO
      conversion (`UsersToUserDtos`, `UserToUserDto`), which this model leaves
      uninterpreted. */
  datatype Body =
    | NilBody
    | AllUsersBody(all: Slice<User>)   // GetAllUsers200Response{Users: UsersToUserDtos(all)}
    | UserBody(user: User)             // UserToUserDto(user)

  datatype ImplResponse = ImplResponse(code: int, body: Body)

  /** What a handler returns: the response and the error handed to the
      transport layer. */
  datatype Answer = Answer(response: ImplResponse, err: Option<Error>)

  /** `UsersApiService`: the three use cases it was built with, given as the
      answers they produce. The datatype constructor plays the part of
      `NewUsersApiService`, which only stores its arguments. */
  datatype UsersApiService = UsersApiService(
    creatingService: (string, string) -> Option<Error>,
    findAllService: () -> Outcome<Slice<User>>,
    findByIdService: string -> Outcome<User>)

  function Response(code: int, body: Body): ImplResponse
  {
    ImplResponse(code, body)
  }

  /** The errors CreateUser reports as a bad request. */
  predicate IsValidationError(e: Error)
  {
    Is(e, InvalidUserID) || Is(e, EmptyUserName) || Is(e, EmptyFirstname)
  }

  /** `UsersApiService.CreateUser`. */
  function CreateUser(s: UsersApiService, dto: UserDto): (r: Answer)
    // the use case's error, or nil, is handed back unchanged
    ensures r.err == s.creatingService(dto.name, dto.firstname)
    ensures r.response.body == NilBody
    ensures r.response.code in {StatusCreated, StatusBadRequest, StatusInternalServerError}
    ensures r.response.code == StatusCreated <==> r.err.None?
    ensures r.response.code == StatusBadRequest <==> r.err.Some? && IsValidationError(r.err.value)
  {
    var err := s.creatingService(dto.name, dto.firstname);
    if err.Some? then
      if IsValidationError(err.value) then
        Answer(Response(StatusBadRequest, NilBody), err)
      else
        Answer(Response(StatusInternalServerError, NilBody), err)
    else
      Answer(Response(StatusCreated, NilBody), err)
  }

  /** `UsersApiService.GetAllUsers`. */
  function GetAllUsers(s: UsersApiService): (r: Answer)
    ensures r.response.code in {StatusOK, StatusNotFound, StatusInternalServerError}
    // success: 200 with exactly the users the use case returned, and a nil error
    ensures s.findAllService().err.None? ==>
      r == Answer(ImplResponse(StatusOK, AllUsersBody(s.findAllService().value)), None)
    // failure: no body and the original error
    ensures s.findAllService().err.Some? ==>
      r.response.body == NilBody && r.err == s.findAllService().err
    ensures r.response.code == StatusOK <==> s.findAllService().err.None?
    ensures r.response.code == StatusNotFound <==>
      s.findAllService().err.Some? && Is(s.findAllService().err.value, NotFound)
  {
    var found := s.findAllService();
    if found.err.Some? then
      if Is(found.err.value, NotFound) then
        Answer(Response(StatusNotFound, NilBody), found.err)
      else
        Answer(Response(StatusInternalServerError, NilBody), found.err)
    else
      Answer(Response(StatusOK, AllUsersBody(found.value)), None)
  }

  /** `UsersApiService.GetUserById`. */
  function GetUserById(s: UsersApiService, userId: string): (r: Answer)
    ensures r.response.code in {StatusOK, StatusNotFound, StatusInternalServerError}
    // success: 200 with the user the use case returned for this very id
    ensures s.findByIdService(userId).err.None? ==>
      r == Answer(ImplResponse(StatusOK, UserBody(s.findByIdService(userId).value)), None)
    // failure: no body and the original error
    ensures s.findByIdService(userId).err.Some? ==>
      r.response.body == NilBody && r.err == s.findByIdService(userId).err
    ensures r.response.code == StatusOK <==> s.findByIdService(userId).err.None?
    ensures r.response.code == StatusNotFound <==>
      s.findByIdService(userId).err.Some? && Is(s.findByIdService(userId).err.value, NotFound)
  {
    var found := s.findByIdService(userId);
    if found.err.Some? then
      if Is(found.err.value, NotFound) then
        Answer(Response(StatusNotFound, NilBody), found.err)
      else
        Answer(Response(StatusInternalServerError, NilBody), found.err)
    else
      Answer(Response(StatusOK, UserBody(found.value)), None)
  }

  // Reference decision tables, written over error kinds alone.

  /** The status CreateUser should answer for a use-case error of kind `k`. */
  function CreateStatusTable(k: Option<Kind>): int
  {
    match k
    case None => StatusCreated
    case Some(InvalidUserIDKind) => StatusBadRequest
    case Some(EmptyUserNameKind) => StatusBadRequest
    case Some(EmptyFirstnameKind) => StatusBadRequest
    case Some(_) => StatusInternalServerError
  }

  /** The status a read endpoint should answer for a use-case error of kind `k`. */
  function ReadStatusTable(k: Option<Kind>): int
  {
    match k
    case None => StatusOK
    case Some(NotFoundKind) => StatusNotFound
    case Some(_) => StatusInternalServerError
  }

  lemma CreateUserFollowsTable(s: UsersApiService, dto: UserDto)
    ensures CreateUser(s, dto).response.code ==
      CreateStatusTable(ErrKind(s.creatingService(dto.name, dto.firstname)))
  {
    var err := s.creatingService(dto.name, dto.firstname);
    if err.Some? {
      IsSentinelIffKind(err.value, InvalidUserID);
      IsSentinelIffKind(err.value, EmptyUserName);
      IsSentinelIffKind(err.value, EmptyFirstname);
    }
  }

  lemma GetAllUsersFollowsTable(s: UsersApiService)
    ensures GetAllUsers(s).response.code == ReadStatusTable(ErrKind(s.findAllService().err))
  {
    var err := s.findAllService().err;
    if err.Some? {
      IsSentinelIffKind(err.value, NotFound);
    }
  }

  lemma GetUserByIdFollowsTable(s: UsersApiService, userId: string)
    ensures GetUserById(s, userId).response.code ==
      ReadStatusTable(ErrKind(s.findByIdService(userId).err))
  {
    var err := s.findByIdService(userId).err;
    if err.Some? {
      IsSentinelIffKind(err.value, NotFound);
    }
  }

  /** Two create calls whose use cases fail with errors of the same kind get
      the same status, whatever the messages and however deep the wrapping. */
  lemma CreateStatusIgnoresMessages(s: UsersApiService, dto: UserDto, s': UsersApiService, dto': UserDto)
    requires ErrKind(s.creatingService(dto.name, dto.firstname)) ==
             ErrKind(s'.creatingService(dto'.name, dto'.firstname))
    ensures CreateUser(s, dto).response.code == CreateUser(s', dto').response.code
  {
    CreateUserFollowsTable(s, dto);
    CreateUserFollowsTable(s', dto');
  }

  /** The same for GetAllUsers. */
  lemma GetAllUsersStatusIgnoresMessages(s: UsersApiService, s': UsersApiService)
    requires ErrKind(s.findAllService().err) == ErrKind(s'.findAllService().err)
    ensures GetAllUsers(s).response.code == GetAllUsers(s').response.code
  {
    GetAllUsersFollowsTable(s);
    GetAllUsersFollowsTable(s');
  }

  /** The same for GetUserById. */
  lemma GetUserByIdStatusIgnoresMessages(s: UsersApiService, userId: string, s': UsersApiService, userId': string)
    requires ErrKind(s.findByIdService(userId).err) == ErrKind(s'.findByIdService(userId').err)
    ensures GetUserById(s, userId).response.code == GetUserById(s', userId').response.code
  {
    GetUserByIdFollowsTable(s, userId);
    GetUserByIdFollowsTable(s', userId');
  }

  // The adapter wired to the find-all use case over a repository.

  /** Whatever the repository answers, GetAllUsers over the find-all use case
      answers by the repository's error kind: nil gives 200 with the
      repository's own slice, "no rows" gives 404 with NotFound reported,
      NotFound gives 404 with the repository's own error, and anything else
      gives 500 with the repository's own error. */
  lemma GetAllUsersOverRepository(
    repo: UserRepository,
    create: (string, string) -> Option<Error>,
    findById: string -> Outcome<User>)
    ensures
      var s := UsersApiService(create, () => Finding.FindAll(Finding.AllUseCase(repo)), findById);
      var got := repo.findAll();
      && (got.err.None? ==>
            GetAllUsers(s) == Answer(ImplResponse(StatusOK, AllUsersBody(got.value)), None))
      && (got.err.Some? && KindOf(got.err.value) == NoRowsKind ==>
            GetAllUsers(s) == Answer(ImplResponse(StatusNotFound, NilBody), Some(NotFound)))
      && (got.err.Some? && KindOf(got.err.value) == NotFoundKind ==>
            GetAllUsers(s) == Answer(ImplResponse(StatusNotFound, NilBody), got.err))
      && (got.err.Some? && KindOf(got.err.value) !in {NoRowsKind, NotFoundKind} ==>
            GetAllUsers(s) == Answer(ImplResponse(StatusInternalServerError, NilBody), got.err))
  {
    var got := repo.findAll();
    if got.err.Some? {
      IsSentinelIffKind(got.err.value, NoRows);
      IsSentinelIffKind(got.err.value, NotFound);
    }
  }

  /** The composed property across both files: a repository that signals
      "no rows", plainly or wrapped, makes GetAllUsers answer 404. */
  lemma RepositoryNoRowsAnswers404(
    repo: UserRepository,
    create: (string, string) -> Option<Error>,
    findById: string -> Outcome<User>)
    requires repo.findAll().err.Some? && Is(repo.findAll().err.value, NoRows)
    ensures
      var s := UsersApiService(create, () => Finding.FindAll(Finding.AllUseCase(repo)), findById);
      GetAllUsers(s).response.code == StatusNotFound
  {
    IsSentinelIffKind(repo.findAll().err.value, NoRows);
    GetAllUsersOverRepository(repo, create, findById);
  }

  /** An empty store whose repository answers an empty slice and a nil error
      makes GetAllUsers answer 200 with an empty list, not 404. */
  lemma EmptyStoreAnswers200(
    repo: UserRepository,
    create: (string, string) -> Option<Error>,
    findById: string -> Outcome<User>)
    requires repo.findAll() == Outcome(Elems([]), None)
    ensures
      var s := UsersApiService(create, () => Finding.FindAll(Finding.AllUseCase(repo)), findById);
      GetAllUsers(s) == Answer(ImplResponse(StatusOK, AllUsersBody(Elems([]))), None)
  {
  }
}
