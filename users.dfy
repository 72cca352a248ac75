/** The `users` domain package: the user entity, Go's slices and two-value
    returns, and the repository port the use cases call. */
module Users {
  import opened Errors

  datatype User = User(id: string, name: string, firstname: string)

  /** A Go slice: `Nil` is the nil slice, which Go tells apart from an empty,
      non-nil one. */
  datatype Slice<+T> = Nil | Elems(elems: seq<T>)

  /** A Go `(value, error)` return. */
  datatype Outcome<+T> = Outcome(value: T, err: Option<Error>)

  /** The repository port `users.UserRepository`, given as the answers its
      implementation produces. The request context is not modelled. */
  datatype UserRepository = UserRepository(
    save: User -> Option<Error>,
    findAll: () -> Outcome<Slice<User>>,
    findById: string -> Outcome<User>)
}
