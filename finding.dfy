/** Package `finding`: the find-all-users use case. It asks the repository once
    and turns the storage signal "no rows" into the domain error NotFound. */
module Finding {
  import opened Errors
  import opened Users

  /** `allUseCase`: a value whose only field is the repository. Its datatype
      constructor plays the part of `NewFindAllUsersUseCase`. */
  datatype AllUseCase = AllUseCase(repository: UserRepository)

  /** `allUseCase.FindAll`. */
  function FindAll(s: AllUseCase): (r: Outcome<Slice<User>>)
    // a nil error exactly when the repository gave a nil error
    ensures r.err.None? <==> s.repository.findAll().err.None?
    // success: the repository's slice, unchanged, even when it is empty
    ensures s.repository.findAll().err.None? ==> r == s.repository.findAll()
    // every error path gives the nil slice
    ensures r.err.Some? ==> r.value == Nil
    // "no rows", plain or wrapped, becomes exactly NotFound
    ensures s.repository.findAll().err.Some? && Is(s.repository.findAll().err.value, NoRows)
      ==> r.err == Some(NotFound)
    // any other error comes back unchanged
    ensures s.repository.findAll().err.Some? && !Is(s.repository.findAll().err.value, NoRows)
      ==> r.err == s.repository.findAll().err
  {
    var all := s.repository.findAll();
    if all.err.None? then
      Outcome(all.value, None)
    else if Is(all.err.value, NoRows) then
      Outcome(Nil, Some(NotFound))
    else
      Outcome(Nil, all.err)
  }

  /** Read by kind: the error FindAll reports has the repository error's kind,
      except that the kind "no rows" is reported as NotFound. */
  lemma FindAllByKind(s: AllUseCase)
    ensures ErrKind(FindAll(s).err) ==
      match ErrKind(s.repository.findAll().err)
      case Some(NoRowsKind) => Some(NotFoundKind)
      case k => k
  {
    var got := s.repository.findAll().err;
    if got.Some? {
      IsSentinelIffKind(got.value, NoRows);
    }
  }

  /** The storage signal never leaks past the use case. */
  lemma FindAllHidesNoRows(s: AllUseCase)
    ensures FindAll(s).err.Some? ==> !Is(FindAll(s).err.value, NoRows)
  {
  }

  /** Translating an answer that was already translated changes nothing: a
      repository that answers like FindAll makes FindAll answer the same. */
  lemma FindAllIdempotent(s: AllUseCase, t: AllUseCase)
    requires t.repository.findAll() == FindAll(s)
    ensures FindAll(t) == FindAll(s)
  {
    FindAllHidesNoRows(s);
  }
}
