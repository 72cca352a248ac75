/** Go's error values as the users service meets them: the domain sentinels of
    package `users`, the storage signal `sql.ErrNoRows`, any other failure, and
    errors that wrap another one (as `fmt.Errorf("...: %w", err)` does).
    A nil error is `None`. */
module Errors {

  datatype Option<+T> = None | Some(value: T)

  datatype Error =
    | InvalidUserID              // users.ErrInvalidUserID
    | EmptyUserName              // users.ErrEmptyUserName
    | EmptyFirstname             // users.ErrEmptyFirstname
    | NotFound                   // users.ErrNotFound
    | NoRows                     // sql.ErrNoRows
    | Other(msg: string)         // any failure the service does not name
    | Wrapped(msg: string, inner: Error)

  /** The kind of an error, with every message forgotten. */
  datatype Kind =
    | InvalidUserIDKind
    | EmptyUserNameKind
    | EmptyFirstnameKind
    | NotFoundKind
    | NoRowsKind
    | OtherKind

  /** Go's `errors.Unwrap`. */
  function Unwrap(e: Error): (r: Option<Error>)
    ensures r.Some? <==> e.Wrapped?
  {
    if e.Wrapped? then Some(e.inner) else None
  }

  /** Go's `errors.Is`: `target` is `e` or is found by unwrapping `e` repeatedly. */
  function Is(e: Error, target: Error): (r: bool)
    // both directions: the target occurs somewhere in the unwrap chain
    ensures r <==> target in Chain(e)
  {
    e == target || (e.Wrapped? && Is(e.inner, target))
  }

  /** The unwrap chain of `e`: `e`, `Unwrap(e)`, ... down to an error that wraps nothing. */
  function Chain(e: Error): (c: seq<Error>)
    ensures |c| >= 1 && c[0] == e
    ensures !c[|c| - 1].Wrapped?
    ensures forall i :: 0 <= i < |c| - 1 ==> Unwrap(c[i]) == Some(c[i + 1])
  {
    if e.Wrapped? then [e] + Chain(e.inner) else [e]
  }

  /** The error at the bottom of the unwrap chain. */
  function Root(e: Error): (r: Error)
    ensures !r.Wrapped?
    ensures Is(e, r)
  {
    if e.Wrapped? then Root(e.inner) else e
  }

  function KindOf(e: Error): Kind
  {
    match Root(e)
    case InvalidUserID => InvalidUserIDKind
    case EmptyUserName => EmptyUserNameKind
    case EmptyFirstname => EmptyFirstnameKind
    case NotFound => NotFoundKind
    case NoRows => NoRowsKind
    case Other(_) => OtherKind
  }

  /** The kind of a possibly-nil error; `None` for nil. */
  function ErrKind(err: Option<Error>): Option<Kind>
  {
    match err
    case None => None
    case Some(e) => Some(KindOf(e))
  }

  /** A sentinel is an error that wraps nothing and carries no message. */
  predicate IsSentinel(e: Error)
  {
    !e.Wrapped? && !e.Other?
  }

  /** Every link of the unwrap chain but the last wraps another error. */
  lemma {:induction false} ChainLinksWrap(e: Error, i: nat)
    requires i < |Chain(e)| - 1
    ensures Chain(e)[i].Wrapped?
  {
    if i > 0 {
      ChainLinksWrap(e.inner, i - 1);
    }
  }

  /** Against an error that wraps nothing, `Is` only looks at the root of the chain:
      the messages of the wrapping layers never matter. */
  lemma {:induction false} IsUnwrappedIffRoot(e: Error, target: Error)
    requires !target.Wrapped?
    ensures Is(e, target) <==> Root(e) == target
  {
    var c := Chain(e);
    RootEndsChain(e);
    if Is(e, target) {
      assert target in c;
      // every link above the last one wraps another error, so an unwrapped
      // target can only sit at the end of the chain
      var i :| 0 <= i < |c| && c[i] == target;
      if i < |c| - 1 {
        ChainLinksWrap(e, i);
        assert false;
      }
    } else {
      assert c[|c| - 1] in c;
    }
  }

  /** Matching a sentinel with `Is` is the same as asking for its kind. */
  lemma IsSentinelIffKind(e: Error, target: Error)
    requires IsSentinel(target)
    ensures Is(e, target) <==> KindOf(e) == KindOf(target)
  {
    IsUnwrappedIffRoot(e, target);
  }

  /** The root ends the unwrap chain. */
  lemma {:induction false} RootEndsChain(e: Error)
    ensures Chain(e)[|Chain(e)| - 1] == Root(e)
  {
    if e.Wrapped? {
      RootEndsChain(e.inner);
      assert Chain(e) == [e] + Chain(e.inner);
    }
  }
}
