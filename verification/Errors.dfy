/** Error values: a tree in which some node may be tagged as not worth retrying. */
module Errors {

  datatype Error =
    | Plain
    | Wrapped(inner: Error)
    | Joined(parts: seq<Error>)
    | NonRetryable(cause: Error)

  /** errors.Is(e, NonRetryableError(nil)): the search stops at the first tagged node. */
  predicate IsNonRetryable(e: Error) {
    match e
    case Plain => false
    case Wrapped(inner) => IsNonRetryable(inner)
    case Joined(parts) => exists i :: 0 <= i < |parts| && IsNonRetryable(parts[i])
    case NonRetryable(_) => true
  }

  /** `path` leads from the root of `e` to a tagged node, one child index per step. */
  predicate TaggedAt(e: Error, path: seq<nat>)
    decreases e
  {
    if path == [] then e.NonRetryable?
    else match e
      case Plain => false
      case Wrapped(inner) => path[0] == 0 && TaggedAt(inner, path[1..])
      case Joined(parts) => path[0] < |parts| && TaggedAt(parts[path[0]], path[1..])
      case NonRetryable(cause) => path[0] == 0 && TaggedAt(cause, path[1..])
  }

  /** With FoundTagExists: an error is treated as terminal exactly when some node of its tree is tagged. */
  lemma {:induction false} TagIsFound(e: Error, path: seq<nat>)
    requires TaggedAt(e, path)
    ensures IsNonRetryable(e)
    decreases e
  {
    if path != [] {
      match e
      case Wrapped(inner) => TagIsFound(inner, path[1..]);
      case Joined(parts) => TagIsFound(parts[path[0]], path[1..]);
      case NonRetryable(_) =>
    }
  }

  lemma {:induction false} FoundTagExists(e: Error) returns (path: seq<nat>)
    requires IsNonRetryable(e)
    ensures TaggedAt(e, path)
  {
    match e
    case Wrapped(inner) =>
      var rest := FoundTagExists(inner);
      path := [0] + rest;
    case Joined(parts) =>
      var i: nat :| i < |parts| && IsNonRetryable(parts[i]);
      var rest := FoundTagExists(parts[i]);
      path := [i] + rest;
    case NonRetryable(_) =>
      path := [];
  }
}
