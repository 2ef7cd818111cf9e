/**
 * Failure handling for the resource object model.
 *
 * The Go code stops on a broken internal contract (`contract.Assert*`,
 * `contract.Require*`) by panicking. Here every such stop is an explicit
 * `Err` carrying the kind of invariant violation, so that callers and
 * lemmas can talk about when an operation fails and when it succeeds.
 */
module Contract {

  /** An optional value; stands in for a Go pointer that may be nil. */
  datatype Option<+T> = None | Some(value: T)

  /** The invariant violations the core can detect. */
  datatype Violation =
    | NotAResource    // a resource operation was given a non-resource runtime object
    | URNAlreadySet   // SetURN on an object that already has a URN
    | MissingURN      // Update on an object that has no URN yet
    | IDAlreadySet    // SetID while the ID already holds a concrete value
    | MissingID       // ID() on an object without an ID property
    | IDNotString     // ID() while the ID is still computed
    | MalformedID     // the ID property is neither a string nor computed
    | Unserializable  // capture met a value it cannot store (see Capture)
    | Unhydratable    // hydration met a Computed or Output value

  /** The outcome of an operation that may stop on a violated invariant. */
  datatype Result<+T> = Ok(value: T) | Err(violation: Violation) {

    predicate IsFailure() {
      Err?
    }

    function PropagateFailure<U>(): Result<U>
      requires Err?
    {
      Err(violation)
    }

    function Extract(): T
      requires Ok?
    {
      value
    }
  }
}
