/** The in-memory repository as an object: one state that transactions replace. */
module Store {
  import opened Wrappers
  import opened Metadata

  class Repository {
    var state: State

    constructor (initial: State)
      ensures state == initial
    {
      state := initial;
    }
  }

  /** How a transaction ends: committed with the state the specification gives, or refused with
      its error and the repository untouched. */
  predicate Settles(before: State, after: State, err: Option<StoreError>, spec: Result<State>) {
    match spec
    case Ok(t) => err == None && after == t
    case Err(e) => err == Some(e) && after == before
  }
}
