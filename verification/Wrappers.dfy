/** Results of store operations: a value, or one of the store's error kinds. */
module Wrappers {

  datatype Option<+T> = None | Some(value: T)

  /** The sentinel errors of the metadata store; `Panic` is a run-time panic inside a transaction,
      which like an error leaves the repository as it was. */
  datatype StoreError = NotFound | AlreadyExists | InvalidArgument | Conflict | Panic | PublishFailed

  /** A value or an error; usable with `:-`. */
  datatype Result<+T> = Ok(value: T) | Err(error: StoreError) {
    predicate IsFailure() {
      Err?
    }

    function PropagateFailure<U>(): Result<U>
      requires Err?
    {
      Err(error)
    }

    function Extract(): T
      requires Ok?
    {
      value
    }
  }
}
