/** Status and result values returned by the bridge and the router (arrow::Status, arrow::Result). */
module ArrowStatus {

  datatype Option<+T> = None | Some(value: T)

  /** The status codes the core produces; each carries its message text. */
  datatype Status =
    | Invalid(message: string)
    | ExecutionError(message: string)
    | NotImplemented(message: string)

  /** arrow::Result<T>: a value or a failed status. */
  datatype Result<+T> = Ok(value: T) | Err(status: Status) {

    predicate IsFailure() {
      Err?
    }

    function PropagateFailure<U>(): Result<U>
      requires Err?
    {
      Err(status)
    }

    function Extract(): T
      requires Ok?
    {
      value
    }
  }
}
