/** Values shared by every module: optional values, results that may carry a
    Python exception, and the kinds of exception the modelled code can raise. */
module Common {

  datatype Option<+T> = None | Some(value: T) {
    /** Python's `x or default` for a value that is either None or present. */
    function GetOr(default: T): T {
      match this
      case Some(v) => v
      case None => default
    }
  }

  /** The exceptions the modelled code raises on its own (not those of the
      vector store or the chat service, which are left out). */
  datatype PyException =
    | KeyError(key: string)   // `d[key]` on a dict without that key
    | IndexError              // `xs[0]` on an empty list
    | TypeError               // `None[0]`

  datatype Result<+T> = Ok(value: T) | Err(error: PyException) {
    predicate IsFailure() {
      Err?
    }

    function PropagateFailure<U>(): Result<U>
      requires Err?
    {
      Err(error)
    }

    function Extract(): T
      requires Ok?
    {
      value
    }
  }
}
