/** Option and Result, failure-compatible so that `:-` propagates the first error. */
module Wrappers {

  datatype Option<+T> = None | Some(value: T) {
    function GetOr(default: T): T {
      match this
      case Some(v) => v
      case None => default
    }
  }

  datatype Result<+R, +E> = Ok(value: R) | Err(error: E) {
    predicate IsFailure() {
      Err?
    }

    function PropagateFailure<U>(): Result<U, E>
      requires Err?
    {
      Err(error)
    }

    function Extract(): R
      requires Ok?
    {
      value
    }
  }
}

/** The exceptions the modelled Python code raises, one constructor per cause. */
module Errors {

  datatype Error =
    // ValueError raised by the argument checks of the schedule functions
    | InvalidScheduleType
    | IntervalOutOfRange
    | TooManyTimes
    // ValueError raised when importing over an existing notebook without overwrite
    | NotebookExists(name: string)
    // FabricHTTPException for a web fetch whose status is not 200
    | FetchFailed(status: int)
    // ValueError raised by generate_shared_expression
    | InvalidItemType
    | EndpointNotProvisioned
    // ValueError raised by get_lakehouse_tables when exporting without an attached lakehouse
    | LakehouseNotAttached
    // `.get` or `.lower()` called on None or on a value that is not a dict
    | AttributeError
    // a comparison, iteration or int conversion applied to a value of the wrong type
    | TypeError
    // `responses[0]` or `.iloc[0]` on an empty sequence
    | IndexError
    // a local variable read before any assignment (UnboundLocalError)
    | UnboundLocal
    // a path that the Delta reader cannot open
    | TableNotFound(path: string)
}

/** The answers of the name and id resolvers, which the model takes as inputs. */
module Resolvers {

  /** A workspace or item as resolved from a name or an id. */
  datatype Resolved = Resolved(name: string, id: string)
}
