/**
  Outcomes of the view operations: the exceptions the generic view raises or
  lets propagate, and the Option/Result wrappers used for them.
 */
module Outcomes {

  datatype Option<+T> = None | Some(value: T)

  /** The failures a generic view can end in, named after the Python exception. */
  datatype Error =
    | AssertionFailed(reason: string)  // a configuration guard (`assert ...`)
    | NotFound                         // pyramid's HTTPNotFound, raised on NoResultFound
    | MultipleResultsFound             // raised by `.one()` and not caught
    | KeyError(key: string)            // a missing URL keyword argument
    | AttributeError(attribute: string) // `getattr` on a model without that column
    | TypeError(reason: string)        // a malformed `context` or a second `strict`
    | Forbidden                        // check_object_permissions refused the object
    | NotImplemented(reason: string)   // the abstract pagination base

  datatype Result<+T> = Ok(value: T) | Err(error: Error) {
    predicate IsFailure() {
      Err?
    }

    function PropagateFailure<U>(): Result<U>
      requires Err?
    {
      Err(error)
    }

    function Extract(): T
      requires Ok?
    {
      value
    }
  }
}
