/**
 * Failure-carrying wrappers shared by the model, and the Python exceptions
 * that the exporter's text and font code can raise on a malformed document.
 */
module Errors {

  datatype Option<+T> = None | Some(value: T)

  /** The exception a lookup raises. Any of them aborts the whole export. */
  datatype Error =
    | KeyError(key: string)         // `e.attrib[key]` with no such attribute
    | IndexError                    // `e[i]` past the last child
    | AttributeError                // `.split` on the `None` text of an empty element
    | ValueError(literal: string)   // `float(literal)` on a malformed number
    | MissingParameter(name: string) // the layer has no parameter of that name

  datatype Result<+T> = Ok(value: T) | Err(error: Error)
  {
    predicate IsFailure() { Err? }

    function PropagateFailure<U>(): Result<U>
      requires Err?
    {
      Err(error)
    }

    function Extract(): T
      requires Ok?
    {
      value
    }
  }

  /** Outcome of a procedure that returns nothing in the source, or raises. */
  datatype Outcome = Pass | Fail(error: Error)
}
