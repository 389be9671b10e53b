/** Small failure-carrying datatypes shared by the model. */
module Wrappers {

  datatype Option<+T> = None | Some(value: T)

  /** The Python exceptions the core can raise; each one aborts the whole pipeline. */
  datatype Failure =
    | IndexError   // a list index out of range (`l[0]`, `l[1]`)
    | KeyError     // a missing dictionary or attribute key
    | ValueError   // lxml: removing an element that is not a child
    | ParseError   // dateutil or astropy could not parse a literal
    | AttributeError // an attribute read on `None` or on a term that lacks it
    | TypeError    // slicing `None`, or `in` on a `None` dictionary

  /** The result of an operation that either completes or raises. */
  datatype Outcome<+T> = Done(value: T) | Failed(reason: Failure)
}
