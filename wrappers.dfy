/** Optional values, results and the exception kinds the modelled code can raise. */
module Wrappers {

  datatype Option<+T> = None | Some(value: T)

  /** The exceptions raised by the modelled code. */
  datatype Error =
    | IndexError      // list index out of range, or `findall(...)[0]` on no match
    | TypeError       // a constructor called without a required argument, math.dist on a non-number
    | ValueError      // float() of a text that is not a number
    | KeyError        // dict lookup of a missing key
    | StopIteration   // next() on an exhausted iterator
    | AttributeError  // `None.append(...)`

  datatype Result<+T> = Ok(value: T) | Err(error: Error)
}
