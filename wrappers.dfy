/** Option and Result, and the Python exceptions the load-test script can raise. */
module Wrappers {

  datatype Option<+T> = None | Some(value: T)

  /** The exceptions raised by the modelled code. */
  datatype Exception =
    | ValueError          // random.randint on an empty range, int() on a malformed token
    | IndexError          // indexing or random.choice on an empty list
    | KeyError(key: string)  // a dictionary lookup of a missing key
    | DecodeError         // response.json() on a body that is not a descriptor

  /** The value of a computation that either returns or raises. */
  datatype Result<+T> = Ok(value: T) | Err(error: Exception)
}
