/** Small failure-carrying datatypes shared by the logger model. */
module Wrappers {

  /** A value that may be missing: C++'s `std::string::npos` results and failed system calls. */
  datatype Option<+T> = None | Some(value: T)

  /** The outcome of an operation that either completes or throws an error value. */
  datatype Outcome<+E> = Pass | Fail(error: E)
}
