/** Option and Result, the two failure-carrying types the Rust code relies on. */
module Prelude {

  datatype Option<+T> = None | Some(value: T) {
    /** `Option::unwrap_or`. */
    function GetOr(default: T): T {
      if Some? then value else default
    }
  }

  /** Why an operation failed: a network error, a body that is not what was expected,
      a panicking `unwrap()`, a file that cannot be read, or a profile that is not there.
      Each ends the current handler or task without a result. */
  datatype Fault = Network | BadBody | Panicked | Io | NotFound

  datatype Result<+T> = Ok(value: T) | Err(fault: Fault)
}
