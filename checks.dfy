/** The outcome of a C++ routine that ends its switch with `assert(false)`:
    either the value it returns for a valid argument, or the assertion failure
    that a debug build stops on. */
module Checks {

  datatype Checked<+T> = Ok(value: T) | AssertFails {

    predicate IsOk() {
      Ok?
    }
  }
}
