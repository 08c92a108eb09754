/** The two result shapes shared by the models: a value that may be absent, and
    the outcome of a call that may throw. */
module Outcomes {

  datatype Option<+T> = None | Some(value: T)

  datatype Outcome<+T, +E> = Ok(value: T) | Thrown(error: E)
}
