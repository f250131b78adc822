/** Option and Result values shared by the other modules. A JavaScript value
    that may be `undefined` is an `Option`; an operation that may throw
    returns a `Result` whose `Err` carries what was thrown. */
module Outcomes {

  datatype Option<+T> = None | Some(value: T)

  datatype Result<+T, +E> = Ok(value: T) | Err(error: E)
}
