/** Option and Result values used for the calculator's lookups and error paths. */
module Wrappers {

  /** A value that may be absent, e.g. the conductivity `None` of "no insulation". */
  datatype Option<+T> = None | Some(value: T)

  /** Either a computed value or the error the calculator would raise. */
  datatype Result<+T, +E> = Ok(value: T) | Err(error: E)
}
