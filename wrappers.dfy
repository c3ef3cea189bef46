/** The optional-value type used for unset command-line options and for
    number conversions that Python would reject with a ValueError. */
module Wrappers {

  datatype Option<+T> = None | Some(value: T)
}
