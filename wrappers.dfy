/** The optional value that stands for MLIR's null Attribute and for
    FailureOr results: `None` is "no value produced". */
module Wrappers {

  datatype Option<+T> = None | Some(value: T)
}
