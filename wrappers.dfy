/** An optional value: stands for a null pointer, a missing match or a result the
    source computes by dividing by zero. */
module Wrappers {

  datatype Option<+T> = None | Some(value: T)
}
