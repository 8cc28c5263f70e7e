/** A value that may be absent: stands for the nullable pointers and the
    optional settings of the enemy model. */
module Wrappers {

  datatype Option<+T> = None | Some(value: T)

}
