/** Python's `None`-or-value, as used for every nullable number of the pipeline. */
module Wrappers {

  datatype Option<+T> = None | Some(value: T)

}
