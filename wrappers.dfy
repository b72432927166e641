/** The usual optional-value datatype; `None` stands for PHP's `null` where a field may be unset. */
module Wrappers {
  datatype Option<+T> = None | Some(value: T)
}
