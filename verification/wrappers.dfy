/** The nil-or-present distinction that Go expresses with nil maps. */
module Wrappers {

  /** `None` stands for a nil value, `Some(v)` for a present one. */
  datatype Option<+T> = None | Some(value: T)
}
