/** An optional value: `None` stands for what the scripts see as `null` or
    `undefined`, `Some(v)` for a value that is there. */
module Wrappers {
  datatype Option<+T> = None | Some(value: T)
}
