/** Python's `None`-or-value, used for the nullable water norm, for `dict.get`
    and for conversions that may raise. */
module Wrappers {

  datatype Option<+T> = None | Some(value: T)
}
