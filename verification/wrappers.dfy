/** An optional value. */
module Wrappers {

  /** `None` stands for a JavaScript `undefined` (an unset variable) or, for
      numbers, `NaN`; `Some(v)` carries a defined value. */
  datatype Option<+T> = None | Some(value: T)
}
