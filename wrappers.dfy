/** The optional value used wherever the dashboard holds `T | null` or an
    object key that may be absent. */
module Wrappers {

  datatype Option<+T> = None | Some(value: T)
}
