/** The conventional Some/None datatype, used for PHP's `null` / missing key. */
module Wrappers {

  datatype Option<+T> = None | Some(value: T)
}
