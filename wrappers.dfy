/** Optional values: a form field that is empty or does not parse as a number,
    a key that an imported file does not carry. */
module Wrappers {

  datatype Option<+T> = None | Some(value: T)
}
