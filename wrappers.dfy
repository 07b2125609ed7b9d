/** An optional value: a missing page element, a cancelled prompt, a number
    that did not parse. */
module Wrappers {
  datatype Option<T> = None | Some(value: T)
}
