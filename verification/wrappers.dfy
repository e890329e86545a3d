/** Option, for the home page's selected product. */
module Wrappers {

  /** A value that may be absent, such as the product selected in the home page modal. */
  datatype Option<+T> = None | Some(value: T)
}
