/** Optional values, used for the optional properties of the canvas records
    (`title?`, `items?`, `subsections?`) and for the optional
    `subsectionTitle` argument of the mutations. */
module Wrappers {

  /** `None` models a property or argument that is `undefined`. */
  datatype Option<+T> = None | Some(value: T)
}
