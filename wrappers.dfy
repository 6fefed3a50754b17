/** The optional value used for lookups that may find nothing and for JavaScript's
    `undefined`/`null` on optional fields. */
module Wrappers {
  datatype Option<+T> = None | Some(value: T)
}
