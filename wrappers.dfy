/** An optional value: `None` stands for JavaScript's `undefined` (or a missing optional property). */
module Wrappers {

  datatype Option<+T> = None | Some(value: T)
}
