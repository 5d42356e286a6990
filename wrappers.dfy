/** The optional value the model uses for JavaScript's `null`/`undefined`
    results (a cancelled prompt, a failed `find`, nothing stored yet). */
module Wrappers {
  datatype Option<+T> = None | Some(value: T)
}
