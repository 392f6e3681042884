/** Optional values: JavaScript's `undefined`/`null` results (a note that was
    left out, an empty movement list, a goal that was not found). */
module Wrappers {

  datatype Option<+T> = None | Some(value: T)
}
