/** Optional values: `None` stands for JavaScript's `undefined` where the
    source may produce it (an unselected key, a missing judge token). */
module Wrappers {

  datatype Option<+T> = None | Some(value: T)

}
