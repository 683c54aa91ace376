/** Optional values: `None` stands for JavaScript's `null`/`undefined`/`NaN` wherever the
    source uses one of them to mean "no value". */
module Wrappers {

  datatype Option<+T> = None | Some(value: T)
}
