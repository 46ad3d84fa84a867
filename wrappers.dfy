/** Optional values: `None` stands for a control property that was never written. */
module Wrappers {

  datatype Option<+T> = None | Some(value: T)
}
