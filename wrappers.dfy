/** Optional values: a servo channel that was never commanded reads as `None`,
    and a command that matches no template has no action. */
module Wrappers {

  datatype Option<+T> = None | Some(value: T)
}
