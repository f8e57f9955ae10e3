/** Optional values, used for the nullable start-time reference and for the
    side effects a transition may or may not produce. */
module Wrappers {

  datatype Option<+T> = None | Some(value: T)
}
