/** Optional values: a DOM lookup that may find nothing, an attribute or a
    stored preference that may be absent. */
module Wrappers {

  datatype Option<+T> = None | Some(value: T)
}
