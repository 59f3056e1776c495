/** Optional values: Unity's "fake null" engine objects (a destroyed or missing material,
    a prefab that did not load) are modelled as None. */
module Wrappers {

  datatype Option<+T> = None | Some(value: T)

}
