/** The JavaScript `null` of the dashboard's state and of the cache's misses. */
module Nullable {

  datatype Option<+T> = None | Some(value: T)

}
