/** Optional values. */
module Results {

  datatype Option<T> = None | Some(value: T)
}
