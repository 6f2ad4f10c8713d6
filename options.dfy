/** Optional values: a missing result, JavaScript's NaN, or a state field that may be null. */
module Options {

  datatype Option<+T> = None | Some(value: T)
}
