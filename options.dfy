/** Optional values: the model's stand-in for PHP's nullable references. */
module Options {

  datatype Option<+T> = None | Some(value: T)
}
