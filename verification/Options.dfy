/** Optional values, used where the program uses nil pointers, missing map entries or error returns. */
module Options {

  datatype Option<+T> = None | Some(value: T)
}
