/** Swift's `Optional`, for values the wrapper may or may not hold. */
module Options {

  datatype Option<+T> = None | Some(value: T)
}
