/** Optional values: a JavaScript field or lookup result that may be `undefined`. */
module Optional {

  datatype Option<T> = None | Some(value: T)

  /** The outcome of an expression that may throw: either its value or a
      TypeError naming the `undefined` value that was dereferenced. */
  datatype Result<T> = Ok(value: T) | TypeError(undefinedRead: string)
}
