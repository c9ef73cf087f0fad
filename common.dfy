/** Small value types shared by every module. */
module Common {

  /** Python's `None` / a present value. */
  datatype Option<T> = None | Some(value: T)
}
