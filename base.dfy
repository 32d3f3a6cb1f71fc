/** Small shared datatypes. */
module Base {
  /** An optional value: JavaScript's `undefined` versus a present value. */
  datatype Option<+T> = None | Some(value: T)
}
