/** Small failure-compatible wrappers used across the driver model. */
module Options {

  /** An optional value: a decoder's answer when a byte may not be a valid encoding. */
  datatype Option<+T> = None | Some(value: T)

  /** The result of a C computation that may have undefined behaviour. */
  datatype Behaviour<+T> = Defined(value: T) | Undefined
}
