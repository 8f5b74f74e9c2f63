/** Small shared datatypes. */
module Common {

  /** A value that may be absent: the source's `string | null`. */
  datatype Option<+T> = None | Some(value: T)
}
