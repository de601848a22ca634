/** An optional value. */
module Common {

  datatype Option<T> = None | Some(value: T)
}
