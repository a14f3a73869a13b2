/** An optional value: the null or undefined of the source. */
module Optional {
  datatype Option<T> = None | Some(value: T)
}
