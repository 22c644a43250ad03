/** An optional value: present, or absent. */
module Options {
  datatype Option<T> = None | Some(value: T)
}
