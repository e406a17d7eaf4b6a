/** An optional value: `undefined` or a value, wherever the binder may find nothing. */
module Optional {

  datatype Option<T> = None | Some(value: T)
}
