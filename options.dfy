/** An optional value: a rectangle that is only laid out in one state, a child that may not exist. */
module Options {

  datatype Option<T> = None | Some(value: T)
}
