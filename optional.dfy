/** An optional value: None stands where the C code holds a NULL pointer. */
module Optional {
  datatype Option<+T> = None | Some(value: T)
}
