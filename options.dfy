/** Option type used for the nullable references of the modelled Java code. */
module Options {
  datatype Option<+T> = None | Some(value: T)
}
