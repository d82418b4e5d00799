/** An optional value, standing in for the nullable references of the client. */
module Options {

  datatype Option<+T> = None | Some(value: T)

}
