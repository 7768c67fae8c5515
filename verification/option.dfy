/** The optional value used for a client's tag and for decoders that can fail. */
module Options {

  datatype Option<+T> = None | Some(value: T)
}
