/** Common wrapper for partial decoders and for a file that may not exist. */
module Options {
  datatype Option<+T> = None | Some(value: T)
}
