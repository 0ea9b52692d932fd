/** The JavaScript `null`/`undefined` alternatives used by the camera page. */
module Optional {
  datatype Option<+T> = None | Some(value: T)
}
