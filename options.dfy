/** An optional value: what a callback receives when it is called, or nothing. */
module Options {

  datatype Option<+T> = None | Some(value: T)
}
