/** The absent-or-present value used for session reads, parse results and the detected card type. */
module Optional {

  datatype Option<+T> = None | Some(value: T)
}
