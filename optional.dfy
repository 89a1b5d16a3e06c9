/** The conventional optional value: `null` in the source becomes None. */
module Optional {

  datatype Option<+T> = None | Some(value: T)
}
