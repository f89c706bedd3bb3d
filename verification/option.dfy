/** The conventional optional value, used for absent fields and for lookups that may miss. */
module Optional {

  datatype Option<+T> = None | Some(value: T)

}
