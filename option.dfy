/** The optional value used for a habit's id (None until storage assigns one). */
module Optional {

  datatype Option<+T> = None | Some(value: T)
}
