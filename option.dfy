/** The optional value used for the results of checked arithmetic and token transfers. */
module Optional {

  datatype Option<T> = None | Some(value: T)
}
