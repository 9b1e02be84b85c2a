/** The optional value used for absent references, absent parameters and failed steps. */
module Options {

  datatype Option<+T> = None | Some(value: T)
}
