/** The optional value Python expresses with `None`: a reply that did not come,
    a height that could not be read. */
module Wrappers {

  datatype Option<+T> = None | Some(value: T)
}
