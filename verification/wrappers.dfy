/** The optional value the decoder returns: `None` is a word that names no
    instruction. */
module Wrappers {

  datatype Option<+T> = None | Some(value: T)
}
