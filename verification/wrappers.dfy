/** Option, standing for Java's nullable references and java.util.Optional. */
module Wrappers {

  datatype Option<+T> = None | Some(value: T)
}
