/** The optional values the generator's inputs and outputs use where the Java code uses null. */
module Wrappers {
  datatype Option<+T> = None | Some(value: T)
}
