/** An optional value. `Nil` stands for Go's nil: a regex search that found
    nothing, or a predicate argument that was not supplied. */
module Wrappers {
  datatype Option<+T> = Nil | Some(value: T)
}
