/** The optional value used for every nullable reference of the source
    (a Java `String` or `Boolean` that may be null, a C# `string?`). */
module Wrappers {

  datatype Option<+T> = None | Some(value: T)
}
