/** The optional value that C# expresses with `null` or `FirstOrDefault`. */
module Wrappers {
  datatype Option<+T> = None | Some(value: T)
}
