// Optional values, used where the modelled C# code can throw or yield a non-finite float.
module Wrappers {
  datatype Option<T> = None | Some(value: T)
}
