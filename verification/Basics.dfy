/** Small definitions that several parts share. */
module Basics {

  datatype Option<+T> = None | Some(value: T)

  function Min(a: real, b: real): real { if b < a then b else a }

  function Max(a: real, b: real): real { if a < b then b else a }
}
