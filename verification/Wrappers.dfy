// Result shapes shared by the other modules.
module Wrappers {
  datatype Option<+T> = None | Some(value: T)

  datatype Result<+T, +E> = Ok(value: T) | Err(error: E)

  // The two classes every refusal falls into.
  datatype Refusal = Violation | Unavailable

  function Max(a: int, b: int): int {
    if a < b then b else a
  }

  // An answer from outside: any value of its type.
  method Any<T(0)>() returns (t: T) {
    t := *;
  }
}
