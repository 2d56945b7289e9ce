/** Values shared by the model: optional values and the JavaScript safe-integer range. */
module Base {
  datatype Option<+T> = None | Some(value: T)

  // Number.MAX_SAFE_INTEGER
  const MAX_SAFE_INTEGER: int := 9007199254740991

  predicate IsSafeInteger(n: int) {
    -MAX_SAFE_INTEGER <= n <= MAX_SAFE_INTEGER
  }

  function Max(a: int, b: int): int {
    if a < b then b else a
  }
}
