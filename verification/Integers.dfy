/** Small functions on integers. */
module Integers {
  function Max(a: int, b: int): int {
    if a < b then b else a
  }

  function Max0(n: int): nat {
    if n < 0 then 0 else n
  }
}
