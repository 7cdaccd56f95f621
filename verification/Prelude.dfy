/** Small vocabulary shared by the models: optional values, bounds on reals, machine words. */
module Prelude {

  datatype Option<+T> = None | Some(value: T)

  /** The number of values of `usize` and `u64` on the 64-bit targets of the proxy. */
  const WORD: nat := 0x1_0000_0000_0000_0000

  type U32 = n: nat | n < 0x1_0000_0000

  function Min(a: int, b: int): int {
    if a <= b then a else b
  }

  function Max(a: int, b: int): int {
    if a <= b then b else a
  }

  function RealMin(a: real, b: real): real {
    if a <= b then a else b
  }

  /** Seconds from `earlier` to `later`, zero when the clock readings are swapped. */
  function Elapsed(earlier: real, later: real): real {
    if earlier <= later then later - earlier else 0.0
  }

  /** The least integer that is not below `x`. */
  function Ceil(x: real): (c: int)
    ensures x <= c as real < x + 1.0
  {
    -((-x).Floor)
  }
}
