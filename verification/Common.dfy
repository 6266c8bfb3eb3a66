/** Types every component shares: results, identifiers, 64-bit amounts and durations. */
module Common {
  datatype Option<+T> = None | Some(value: T)

  datatype Result<+T, +E> = Ok(value: T) | Err(error: E) {
    predicate IsFailure() {
      Err?
    }

    function PropagateFailure<U>(): Result<U, E>
      requires Err?
    {
      Err(error)
    }

    function Extract(): T
      requires Ok?
    {
      value
    }
  }

  /** Record ids are opaque strings; only equality and the byte order matter. */
  type Id = string

  const MIN64: int := -0x8000_0000_0000_0000
  const MAX64: int := 0x7FFF_FFFF_FFFF_FFFF
  const TWO64: int := 0x1_0000_0000_0000_0000

  /** Go's int64, in which every amount and balance is stored. */
  type int64 = x: int | MIN64 <= x <= MAX64

  /** Two's-complement wrap-around of an int64 addition or subtraction. */
  function Wrap64(x: int): (r: int64)
    ensures MIN64 <= x <= MAX64 ==> r == x
    ensures (r - x) % TWO64 == 0
  {
    (x - MIN64) % TWO64 + MIN64
  }

  /** Durations and instants are integer nanoseconds. */
  const MINUTE: int := 60_000_000_000

  function Min(a: nat, b: nat): nat {
    if a <= b then a else b
  }
}
