/** What several parts of the model share: optional values, and the integers of Go. */
module Common {

  datatype Option<T> = None | Some(value: T)

  const TWO_TO_THE_32: int := 0x1_0000_0000
  const TWO_TO_THE_63: int := 0x8000_0000_0000_0000
  const TWO_TO_THE_64: int := 0x1_0000_0000_0000_0000

  /** In nanoseconds. */
  const MILLISECOND: int := 1_000_000

  predicate IsInt64(x: int) { -TWO_TO_THE_63 <= x < TWO_TO_THE_63 }

  type Int64 = x: int | IsInt64(x)

  /** `int64` arithmetic wraps around. */
  function WrapInt64(x: int): Int64 { (x + TWO_TO_THE_63) % TWO_TO_THE_64 - TWO_TO_THE_63 }
}
