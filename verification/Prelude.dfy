/** Vocabulary shared by every component of the gateway model. */
module Prelude {

  datatype Option<+T> = None | Some(value: T)

  datatype Result<+T, +E> = Ok(value: T) | Err(error: E)

  /** A Go `time.Time`, in nanoseconds after the zero instant of that type. */
  type Time = int

  /** The zero `time.Time`, which the gateway uses as "not set". */
  const ZERO_TIME: Time := 0

  const MAX_INT64: int := 0x7FFF_FFFF_FFFF_FFFF

  /** Go's `int64`; every operation on it is checked not to overflow. */
  newtype int64 = x: int | -0x8000_0000_0000_0000 <= x <= 0x7FFF_FFFF_FFFF_FFFF

  function Min(a: int, b: int): int {
    if a <= b then a else b
  }

  function Max(a: int, b: int): int {
    if a >= b then a else b
  }
}
