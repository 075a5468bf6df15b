/** Small shared vocabulary: optional values, results with a string error
    (Go's `error` is reduced to its message), and Go's fixed-width integers
    as subset types of `int`. */
module Prelude {

  datatype Option<+T> = None | Some(value: T)

  /** A Go `(value, error)` pair where exactly one side is meaningful. */
  datatype Result<+T> = Success(value: T) | Failure(error: string)

  type Int8 = x: int | -0x80 <= x < 0x80
  type Int16 = x: int | -0x8000 <= x < 0x8000
  type Int32 = x: int | -0x8000_0000 <= x < 0x8000_0000
  type Int64 = x: int | -0x8000_0000_0000_0000 <= x < 0x8000_0000_0000_0000

  /** The range of Go's `rand.Int63`: a non-negative 63-bit integer. */
  type Int63 = x: int | 0 <= x < 0x8000_0000_0000_0000

  type Uint16 = x: int | 0 <= x < 0x1_0000
}
