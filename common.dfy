/** Shared wrappers: Java's null becomes Option.None, and a thrown exception
    becomes Result.Err carrying the module's own error type. */
module Common {

  datatype Option<+T> = None | Some(value: T)

  datatype Result<+T, +E> = Ok(value: T) | Err(error: E)

  /** Java `int`: the 32-bit two's complement range. */
  type Int32 = x: int | -0x8000_0000 <= x < 0x8000_0000

  /** Java `long`: the 64-bit two's complement range. */
  type Int64 = x: int | -0x8000_0000_0000_0000 <= x < 0x8000_0000_0000_0000

  function Min(a: int, b: int): int { if a <= b then a else b }

  function Max(a: int, b: int): int { if a <= b then b else a }
}
