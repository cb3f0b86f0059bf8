/** Shared vocabulary: identifiers, the clock, optional values and results. */
module Basics {
  datatype Option<+T> = None | Some(value: T)

  datatype Result<+T, +E> = Ok(value: T) | Err(error: E)

  type JobId = nat
  type WorkerId = nat
  type Json = string

  /** Database timestamps have microsecond resolution. */
  type Time = int

  const INT32_LIMIT: int := 0x8000_0000

  type Int32 = x: int | -INT32_LIMIT <= x < INT32_LIMIT

  const SECOND: int := 1_000_000

  function Max(a: int, b: int): int {
    if a < b then b else a
  }

  function Min(a: int, b: int): int {
    if a < b then a else b
  }

  function GetOr<T>(o: Option<T>, default: T): T {
    match o
    case Some(v) => v
    case None => default
  }

  function SetOf<T>(s: seq<T>): set<T> {
    set x | x in s
  }
}
