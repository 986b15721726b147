/** Failure-compatible helper datatypes shared by every module of the model. */
module Wrappers {

  /** A value that may be absent; stands for a C# reference or nullable that may be null. */
  datatype Option<+T> = None | Some(value: T) {
    function GetOr(default: T): T {
      match this
      case Some(v) => v
      case None => default
    }
  }

  /** The outcome of an operation that the source lets throw: `Err` names the exception. */
  datatype Result<+T, +E> = Ok(value: T) | Err(error: E)
}

/** The .NET exceptions that the modelled operations raise, as values. */
module Exceptions {

  datatype Exception =
    | ArgumentNull(paramName: string)
    | ArgumentOutOfRange(paramName: string)
    | InvalidOperation
    | KeyNotFound
}

/** The 32-bit signed integers of the runtime and its unchecked wrap-around. */
module BoundedInts {

  const MinInt32: int := -0x8000_0000
  const MaxInt32: int := 0x7FFF_FFFF

  type int32 = x: int | MinInt32 <= x <= MaxInt32

  /** Unchecked 32-bit arithmetic: the representative of `x` modulo 2^32 in the int32 range. */
  function Wrap32(x: int): (r: int32)
    ensures MinInt32 <= x <= MaxInt32 ==> r == x
    ensures (r - x) % 0x1_0000_0000 == 0
  {
    (x - MinInt32) % 0x1_0000_0000 + MinInt32
  }

  /** The unchecked cast `(uint)x` of an int32. */
  function ToUInt32(x: int32): (r: nat)
    ensures r < 0x1_0000_0000
    ensures x >= 0 ==> r == x
    ensures x < 0 ==> r == x + 0x1_0000_0000
  {
    if x < 0 then x + 0x1_0000_0000 else x
  }
}
