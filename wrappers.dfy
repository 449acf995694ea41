/** Failure-carrying results: the model's stand-in for the exceptions the game throws. */
module Wrappers {

  datatype Option<+T> = None | Some(value: T)

  /** `Err` carries the message of the `std::runtime_error` (or library exception) thrown. */
  datatype Result<+T> = Ok(value: T) | Err(error: string)

  /** A byte of a serialized buffer. */
  type Byte = x: int | 0 <= x < 256

  /** Unsigned 32-bit integers and the wrap-around of their arithmetic. */
  const U32: nat := 0x1_0000_0000

  type U32Value = x: nat | x < U32

  function AddU32(a: nat, b: nat): (r: U32Value)
    ensures a + b < U32 ==> r == a + b
    ensures U32 <= a + b < 2 * U32 ==> r == a + b - U32
  {
    (a + b) % U32
  }

  function SubU32(a: nat, b: nat): (r: U32Value)
    requires a < U32 && b < U32
    ensures b <= a ==> r == a - b
    ensures a < b ==> r == U32 + a - b
  {
    (a - b) % U32
  }

  function Min(a: int, b: int): int { if a <= b then a else b }
}
