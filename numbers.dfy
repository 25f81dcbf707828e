/**
 * Fixed-width C++ integers and the float-to-integer conversions the module relies on.
 * Integers are unbounded in Dafny; each place where the source stores a value into a
 * narrower type goes through one of the conversions below, so wrap-around is explicit.
 */
module Numbers {

  type Uint8 = x: int | 0 <= x < 0x100
  type Int8 = x: int | -0x80 <= x < 0x80
  type Uint32 = x: int | 0 <= x < 0x1_0000_0000
  type Int32 = x: int | -0x8000_0000 <= x < 0x8000_0000

  datatype Option<T> = None | Some(value: T) {
    function GetOr(default: T): T {
      match this
      case Some(v) => v
      case None => default
    }
  }

  /** Storing an int into a uint8: the value modulo 2^8. */
  function ToUint8(x: int): (r: Uint8)
    ensures 0 <= x < 0x100 ==> r == x
    ensures (x - r) % 0x100 == 0
  {
    x % 0x100
  }

  /** Storing an int into a uint32: the value modulo 2^32. */
  function ToUint32(x: int): (r: Uint32)
    ensures 0 <= x < 0x1_0000_0000 ==> r == x
    ensures (x - r) % 0x1_0000_0000 == 0
  {
    x % 0x1_0000_0000
  }

  /** Storing an int into an int32: the value modulo 2^32, read as two's complement. */
  function ToInt32(x: int): (r: Int32)
    ensures -0x8000_0000 <= x < 0x8000_0000 ==> r == x
    ensures (x - r) % 0x1_0000_0000 == 0
  {
    var u := x % 0x1_0000_0000;
    if u < 0x8000_0000 then u else u - 0x1_0000_0000
  }

  /** C's round(): to the nearest integer, halfway cases away from zero. */
  function Round(x: real): (r: int)
    ensures x - 0.5 <= r as real <= x + 0.5
    ensures x >= 0.0 ==> r >= 0
    // strictly nearest, or a halfway case resolved away from zero
    ensures x - 0.5 < r as real < x + 0.5 || (x >= 0.0 && r as real == x + 0.5) || (x < 0.0 && r as real == x - 0.5)
  {
    if x >= 0.0 then (x + 0.5).Floor else -((0.5 - x).Floor)
  }

  /** Conversion of a float to an integer type: truncation toward zero. */
  function Trunc(x: real): (r: int)
    ensures x >= 0.0 ==> 0.0 <= r as real <= x < r as real + 1.0
    ensures x < 0.0 ==> r as real - 1.0 < x <= r as real <= 0.0
  {
    if x >= 0.0 then x.Floor else -((-x).Floor)
  }
}
