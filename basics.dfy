/**
 * Shared vocabulary of the model: optional values and the fixed-width
 * unsigned integers of the firmware, with their wrap-around arithmetic
 * written out (Dafny integers are unbounded).
 */
module Basics {

  datatype Option<T> = None | Some(value: T)

  const Uint8Modulus: int := 0x100
  const Uint16Modulus: int := 0x1_0000
  const Uint32Modulus: int := 0x1_0000_0000

  type uint8 = x: int | 0 <= x < 0x100
  type uint16 = x: int | 0 <= x < 0x1_0000
  type uint32 = x: int | 0 <= x < 0x1_0000_0000

  /** `a + b` on `uint32_t`: exact unless the sum leaves the range, then it wraps once. */
  function Add32(a: uint32, b: uint32): (r: uint32)
    ensures a + b < Uint32Modulus ==> r == a + b
    ensures a + b >= Uint32Modulus ==> r == a + b - Uint32Modulus
  {
    (a + b) % Uint32Modulus
  }

  /** `a - b` on `uint32_t`: exact when `b <= a`, otherwise it wraps round to a large value. */
  function Sub32(a: uint32, b: uint32): (r: uint32)
    ensures b <= a ==> r == a - b
    ensures a < b ==> r == a - b + Uint32Modulus
  {
    (a - b) % Uint32Modulus
  }

  /** `a + b` on `uint8_t`. */
  function Add8(a: uint8, b: uint8): (r: uint8)
    ensures a + b < Uint8Modulus ==> r == a + b
    ensures a + b >= Uint8Modulus ==> r == a + b - Uint8Modulus
  {
    (a + b) % Uint8Modulus
  }

  /** Assignment of an unsigned value to a `uint8_t`: keeps the low eight bits. */
  function Low8(x: nat): (r: uint8)
    ensures x < Uint8Modulus ==> r == x
  {
    x % Uint8Modulus
  }

  function Min(a: int, b: int): int {
    if a < b then a else b
  }
}
