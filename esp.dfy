/** Shared vocabulary of the firmware: ESP-IDF error codes and the fixed-width
    C integer types the core stores its values in. */
module Esp {

  /** esp_err_t. The core only branches on the first five; every other code a
      driver can hand back is carried unchanged as Other. */
  datatype EspErr = Ok | Fail | InvalidArg | NotFound | Timeout | Other(code: int)

  datatype Option<T> = None | Some(value: T)

  type uint8 = x: int | 0 <= x < 0x100
  type uint16 = x: int | 0 <= x < 0x1_0000
  type uint32 = x: int | 0 <= x < 0x1_0000_0000
  type uint64 = x: int | 0 <= x < 0x1_0000_0000_0000_0000
  type int16 = x: int | -0x8000 <= x < 0x8000

  /** Unsigned 32-bit subtraction as C performs it on uint32_t operands. */
  function Sub32(a: uint32, b: uint32): (r: uint32)
    ensures (b + r) % 0x1_0000_0000 == a
    ensures b <= a ==> r == a - b
  {
    (a - b) % 0x1_0000_0000
  }
}
