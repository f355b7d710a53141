/** Small shared types: an optional value and the C fixed-width integers
    the modelled code uses. */
module Common {

  /** An optional value; `None` stands for a C null pointer or a Rust
      `None` / panic. */
  datatype Option<+T> = None | Some(value: T)

  /** C `uint8_t`. */
  type Byte = x: int | 0 <= x < 256

  const U32_MODULUS: int := 0x1_0000_0000

  /** C `uint32_t`. */
  type U32 = x: int | 0 <= x < U32_MODULUS
}
