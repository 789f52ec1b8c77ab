/** The fixed-width unsigned C integer types that main.c keeps its state in.
    Arithmetic on them is written out with an explicit modulus wherever the
    C code can wrap around. */
module CTypes {
  /** unsigned char */
  type uint8 = x: int | 0 <= x < 0x100
  /** unsigned short */
  type uint16 = x: int | 0 <= x < 0x1_0000
  /** unsigned int, and the 32-bit TickType_t of the FreeRTOS port */
  type uint32 = x: int | 0 <= x < 0x1_0000_0000

  const UINT32_MODULUS: int := 0x1_0000_0000
}
