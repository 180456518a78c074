/** The packed colour value every drawing call carries. */
module Colors {

  /** A GrxColor: an unsigned 32-bit value; the top byte holds the write mode. */
  newtype Color = x: int | 0 <= x < 0x1_0000_0000

  /** The write-mode byte for XOR. */
  const ModeXor: Color := 0x0100_0000

  /** GRX_COLOR_NONE: XOR with a zero value, a colour that changes no pixel.
      The library uses it to mark a colour slot that holds no value yet. */
  const ColorNone: Color := ModeXor
}
