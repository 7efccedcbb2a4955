/**
 * Widths and named constants of the RotaryEncoder library (src/RotaryEncoder.h).
 * Arduino's `byte` is 8 bits and `unsigned long` (the type of millis()) is 32 bits;
 * both wrap around, so they are modelled as bounded integers and every operation
 * that can leave the range reduces its result explicitly.
 */
module EncoderConstants {

  /** An Arduino `byte`: 8 bits, unsigned. */
  type Byte = x: int | 0 <= x < 0x100

  /** An Arduino `unsigned long`: 32 bits, unsigned. Also used for the `unsigned int`
      debounce duration, whose values (16 or 32 bits wide) all fit below 2^32. */
  type ULong = x: int | 0 <= x < 0x1_0000_0000

  /** One sample of the two encoder channels: channel A in bit 1, channel B in bit 0. */
  type Sample = x: int | 0 <= x < 4

  /** Number of distinct `unsigned long` values; unsigned arithmetic is modulo this. */
  const ULongModulus: int := 0x1_0000_0000

  // Defaults the header names; the constructor uses only the debounce duration.
  const DefaultDebounceMs: ULong := 85
  const DefaultPositionMin: int := 0
  const DefaultPositionMax: int := 255

  // History patterns that `reset` loads: both channels high, or both low, when idle.
  const InitialStateHighIdle: Byte := 0x03
  const InitialStateLowIdle: Byte := 0x00

  // The three direction values a classification can take.
  const DirectionNone: int := 0
  const DirectionDown: int := -1
  const DirectionUp: int := 1
}
