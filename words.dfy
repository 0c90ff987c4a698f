/** Fixed-width integer types of the native structures, as subsets of the unbounded integers. */
module Words {

  /** An unsigned 8-bit value (C# `byte`). */
  type byte = x: int | 0 <= x < 0x100

  /** An unsigned 16-bit value (C# `ushort`). */
  type uint16 = x: int | 0 <= x < 0x1_0000

  /** A signed 32-bit value (C# `int`, native `int`/`long` on Windows). */
  type int32 = x: int | -0x8000_0000 <= x < 0x8000_0000

  /** An unsigned 32-bit value (C# `uint`). */
  type uint32 = x: int | 0 <= x < 0x1_0000_0000
}
