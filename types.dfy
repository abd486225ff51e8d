/**
 * Machine integer widths and pointers shared by every module.
 *
 * Raw data pointers are addresses (`Ptr`, 0 is null). Function pointers
 * are identified by the symbol they point at.
 */
module Types {
  type u8 = x: int | 0 <= x < 0x100
  type u16 = x: int | 0 <= x < 0x1_0000
  type u32 = x: int | 0 <= x < 0x1_0000_0000
  type u64 = x: int | 0 <= x < 0x1_0000_0000_0000_0000
  type i8 = x: int | -0x80 <= x < 0x80
  type i32 = x: int | -0x8000_0000 <= x < 0x8000_0000
  type i64 = x: int | -0x8000_0000_0000_0000 <= x < 0x8000_0000_0000_0000

  /** A raw data pointer (`*mut c_void`, `usize`, `HANDLE`). */
  type Ptr = u64

  const NULL: Ptr := 0

  /** A function pointer, named by the routine it designates. */
  datatype FnPtr = FnPtr(symbol: string)
}
