/**
 * The handful of Win32 types and constants the bookkeeping code relies on.
 * Handles are pointer values compared by identity; the null handle is
 * address 0. Fixed-width integers are newtypes so that their ranges are
 * explicit wherever the source converts between them.
 */
module Win32 {

  newtype u8 = x: int | 0 <= x < 0x100
  newtype u16 = x: int | 0 <= x < 0x1_0000
  newtype u32 = x: int | 0 <= x < 0x1_0000_0000
  newtype i32 = x: int | -0x8000_0000 <= x < 0x8000_0000

  datatype Option<T> = None | Some(value: T)

  /** A window handle (`HWND`): an opaque pointer, equal only to itself. */
  datatype Hwnd = Hwnd(addr: nat) {
    predicate IsNull() { addr == 0 }
  }

  /** A menu handle (`HMENU`). */
  datatype Hmenu = Hmenu(addr: nat)


  // Window messages
  const WM_DESTROY: u32 := 0x0002
  const WM_PAINT: u32 := 0x000F
  const WM_CHAR: u32 := 0x0102
  const WM_LBUTTONUP: u32 := 0x0202

  // NOTIFYICONDATAW.uFlags bits
  const NIF_TIP: bv32 := 0x0004

  /** `x as i32` for a `u32`: the same 32 bits read as two's complement. */
  function U32AsI32(x: u32): (r: i32)
    ensures (r as int - x as int) % 0x1_0000_0000 == 0
    ensures x < 0x8000_0000 ==> r as int == x as int
  {
    if x < 0x8000_0000 then x as int as i32 else (x as int - 0x1_0000_0000) as i32
  }
}
