/**
 * Machine integers of the Rust and Win32 types the model touches.
 * Dafny integers are unbounded; every width is written out as a range.
 */
module Machine {

  const U32_LIMIT: int := 0x1_0000_0000
  const U64_LIMIT: int := 0x1_0000_0000_0000_0000

  type Byte = x: int | 0 <= x < 0x100
  type U32 = x: int | 0 <= x < U32_LIMIT
  type U64 = x: int | 0 <= x < U64_LIMIT
  type I32 = x: int | -0x8000_0000 <= x < 0x8000_0000
  type I64 = x: int | -0x8000_0000_0000_0000 <= x < 0x8000_0000_0000_0000

  /** An HRESULT is a signed 32-bit status code; zero is `S_OK`. */
  type HResult = I32

  const S_OK: HResult := 0

  /** `E_NOTIMPL` is 0x80004001, read as a signed 32-bit value. */
  const E_NOTIMPL: HResult := 0x8000_4001 - U32_LIMIT

  /** An opaque raw COM interface pointer (`*mut c_void`). Zero is the null pointer. */
  type RawPtr = U64

  /** A window handle; `HWND::default()` is the zero handle. */
  type Hwnd = U64

  const DEFAULT_HWND: Hwnd := 0

  /** `u64::saturating_sub`: the difference, or zero when it would go negative. */
  function SaturatingSub(a: U64, b: U64): (r: U64)
    ensures a >= b ==> r + b == a
    ensures a < b ==> r == 0
  {
    if a >= b then a - b else 0
  }

  /** `u32::try_from(u64)`: succeeds exactly for the values below 2^32. */
  predicate FitsU32(x: U64)
  {
    x < U32_LIMIT
  }
}
