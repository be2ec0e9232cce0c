/** The few pieces of Rust's `core` that the paging logic leans on: `Option`,
    `Result`, the `u64` type and its checked and saturating arithmetic. */
module Core {

  datatype Option<+T> = None | Some(value: T)

  datatype Result<+T, +E> = Ok(value: T) | Err(error: E)

  /** Rust's 64-bit unsigned integer. */
  newtype u64 = x: int | 0 <= x < 0x1_0000_0000_0000_0000

  const U64_MAX: u64 := 0xFFFF_FFFF_FFFF_FFFF

  function MinInt(a: int, b: int): int { if a <= b then a else b }

  function MaxInt(a: int, b: int): int { if a <= b then b else a }

  /** `a.checked_add(b)`: `None` exactly when the sum overflows. */
  function CheckedAdd(a: u64, b: u64): (r: Option<u64>)
    ensures r.Some? <==> a as int + b as int <= U64_MAX as int
    ensures r.Some? ==> r.value as int == a as int + b as int
  {
    if a as int + b as int <= U64_MAX as int then Some(a + b) else None
  }

  /** `a.checked_sub(b)`: `None` exactly when the difference underflows. */
  function CheckedSub(a: u64, b: u64): (r: Option<u64>)
    ensures r.Some? <==> b <= a
    ensures r.Some? ==> r.value as int + b as int == a as int
  {
    if b <= a then Some(a - b) else None
  }

  /** `a.saturating_add(b)`: the sum, stuck at `u64::MAX` instead of wrapping. */
  function SaturatingAdd(a: u64, b: u64): (r: u64)
    ensures r as int == MinInt(a as int + b as int, U64_MAX as int)
  {
    if a as int + b as int <= U64_MAX as int then a + b else U64_MAX
  }

  /** `a.saturating_sub(b)`: the difference, stuck at 0 instead of wrapping. */
  function SaturatingSub(a: u64, b: u64): (r: u64)
    ensures r as int == MaxInt(a as int - b as int, 0)
  {
    if b <= a then a - b else 0
  }

  /** `n as u64` for a length: a `usize` never exceeds `u64::MAX` on the
      64-bit targets the library is built for, so the cast is exact there;
      a longer length is clamped rather than wrapped. */
  function LenAsU64(n: nat): (r: u64)
    ensures n <= U64_MAX as int ==> r as int == n
  {
    if n <= U64_MAX as int then n as u64 else U64_MAX
  }
}
