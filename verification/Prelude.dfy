/** Vocabulary shared by every module: optional values, results, the seam's
    error taxonomy and the 64-bit arithmetic the sources rely on. */
module Prelude {

  datatype Option<+T> = None | Some(value: T)

  datatype Result<+T, +E> = Ok(value: T) | Err(error: E)

  const U64_MAX: nat := 0xFFFF_FFFF_FFFF_FFFF

  /** Offsets, lengths and totals are `u64` in the sources. */
  type U64 = n: nat | n <= U64_MAX

  type Byte = n: nat | n < 256

  /** The error taxonomy; message texts are not modelled. */
  datatype StreamError =
    | Cancelled
    | Released
    | Superseded
    | Evicted
    | Expired
    | Transient
    | AuthRequired
    | RateLimited(retryAfterMs: Option<nat>)
    | StreamsCapped
    | InvalidResponse
    | ProviderWall
    | Internal
    | NotFound

  function Min(a: int, b: int): int {
    if a <= b then a else b
  }

  function Max(a: int, b: int): int {
    if a <= b then b else a
  }

  /** `u64::saturating_add`. */
  function SatAdd(a: nat, b: nat): U64 {
    if a + b <= U64_MAX then a + b else U64_MAX
  }
}
