/** Small shared vocabulary: optional values, results, and time in nanoseconds. */
module Basics {
  datatype Option<+T> = None | Some(value: T) {
    function GetOr(default: T): T {
      if Some? then value else default
    }
  }

  datatype Result<+T, +E> = Success(value: T) | Failure(error: E)

  // A point on the monotonic clock, and a length of time, both in nanoseconds.
  type Instant = nat
  type Duration = nat

  const NANOS: nat := 1_000_000_000
  const NANOS_PER_MILLI: nat := 1_000_000
  const U64_MAX: nat := 0xFFFF_FFFF_FFFF_FFFF
  const I64_MAX: nat := 0x7FFF_FFFF_FFFF_FFFF

  type Byte = b: int | 0 <= b < 256
  type Bytes = seq<Byte>

  function Max(a: int, b: int): int {
    if a >= b then a else b
  }

  function Min(a: int, b: int): int {
    if a <= b then a else b
  }

  // `u64::saturating_add` and `u64::saturating_mul`.
  function SatAdd(a: nat, b: nat): nat {
    Min(a + b, U64_MAX)
  }

  function SatMul(a: nat, b: nat): nat {
    Min(a * b, U64_MAX)
  }

  // `Instant::saturating_duration_since`.
  function Elapsed(now: Instant, since: Instant): Duration {
    if now >= since then now - since else 0
  }

  function Seconds(s: nat): Duration {
    s * NANOS
  }

  function Millis(ms: nat): Duration {
    ms * NANOS_PER_MILLI
  }
}
