/** Small shared vocabulary: optional values, durations and `usize` arithmetic. */
module Base {

  datatype Option<+T> = None | Some(value: T)

  /** A `std::time::Duration`, counted in nanoseconds. */
  type Duration = nat

  const NANOS_PER_SEC: nat := 1_000_000_000

  /** `Duration::as_secs`: whole seconds, the fraction dropped. */
  function AsSecs(d: Duration): nat
  {
    d / NANOS_PER_SEC
  }

  /** `usize::saturating_sub`. */
  function SatSub(a: nat, b: nat): (r: nat)
    ensures a >= b ==> r + b == a
    ensures a < b ==> r == 0
  {
    if a >= b then a - b else 0
  }

  function Min(a: int, b: int): int
  {
    if a <= b then a else b
  }

  /** Rust's `(x).round() as usize` (or `as u32`) for a finite float: halves round
      away from zero, and the cast saturates negative values to 0. */
  function RoundToNat(x: real): (r: nat)
    ensures x <= 0.0 ==> r == 0
    ensures x > 0.0 ==> r as real <= x + 0.5 < r as real + 1.0
  {
    if x <= 0.0 then 0 else (x + 0.5).Floor
  }

  /** Rounding never goes past a whole number the value does not exceed. */
  lemma RoundAtMost(x: real, n: nat)
    requires x <= n as real
    ensures RoundToNat(x) <= n
  {
    if x > 0.0 {
      assert RoundToNat(x) as real < n as real + 1.0;
    }
  }
}
