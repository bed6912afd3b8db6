/** The records the backend hands to the widget: one day of contributions,
    and the reply of the fetch command. */
module Contribution {
  import opened Wrappers

  const TwoTo31: int := 0x8000_0000
  const TwoTo32: int := 0x1_0000_0000

  /** Rust's `i32`. */
  type I32 = x: int | -TwoTo31 <= x < TwoTo31

  /** Rust's `x as i32` on a wider integer: keeps the low 32 bits and reads them
      as two's complement. The result is the 32-bit value congruent to `x`. */
  function WrapI32(x: int): (r: I32)
    ensures (x - r) % TwoTo32 == 0
  {
    var low := x % TwoTo32;
    if low < TwoTo31 then low else low - TwoTo32
  }

  /** `as i32` changes nothing on a value that already fits. */
  lemma WrapI32Identity(x: int)
    requires -TwoTo31 <= x < TwoTo31
    ensures WrapI32(x) == x
  {
  }

  /** `as i32` picks the ONLY 32-bit value congruent to its input modulo 2^32. */
  lemma WrapI32Unique(x: int, y: I32)
    requires (x - y) % TwoTo32 == 0
    ensures WrapI32(x) == y
  {
  }

  /** One calendar day: its date text and its contribution count. */
  datatype Day = Day(date: string, contributionCount: I32)

  /** The reply of the fetch command: `ok` with the days, or not `ok` with an
      error text. */
  datatype FetchResult = FetchResult(ok: bool, data: Option<seq<Day>>, error: Option<string>)

  /** The reply shape the command produces on its success path. */
  function Served(days: seq<Day>): FetchResult {
    FetchResult(true, Some(days), None)
  }

  /** The reply shape the command produces on its failure path. */
  function Refused(error: string): FetchResult {
    FetchResult(false, None, Some(error))
  }

  /** Every reply the command builds is one of the two shapes: `ok` goes with
      data and no error, not `ok` with an error and no data. */
  predicate WellShaped(r: FetchResult) {
    if r.ok then r.data.Some? && r.error.None? else r.data.None? && r.error.Some?
  }
}
