/**
 * Go's fixed-width integers. Dafny integers are unbounded, so the 64-bit
 * ranges are subset types and two's-complement wrap-around is explicit.
 * Go's `uint` is taken to be 64 bits wide.
 */
module Ints {

  const TwoTo64: int := 0x1_0000_0000_0000_0000
  const MinInt64: int := -0x8000_0000_0000_0000
  const MaxInt64: int := 0x7fff_ffff_ffff_ffff
  const MaxUint64: int := 0xffff_ffff_ffff_ffff

  type Int64 = x: int | -0x8000_0000_0000_0000 <= x <= 0x7fff_ffff_ffff_ffff
  type Uint64 = x: int | 0 <= x <= 0xffff_ffff_ffff_ffff

  /** The int64 that a Go conversion or overflowing int64 operation yields for the exact value `x`. */
  function Wrap64(x: int): (r: Int64)
    ensures (r - x) % TwoTo64 == 0
    ensures MinInt64 <= x <= MaxInt64 ==> r == x
    ensures MaxInt64 < x <= MaxUint64 ==> r == x - TwoTo64
  {
    var y := x - MinInt64;
    assert MaxInt64 < x <= MaxUint64 ==> y % TwoTo64 == y - TwoTo64;
    y % TwoTo64 + MinInt64
  }

  /** Two uint64 values that wrap to the same int64 are equal: `int(x)` loses nothing. */
  lemma Wrap64InjectiveOnUint64(x: Uint64, y: Uint64)
    ensures Wrap64(x) == Wrap64(y) ==> x == y
  {
    var d := (Wrap64(y) - y) - (Wrap64(x) - x);
    assert (Wrap64(x) - x) % TwoTo64 == 0 && (Wrap64(y) - y) % TwoTo64 == 0;
    assert d % TwoTo64 == 0;
  }
}
