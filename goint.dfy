/** Go's `int64` and the parts of its arithmetic the session code relies on. */
module GoInt {
  const TwoTo63: int := 0x8000_0000_0000_0000
  const TwoTo64: int := 0x1_0000_0000_0000_0000
  const MaxUint64: nat := 0xffff_ffff_ffff_ffff

  newtype int64 = x: int | -0x8000_0000_0000_0000 <= x < 0x8000_0000_0000_0000

  const MinInt64: int64 := -0x8000_0000_0000_0000
  const MaxInt64: int64 := 0x7fff_ffff_ffff_ffff

  /** The mathematical sum of `a` and `b` is representable as an int64. */
  predicate AddFits(a: int64, b: int64) {
    -TwoTo63 <= a as int + b as int < TwoTo63
  }

  /** Go's `a + b` on int64 operands: two's-complement wrap-around. */
  function WrapAdd(a: int64, b: int64): (r: int64)
    ensures AddFits(a, b) ==> r as int == a as int + b as int
    ensures (r as int - (a as int + b as int)) % TwoTo64 == 0
  {
    var s := a as int + b as int;
    if s >= TwoTo63 then (s - TwoTo64) as int64
    else if s < -TwoTo63 then (s + TwoTo64) as int64
    else s as int64
  }
}
