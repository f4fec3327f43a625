/** The machine integers of the program, and its checked arithmetic on them. */
module MachineInts {
  import opened Wrappers

  const U32_LIMIT: nat := 0x1_0000_0000
  const U64_LIMIT: nat := 0x1_0000_0000_0000_0000
  const U128_LIMIT: nat := 0x1_0000_0000_0000_0000_0000_0000_0000_0000
  const I64_MIN: int := -0x8000_0000_0000_0000
  const I64_MAX: int := 0x7fff_ffff_ffff_ffff
  const I128_MAX: int := 0x7fff_ffff_ffff_ffff_ffff_ffff_ffff_ffff

  newtype byte = x: int | 0 <= x < 256
  type u32 = x: nat | x < U32_LIMIT
  type u64 = x: nat | x < U64_LIMIT
  type u128 = x: nat | x < U128_LIMIT
  type i64 = x: int | I64_MIN <= x <= I64_MAX

  /** The ranges in plain numbers. */
  lemma Ranges()
    ensures U32_LIMIT == 4_294_967_296 && U64_LIMIT == 18_446_744_073_709_551_616
    ensures U128_LIMIT == U64_LIMIT * 18_446_744_073_709_551_616
    ensures I64_MIN == -9_223_372_036_854_775_808 && I64_MAX == 9_223_372_036_854_775_807
    ensures 2 * (I128_MAX + 1) == U128_LIMIT
  {
  }

  function Min(a: nat, b: nat): nat {
    if a < b then a else b
  }

  function CheckedMulU64(a: u64, b: u64): (r: Option<u64>) {
    if a * b < U64_LIMIT then Some(a * b) else None
  }

  function CheckedAddU64(a: u64, b: u64): (r: Option<u64>) {
    if a + b < U64_LIMIT then Some(a + b) else None
  }

  function CheckedAddI64(a: i64, b: i64): (r: Option<i64>) {
    if I64_MIN <= a + b <= I64_MAX then Some(a + b) else None
  }

  function CheckedSubI64(a: i64, b: i64): (r: Option<i64>) {
    if I64_MIN <= a - b <= I64_MAX then Some(a - b) else None
  }

  function CheckedSubI128(a: int, b: int): (r: Option<int>) {
    if -I128_MAX - 1 <= a - b <= I128_MAX then Some(a - b) else None
  }

  function I64FromU64(a: u64): (r: Option<i64>) {
    if a <= I64_MAX then Some(a) else None
  }

  function I128FromU128(a: u128): (r: Option<int>) {
    if a <= I128_MAX then Some(a) else None
  }

  /** The `as u64` cast, which wraps negative numbers. */
  function AsU64(a: i64): (r: u64)
    ensures (r - a) % 18_446_744_073_709_551_616 == 0
  {
    if a < 0 then a + U64_LIMIT else a
  }

  function UnsignedAbs(x: i64): (r: u64) {
    var wide: int := x;
    if wide < 0 then -wide else wide
  }

  function ClampToI64(x: int): (r: i64) {
    if x < I64_MIN then I64_MIN else if x > I64_MAX then I64_MAX else x
  }
}
