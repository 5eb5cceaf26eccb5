/** Volume sizes (pkg/provisioner/block/block.go): 64-bit arithmetic and rounding up. */
module Sizes {
  import opened Wrappers

  const MAX64: int := 0x7FFF_FFFF_FFFF_FFFF
  const MIB: int := 1024 * 1024
  const VOLUME_ROUNDING_UP_ENABLED := "volumeRoundingUpEnabled"

  predicate IsInt64(x: int) {
    -MAX64 - 1 <= x <= MAX64
  }

  /** Go's int64 arithmetic wraps around. */
  function Wrap64(x: int): (r: int)
    ensures IsInt64(r)
    ensures IsInt64(x) ==> r == x
    ensures MAX64 < x <= 2 * MAX64 ==> r == x - 2 * (MAX64 + 1)
  {
    (x + MAX64 + 1) % (2 * (MAX64 + 1)) - (MAX64 + 1)
  }

  /** Go's integer division truncates toward zero. */
  function TruncDiv(a: int, b: int): int
    requires b > 0
  {
    if a >= 0 then a / b else -((-a) / b)
  }

  function RoundUpSize(volumeSizeBytes: int, allocationUnitBytes: int): int
    requires IsInt64(volumeSizeBytes) && 0 < allocationUnitBytes <= MAX64
  {
    TruncDiv(Wrap64(volumeSizeBytes + allocationUnitBytes - 1), allocationUnitBytes)
  }

  /** n units are the fewest that hold v. */
  predicate IsCeiling(n: int, v: int, unit: int) {
    (n - 1) * unit < v <= n * unit
  }

  /**
   Rounding up yields the ceiling exactly when the addition does not overflow and the numerator
   is not negative, or is a whole number of units.
   */
  lemma RoundsUpExactly(v: int, unit: int)
    requires IsInt64(v) && 0 < unit <= MAX64
    ensures IsCeiling(RoundUpSize(v, unit), v, unit) <==> v + unit - 1 <= MAX64 && (v + unit - 1 >= 0 || (v - 1) % unit == 0)
  {
    var x := v + unit - 1;
    if x > MAX64 {
      Overflowed(v, unit);
    } else if x >= 0 {
      var n, r := x / unit, x % unit;
      Division(x, unit);
      assert RoundUpSize(v, unit) == n;
      assert (n - 1) * unit == n * unit - unit;
    } else {
      NegativeNumerator(v, unit);
    }
  }

  /** The wrapped numerator is negative, so the result is too small. */
  lemma Overflowed(v: int, unit: int)
    requires IsInt64(v) && 0 < unit <= MAX64 && v + unit - 1 > MAX64
    ensures !IsCeiling(RoundUpSize(v, unit), v, unit)
  {
  }

  lemma NegativeNumerator(v: int, unit: int)
    requires IsInt64(v) && 0 < unit <= MAX64 && v + unit - 1 < 0
    ensures IsCeiling(RoundUpSize(v, unit), v, unit) <==> (v - 1) % unit == 0
  {
    var x := v + unit - 1;
    var q, r := (-x) / unit, (-x) % unit;
    Division(-x, unit);
    assert RoundUpSize(v, unit) == -q;
    Multiply(-q, unit);
    if r == 0 {
      ModUnique(v - 1, -q - 1, 0, unit);
    } else {
      ModUnique(v - 1, -q - 2, unit - r, unit);
    }
  }

  lemma Division(x: int, d: int)
    requires d > 0
    ensures x == (x / d) * d + x % d && 0 <= x % d < d
  {
  }

  /** The neighbouring multiples. */
  lemma Multiply(q: int, d: int)
    ensures (q - 1) * d == q * d - d && (q - 2) * d == q * d - 2 * d
  {
  }

  lemma Multiple(q: int, d: int)
    requires d > 0
    ensures q <= 0 ==> q * d <= 0
    ensures q >= 1 ==> q * d >= d
    ensures q <= -1 ==> q * d <= -d
  {
  }

  lemma ModUnique(x: int, q: int, r: int, d: int)
    requires d > 0 && x == q * d + r && 0 <= r < d
    ensures x % d == r
  {
    var q', r' := x / d, x % d;
    Division(x, d);
    assert (q - q') * d == q * d - q' * d;
    Multiple(q - q', d);
  }

  // ----- quantities -----

  /** The number of bytes of a quantity, fractions rounded up. */
  function Value(q: real): (r: int)
    ensures (r - 1) as real < q <= r as real
  {
    if q.Floor as real == q then q.Floor else q.Floor + 1
  }

  /** A quantity whose size can be computed without overflow. */
  predicate Sizable(q: real) {
    q >= 0.0 && Value(q) <= MAX64 - (MIB - 1)
  }

  function SizeInMBs(q: real): int
    requires IsInt64(Value(q))
  {
    RoundUpSize(Value(q), MIB)
  }

  /** The size requested is the least whole number of MiB that holds the quantity, fractional bytes included. */
  lemma SizeIsLeast(q: real)
    requires Sizable(q)
    ensures SizeInMBs(q) >= 0 && (SizeInMBs(q) * MIB) as real >= q
    ensures forall n: int :: (n * MIB) as real >= q ==> n >= SizeInMBs(q)
  {
    RoundsUpExactly(Value(q), MIB);
    var m := SizeInMBs(q);
    forall n: int | (n * MIB) as real >= q
      ensures n >= m
    {
      assert n * MIB >= Value(q);
    }
  }

  function Max(a: real, b: real): real {
    if a >= b then a else b
  }

  function MaxInt(a: int, b: int): int {
    if a >= b then a else b
  }

  /** Rounding the larger quantity is taking the larger of the rounded sizes. */
  lemma RoundingCommutesWithMax(p: real, q: real)
    requires Sizable(p) && Sizable(q)
    ensures SizeInMBs(Max(p, q)) == MaxInt(SizeInMBs(p), SizeInMBs(q))
  {
    SizeIsLeast(p);
    SizeIsLeast(q);
  }

  /** strconv.ParseBool; None is its error. */
  function ParseBool(s: string): Option<bool> {
    if s in ["1", "t", "T", "TRUE", "true", "True"] then Some(true)
    else if s in ["0", "f", "F", "FALSE", "false", "False"] then Some(false)
    else None
  }

  /** Rounding is on unless the parameter is present and reads as false; a malformed value leaves it on. */
  function VolumeRoundingEnabled(parameters: map<string, string>): (r: bool)
    ensures !r <==>
      VOLUME_ROUNDING_UP_ENABLED in parameters && parameters[VOLUME_ROUNDING_UP_ENABLED] in ["0", "f", "F", "FALSE", "false", "False"]
  {
    !(VOLUME_ROUNDING_UP_ENABLED in parameters && ParseBool(parameters[VOLUME_ROUNDING_UP_ENABLED]) == Some(false))
  }
}
