/**
 * The data annotations the DTOs and entities carry, as validity predicates:
 * `[Required]`, `[MaxLength]`, `[Range]` and the EF Core `[Precision]`
 * column mapping, over the model of C#'s `decimal` given here.
 */
module Annotations {
  import opened Wrappers
  import opened Text

  /** A C# `decimal`, held exactly as a whole number of 10^-28, the finest
      scale a `decimal` has. Every decimal (a 96-bit mantissa over a power of
      ten up to 10^28) is one of these. */
  datatype Decimal = Decimal(units: int)

  /** 10^28, 10^26 and 10^24 units: one, one hundredth, one ten-thousandth. */
  const One: int := 10000000000000000000000000000
  const Hundredth: int := 100000000000000000000000000
  const TenThousandth: int := 1000000000000000000000000

  /** The literal `n` (`1`, `100`), `n / 100` (`9999999999999999.99`) and
      `n / 10000` (`1.0000`). */
  function Whole(n: int): Decimal { Decimal(n * One) }
  function Cents(n: int): Decimal { Decimal(n * Hundredth) }
  function TenThousandths(n: int): Decimal { Decimal(n * TenThousandth) }

  predicate AtMost(a: Decimal, b: Decimal) {
    a.units <= b.units
  }

  /** `d` has no more than two, or four, digits after the point. */
  predicate HasTwoDecimalsAtMost(d: Decimal) { d.units % Hundredth == 0 }
  predicate HasFourDecimalsAtMost(d: Decimal) { d.units % TenThousandth == 0 }

  /** `[Required]` on a nullable value (a number, a date, an id): not null. */
  predicate RequiredValue<T>(v: Option<T>) {
    v.Some?
  }

  /** `[Required]` on a string: with `AllowEmptyStrings` left false, null,
      empty and white-space-only strings all fail. */
  predicate RequiredString(s: Option<string>) {
    HasText(s)
  }

  /** `[MaxLength(n)]` on a string: null passes; otherwise `Length <= n`,
      counting UTF-16 code units. */
  predicate MaxLength(s: Option<string>, n: nat) {
    s.None? || Utf16Length(s.value) <= n
  }

  /** `int.MinValue` and `int.MaxValue`, and the values of a C# `int`. */
  const IntMinValue: int := -0x8000_0000
  const IntMaxValue: int := 0x7FFF_FFFF
  type Int32 = x: int | IntMinValue <= x <= IntMaxValue

  /** `[Range(lo, hi)]` on an `int?`: null passes, bounds are inclusive. */
  predicate IntRange(v: Option<int>, lo: int, hi: int) {
    v.None? || lo <= v.value <= hi
  }

  /** `Convert.ToInt32(decimal)` before its overflow check: the nearest whole
      number, a tie going to the even neighbour. */
  function RoundHalfEven(d: Decimal): (n: int)
    ensures -One <= 2 * (d.units - n * One) <= One
    ensures 2 * (d.units - n * One) == One || 2 * (d.units - n * One) == -One ==> n % 2 == 0
  {
    var q := d.units / One;
    var rest := d.units % One;
    if 2 * rest < One then q
    else if 2 * rest > One then q + 1
    else if q % 2 == 0 then q
    else q + 1
  }

  /** `[Range(lo, hi)]` with `int` bounds on a `decimal?`: null passes;
      otherwise the value is converted to `int` first, so it is the rounded
      value that must lie in [lo, hi]. */
  predicate IntRangeOnDecimal(v: Option<Decimal>, lo: int, hi: int) {
    v.None? || lo <= RoundHalfEven(v.value) <= hi
  }

  /** `[Range]` with `decimal` or `double` bounds on a `decimal?`: null
      passes, bounds are inclusive. */
  predicate DecimalRange(v: Option<Decimal>, lo: Decimal, hi: Decimal) {
    v.None? || (AtMost(lo, v.value) && AtMost(v.value, hi))
  }

  /** `[Precision(18, 2)]`: a SQL `decimal(18, 2)` column stores `d`
      exactly: at most two digits after the point and sixteen before it. */
  predicate FitsDecimal18x2(d: Decimal) {
    HasTwoDecimalsAtMost(d) && -Pow16() < d.units < Pow16()
  }

  /** `[Precision(5, 4)]`: a SQL `decimal(5, 4)` column stores `d` exactly:
      at most four digits after the point and one before it. */
  predicate FitsDecimal5x4(d: Decimal) {
    HasFourDecimalsAtMost(d) && -10 * One < d.units < 10 * One
  }

  /** 10^16 in units: the first amount too large for `decimal(18, 2)`. */
  function Pow16(): int { 10000000000000000 * One }

  /** 9999999999999999.99, the largest value of a `decimal(18, 2)` column and
      the upper bound of the sale-price and goal-amount ranges. */
  function MaxMoney(): Decimal {
    Cents(999999999999999999)
  }

  /** A non-negative amount with at most two decimals fits `decimal(18, 2)`
      exactly when it is at most 9999999999999999.99, so the range the DTOs
      declare is the column's own limit. */
  lemma MoneyRangeIsColumnRange(d: Decimal)
    requires HasTwoDecimalsAtMost(d) && 0 <= d.units
    ensures FitsDecimal18x2(d) <==> AtMost(d, MaxMoney())
  {
    var k := d.units / Hundredth;
    assert d.units == k * Hundredth;
  }
}
