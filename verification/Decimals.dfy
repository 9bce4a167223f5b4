/**
 * Exact numbers: 128-bit checked rescaling and the precision test of src/builders.rs, and
 * its conversions of instants and days to the integers Arrow stores.
 */
module Decimals {
  import opened Wrappers
  import opened Types

  const I128_LIMIT: int := 0x8000_0000_0000_0000_0000_0000_0000_0000
  const I64_LIMIT: int := 0x8000_0000_0000_0000
  const I32_LIMIT: int := 0x8000_0000

  predicate Within(n: int, limit: int) {
    -limit <= n < limit
  }

  function Narrowed(n: int, limit: int): Option<int> {
    if Within(n, limit) then Some(n) else None
  }

  function Pow10(e: nat): int {
    if e == 0 then 1 else 10 * Pow10(e - 1)
  }

  /** `10i128.checked_pow(e)` */
  function CheckedPow10(e: nat): Option<int> {
    Narrowed(Pow10(e), I128_LIMIT)
  }

  /** What tiberius decodes a NUMERIC to: an unscaled value and its own scale. */
  datatype Numeric = Numeric(value: int, scale: nat)

  predicate Decoded(n: Numeric) {
    Within(n.value, I128_LIMIT) && n.scale < 256
  }

  function DecimalAtScale(n: Numeric, target: int): Option<int> {
    if target == n.scale then Some(n.value)
    else if target > n.scale then
      var factor := CheckedPow10(target - n.scale);
      if factor.None? then None else Narrowed(n.value * factor.value, I128_LIMIT)
    else None
  }

  predicate DecimalFitsPrecision(value: int, precision: nat) {
    var limit := CheckedPow10(precision);
    limit.Some? && -limit.value < value < limit.value
  }

  /** The decimal arm of `append`: the integer to store, or a refusal. */
  function Unscaled(n: Numeric, precision: nat, scale: int): Option<int> {
    var unscaled := DecimalAtScale(n, scale);
    if unscaled.None? || !DecimalFitsPrecision(unscaled.value, precision) then None else unscaled
  }

  function Abs(n: int): nat {
    if n < 0 then -n else n
  }

  // ------------------------------------------------------------------------- arithmetic

  lemma {:induction false} PowPositive(e: nat)
    ensures Pow10(e) >= 1
  {
    if e > 0 {
      PowPositive(e - 1);
    }
  }

  lemma {:induction false} PowGrows(a: nat, b: nat)
    requires a <= b
    ensures Pow10(a) <= Pow10(b)
  {
    PowPositive(a);
    if a < b {
      PowGrows(a, b - 1);
      PowPositive(b - 1);
    }
  }

  lemma {:induction false} PowSplit(a: nat, b: nat)
    ensures Pow10(a + b) == Pow10(a) * Pow10(b)
  {
    if a > 0 {
      PowSplit(a - 1, b);
      assert a + b - 1 == (a - 1) + b;
      Associates(10, Pow10(a - 1), Pow10(b));
    }
  }

  lemma Associates(a: int, b: int, c: int)
    ensures a * (b * c) == (a * b) * c
  {
  }

  lemma GreatestPower()
    ensures Pow10(38) < I128_LIMIT <= Pow10(39)
  {
    assert Pow10(10) == 10_000_000_000;
    PowSplit(10, 10);
    PowSplit(20, 10);
    PowSplit(30, 8);
    assert Pow10(8) == 100_000_000;
  }

  /** Every power a valid column needs is below the 128-bit limit. */
  lemma PowersFit(e: nat)
    requires e <= MAX_DECIMAL_PRECISION
    ensures 1 <= Pow10(e) < I128_LIMIT
    ensures CheckedPow10(e) == Some(Pow10(e))
  {
    PowPositive(e);
    PowGrows(e, 38);
    GreatestPower();
  }

  // ------------------------------------------------------------------------ the theorem

  /**
   * Exact decimals. In a column Arrow can hold, a value is accepted exactly when its scale is
   * at most the column's and its magnitude, rescaled without any bound, is below ten to the
   * precision; no overflow check refuses a value that fits.
   */
  lemma AcceptedExactly(n: Numeric, precision: nat, scale: nat)
    requires Decoded(n) && ValidDecimal(precision, scale)
    ensures Unscaled(n, precision, scale).Some? <==>
            n.scale <= scale && Abs(n.value * Pow10(scale - n.scale)) < Pow10(precision)
  {
    PowersFit(precision);
    if n.scale < scale {
      PowersFit(scale - n.scale);
    }
  }

  /** The stored integer at the column's scale is the same rational number, and is within
      the column's precision. */
  lemma StoredIsSame(n: Numeric, precision: nat, scale: nat)
    requires Decoded(n) && ValidDecimal(precision, scale)
    ensures Unscaled(n, precision, scale).Some? ==>
      var stored := Unscaled(n, precision, scale).value;
      && n.scale <= scale
      && stored * Pow10(n.scale) == n.value * Pow10(scale)
      && Abs(stored) < Pow10(precision)
      && Within(stored, I128_LIMIT)
  {
    PowersFit(precision);
    if Unscaled(n, precision, scale).Some? {
      assert Unscaled(n, precision, scale).value == n.value * Pow10(scale - n.scale);
      PowSplit(scale - n.scale, n.scale);
      Associates(n.value, Pow10(scale - n.scale), Pow10(n.scale));
    }
  }

  lemma NegativeScaleRefuses(n: Numeric, precision: nat, scale: int)
    requires scale < 0
    ensures Unscaled(n, precision, scale).None?
  {
  }

  /** So it is in any column whatever: what is stored is what was sent. */
  lemma RescaledIsSame(n: Numeric, precision: nat, scale: int)
    requires Unscaled(n, precision, scale).Some?
    ensures scale >= 0 && Unscaled(n, precision, scale).value * Pow10(n.scale) == n.value * Pow10(scale)
  {
    PowSplit(scale - n.scale, n.scale);
    Associates(n.value, Pow10(scale - n.scale), Pow10(n.scale));
  }

  /** The branch for a precision whose power overflows is never taken for a resolved column,
      and it would be for any wider one. */
  lemma OverflowBranch(precision: nat)
    ensures CheckedPow10(precision).None? <==> precision > MAX_DECIMAL_PRECISION
  {
    if precision <= MAX_DECIMAL_PRECISION {
      PowersFit(precision);
    } else {
      PowGrows(39, precision);
      GreatestPower();
    }
  }

  /** Columns the catalog calls decimal get these guarantees, whatever it declares. */
  lemma ResolvedColumnIsExact(dataType: string, p: Option<int>, s: Option<int>, n: Numeric)
    requires Decoded(n) && Resolve(dataType, p, s).sql.Decimal?
    ensures var t := Resolve(dataType, p, s).sql;
            && ValidDecimal(t.precision, t.scale)
            && CheckedPow10(t.precision).Some?
            && (Unscaled(n, t.precision, t.scale).Some? <==>
                  n.scale <= t.scale && Abs(n.value * Pow10(t.scale - n.scale)) < Pow10(t.precision))
  {
    ResolvedDecimal(dataType, p, s);
    var t := Resolve(dataType, p, s).sql;
    OverflowBranch(t.precision);
    AcceptedExactly(n, t.precision, t.scale);
  }

  // ------------------------------------------------------------------- instants and days

  // The calendar chrono can hold: 1 January of year -262143 to 31 December of year 262142.
  const MIN_DAY := -96_465_292
  const MAX_DAY := 95_026_236
  const SECONDS_A_DAY := 86_400

  /** An instant in UTC: whole seconds, floored, and the microseconds after them. */
  datatype Instant = Instant(seconds: int, micros: nat)

  /** What a `DateTime<Utc>` can hold. */
  predicate InCalendar(at: Instant) {
    && MIN_DAY * SECONDS_A_DAY <= at.seconds < (MAX_DAY + 1) * SECONDS_A_DAY
    && at.micros < 1_000_000
  }

  function MicrosSinceEpoch(at: Instant): Option<int> {
    var whole := Narrowed(at.seconds * 1_000_000, I64_LIMIT);
    if whole.None? then None else Narrowed(whole.value + at.micros, I64_LIMIT)
  }

  function DaysSinceEpoch(days: int): Option<int> {
    Narrowed(days, I32_LIMIT)
  }

  /** The days of the Gregorian calendar before 1 January of a year, counted from year 1. */
  function DaysBefore(year: int): int {
    var y := year - 1;
    365 * y + y / 4 - y / 100 + y / 400
  }

  lemma MultiplesBelow(y: int)
    ensures (y + 1) / 4 - y / 4 == if (y + 1) % 4 == 0 then 1 else 0
    ensures (y + 1) / 100 - y / 100 == if (y + 1) % 100 == 0 then 1 else 0
    ensures (y + 1) / 400 - y / 400 == if (y + 1) % 400 == 0 then 1 else 0
  {
  }

  lemma MultiplesOf400(q: int)
    ensures (400 * q) % 100 == 0
  {
    var m := 4 * q;
    assert (100 * m) % 100 == 0;
  }

  lemma MultiplesOf100(q: int)
    ensures (100 * q) % 4 == 0
  {
    var m := 25 * q;
    assert (4 * m) % 4 == 0;
  }

  lemma Divides(year: int)
    ensures year % 400 == 0 ==> year % 100 == 0
    ensures year % 100 == 0 ==> year % 4 == 0
  {
    if year % 400 == 0 {
      MultiplesOf400(year / 400);
    }
    if year % 100 == 0 {
      MultiplesOf100(year / 100);
    }
  }

  /** The bounds are those days, and that calendar has leap years where it should. */
  lemma CalendarBounds(year: int)
    ensures MIN_DAY == DaysBefore(-262143) - DaysBefore(1970)
    ensures MAX_DAY == DaysBefore(262143) - DaysBefore(1970) - 1
    ensures DaysBefore(year + 1) - DaysBefore(year) ==
            if year % 4 == 0 && (year % 100 != 0 || year % 400 == 0) then 366 else 365
  {
    MultiplesBelow(year - 1);
    Divides(year);
  }

  /** No checked step ever refuses a date or an instant the calendar can hold: it becomes its
      own count of days or microseconds, before 1970 as after. */
  lemma CalendarConverts(at: Instant, days: int)
    requires InCalendar(at) && MIN_DAY <= days <= MAX_DAY
    ensures MicrosSinceEpoch(at) == Some(at.seconds * 1_000_000 + at.micros)
    ensures DaysSinceEpoch(days) == Some(days)
  {
  }

  /** Distinct instants stay distinct, and in order. */
  lemma MicrosKeepOrder(a: Instant, b: Instant)
    requires InCalendar(a) && InCalendar(b)
    ensures MicrosSinceEpoch(a).Some? && MicrosSinceEpoch(b).Some?
    ensures MicrosSinceEpoch(a).value < MicrosSinceEpoch(b).value <==>
            a.seconds < b.seconds || (a.seconds == b.seconds && a.micros < b.micros)
    ensures MicrosSinceEpoch(a) == MicrosSinceEpoch(b) <==> a == b
  {
    CalendarConverts(a, 0);
    CalendarConverts(b, 0);
  }
}
