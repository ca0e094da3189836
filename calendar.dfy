/**
 * What `time.Unix(t, 0).UTC().Format(layout)` computes: Unix seconds read as
 * an instant in UTC, split into a proleptic Gregorian civil date and a time of
 * day, and written out element by element of a layout.
 *
 * The day count is turned into a date by the 400/100/4/1-year cycle
 * decomposition; it is specified against DaysBeforeYear, a closed-form count of
 * the days from 1970-01-01 to the first day of a year, which is itself pinned
 * down by DaysBeforeYearStep (each year adds its length) and DaysBeforeYear(1970) == 0.
 */
module Calendar {

  import opened Strconv

  const SecondsPerDay: int := 86400

  /** Days from 0001-01-01 to 1970-01-01 in the proleptic Gregorian calendar. */
  const EpochDaysFromYearOne: int := 719162

  predicate IsLeapYear(y: int)
  {
    y % 4 == 0 && (y % 100 != 0 || y % 400 == 0)
  }

  function YearLength(y: int): int
  {
    if IsLeapYear(y) then 366 else 365
  }

  function DaysInMonth(y: int, m: int): int
    requires 1 <= m <= 12
  {
    if m == 2 then (if IsLeapYear(y) then 29 else 28)
    else if m == 4 || m == 6 || m == 9 || m == 11 then 30
    else 31
  }

  /** Days of year y before the first day of month m (m == 13 gives the whole year). */
  function DaysBeforeMonth(y: int, m: int): int
    requires 1 <= m <= 13
  {
    (match m
     case 1 => 0
     case 2 => 31
     case 3 => 59
     case 4 => 90
     case 5 => 120
     case 6 => 151
     case 7 => 181
     case 8 => 212
     case 9 => 243
     case 10 => 273
     case 11 => 304
     case 12 => 334
     case _ => 365)
    + (if m > 2 && IsLeapYear(y) then 1 else 0)
  }

  /** Number of leap years among 1..y (floor division extends it below year 1). */
  function LeapYearsThrough(y: int): int
  {
    y / 4 - y / 100 + y / 400
  }

  /** Days from 1970-01-01 to y-01-01 (negative for earlier years). */
  function DaysBeforeYear(y: int): int
  {
    365 * (y - 1970) + LeapYearsThrough(y - 1) - LeapYearsThrough(1969)
  }

  predicate ValidDate(y: int, m: int, d: int)
  {
    1 <= m <= 12 && 1 <= d <= DaysInMonth(y, m)
  }

  /** Days from 1970-01-01 to the date y-m-d. */
  function DaysFromCivil(y: int, m: int, d: int): int
    requires 1 <= m <= 12
  {
    DaysBeforeYear(y) + DaysBeforeMonth(y, m) + d - 1
  }

  // ---------------------------------------------------------------------------
  // Facts about the year and month tables

  lemma DaysBeforeYearEpoch()
    ensures DaysBeforeYear(1970) == 0
  {
  }

  /** Each year adds exactly its own length to the count. */
  lemma DaysBeforeYearStep(y: int)
    ensures DaysBeforeYear(y + 1) == DaysBeforeYear(y) + YearLength(y)
  {
    LeapYearsStep(y);
  }

  /** Year y is counted by LeapYearsThrough(y) and not by LeapYearsThrough(y - 1) exactly when it is a leap year. */
  lemma LeapYearsStep(y: int)
    ensures LeapYearsThrough(y) - LeapYearsThrough(y - 1) == if IsLeapYear(y) then 1 else 0
  {
    DivStep4(y);
    DivStep100(y);
    DivStep400(y);
  }

  lemma DivStep4(y: int)
    ensures y / 4 - (y - 1) / 4 == if y % 4 == 0 then 1 else 0
  {
  }

  lemma DivStep100(y: int)
    ensures y / 100 - (y - 1) / 100 == if y % 100 == 0 then 1 else 0
  {
  }

  lemma DivStep400(y: int)
    ensures y / 400 - (y - 1) / 400 == if y % 400 == 0 then 1 else 0
  {
  }

  lemma {:induction false} DaysBeforeYearMonotone(a: int, b: int)
    requires a <= b
    ensures DaysBeforeYear(a) + 365 * (b - a) <= DaysBeforeYear(b)
    decreases b - a
  {
    if a < b {
      DaysBeforeYearMonotone(a, b - 1);
      DaysBeforeYearStep(b - 1);
    }
  }

  /** Two day numbers inside years y1 and y2 coincide only when the years do. */
  lemma YearUnique(y1: int, d1: int, y2: int, d2: int)
    requires 0 <= d1 < YearLength(y1) && 0 <= d2 < YearLength(y2)
    requires DaysBeforeYear(y1) + d1 == DaysBeforeYear(y2) + d2
    ensures y1 == y2 && d1 == d2
  {
    if y1 < y2 {
      DaysBeforeYearStep(y1);
      DaysBeforeYearMonotone(y1 + 1, y2);
    } else if y2 < y1 {
      DaysBeforeYearStep(y2);
      DaysBeforeYearMonotone(y2 + 1, y1);
    }
  }

  lemma DaysBeforeMonthStep(y: int, m: int)
    requires 1 <= m <= 12
    ensures DaysBeforeMonth(y, m + 1) == DaysBeforeMonth(y, m) + DaysInMonth(y, m)
  {
  }

  lemma {:induction false} DaysBeforeMonthMonotone(y: int, a: int, b: int)
    requires 1 <= a <= b <= 13
    ensures DaysBeforeMonth(y, a) <= DaysBeforeMonth(y, b)
    decreases b - a
  {
    if a < b {
      DaysBeforeMonthStep(y, a);
      DaysBeforeMonthMonotone(y, a + 1, b);
    }
  }

  // ---------------------------------------------------------------------------
  // Day number to civil date

  /**
   * Day d (0-based) of a 400-year cycle that starts on a year 1 mod 400: the
   * year offset inside the cycle, by the 100/4/1-year decomposition in which
   * the last century and the last year of a four-year block absorb the extra
   * leap day, and the day inside that year.
   */
  function YearInCycle(d: int): (r: (int, int))
    requires 0 <= d < 146097
    ensures 0 <= r.0 < 400 && 0 <= r.1 < YearLength(r.0 + 1)
    ensures 365 * r.0 + LeapYearsThrough(r.0) + r.1 == d
  {
    var n100 := if d / 36524 == 4 then 3 else d / 36524;
    var d100 := d - 36524 * n100;
    var n4 := d100 / 1461;
    var d4 := d100 % 1461;
    var n1 := if d4 / 365 == 4 then 3 else d4 / 365;
    var yday := d4 - 365 * n1;
    var off := 100 * n100 + 4 * n4 + n1;
    assert off / 4 == 25 * n100 + n4;
    assert off / 100 == n100;
    assert off / 400 == 0;
    assert yday == 365 ==> n1 == 3 && d4 == 1460;
    assert yday == 365 && n4 == 24 ==> n100 == 3 && off + 1 == 400;
    (off, yday)
  }

  /** Shifting a year by whole 400-year cycles shifts its day count by whole cycles and keeps its leap status. */
  lemma CycleShift(k: int, off: int)
    requires 0 <= off < 400
    ensures DaysBeforeYear(1 + 400 * k + off) == 146097 * k + 365 * off + LeapYearsThrough(off) - EpochDaysFromYearOne
    ensures IsLeapYear(1 + 400 * k + off) == IsLeapYear(1 + off)
  {
    var y0 := 400 * k + off;
    assert y0 / 4 == 100 * k + off / 4;
    assert y0 / 100 == 4 * k + off / 100;
    assert y0 / 400 == k + off / 400;
    assert (y0 + 1) % 4 == (off + 1) % 4;
    assert (y0 + 1) % 100 == (off + 1) % 100;
    assert (y0 + 1) % 400 == (off + 1) % 400;
  }

  /** The year holding day z (counted from 1970-01-01) and z's offset inside that year. */
  function YearAndDay(z: int): (r: (int, int))
    ensures 0 <= r.1 < YearLength(r.0)
    ensures DaysBeforeYear(r.0) + r.1 == z
  {
    var a := z + EpochDaysFromYearOne;
    var n400 := a / 146097;
    var (off, yday) := YearInCycle(a % 146097);
    CycleShift(n400, off);
    (1 + 400 * n400 + off, yday)
  }

  /** The month of year y holding day-of-year yday, searching from month m, and the day in it. */
  function MonthAndDay(y: int, yday: int, m: int): (r: (int, int))
    requires 1 <= m <= 12 && DaysBeforeMonth(y, m) <= yday < YearLength(y)
    ensures ValidDate(y, r.0, r.1)
    ensures DaysBeforeMonth(y, r.0) + r.1 - 1 == yday
    decreases 12 - m
  {
    DaysBeforeMonthStep(y, m);
    if m == 12 || yday < DaysBeforeMonth(y, m + 1) then (m, yday - DaysBeforeMonth(y, m) + 1)
    else MonthAndDay(y, yday, m + 1)
  }

  /** The civil date of day z counted from 1970-01-01. */
  function CivilFromDays(z: int): (r: (int, int, int))
    ensures ValidDate(r.0, r.1, r.2)
    ensures DaysFromCivil(r.0, r.1, r.2) == z
  {
    var (y, yday) := YearAndDay(z);
    var (m, d) := MonthAndDay(y, yday, 1);
    (y, m, d)
  }

  lemma {:induction false} MonthAndDayFinds(y: int, m: int, d: int, k: int)
    requires ValidDate(y, m, d) && 1 <= k <= m
    requires DaysBeforeMonth(y, m) + d - 1 < YearLength(y)
    ensures DaysBeforeMonth(y, k) <= DaysBeforeMonth(y, m) + d - 1
    ensures MonthAndDay(y, DaysBeforeMonth(y, m) + d - 1, k) == (m, d)
    decreases m - k
  {
    DaysBeforeMonthMonotone(y, k, m);
    DaysBeforeMonthStep(y, k);
    if k < m {
      DaysBeforeMonthMonotone(y, k + 1, m);
      MonthAndDayFinds(y, m, d, k + 1);
    }
  }

  /** Every valid date is the image of its own day number: CivilFromDays inverts DaysFromCivil. */
  lemma CivilFromDaysInverse(y: int, m: int, d: int)
    requires ValidDate(y, m, d)
    ensures CivilFromDays(DaysFromCivil(y, m, d)) == (y, m, d)
  {
    YearOfCivil(y, m, d);
    MonthAndDayFinds(y, m, d, 1);
  }

  /** The day number of a valid date falls in the date's own year, at its day of the year. */
  lemma YearOfCivil(y: int, m: int, d: int)
    requires ValidDate(y, m, d)
    ensures DaysBeforeMonth(y, m) + d - 1 < YearLength(y)
    ensures YearAndDay(DaysFromCivil(y, m, d)) == (y, DaysBeforeMonth(y, m) + d - 1)
  {
    var yday := DaysBeforeMonth(y, m) + d - 1;
    DaysBeforeMonthStep(y, m);
    DaysBeforeMonthMonotone(y, m + 1, 13);
    var (y', yday') := YearAndDay(DaysFromCivil(y, m, d));
    YearUnique(y, yday, y', yday');
  }

  // ---------------------------------------------------------------------------
  // Instants

  datatype DateTime = DateTime(year: int, month: int, day: int, hour: int, minute: int, second: int)

  predicate ValidDateTime(dt: DateTime)
  {
    ValidDate(dt.year, dt.month, dt.day)
    && 0 <= dt.hour < 24 && 0 <= dt.minute < 60 && 0 <= dt.second < 60
  }

  /** Seconds since 1970-01-01 00:00:00 UTC of a civil date and time. */
  function ToUnix(dt: DateTime): int
    requires 1 <= dt.month <= 12
  {
    DaysFromCivil(dt.year, dt.month, dt.day) * SecondsPerDay + dt.hour * 3600 + dt.minute * 60 + dt.second
  }

  /** time.Unix(t, 0).UTC(): floor division into days, then the date of the day and the time of day. */
  function UnixToUtc(t: int): (dt: DateTime)
    ensures ValidDateTime(dt)
    ensures ToUnix(dt) == t
  {
    var days := t / SecondsPerDay;
    var secs := t % SecondsPerDay;
    var (y, m, d) := CivilFromDays(days);
    assert t == days * SecondsPerDay + secs;
    assert secs == secs / 3600 * 3600 + secs % 3600 / 60 * 60 + secs % 60;
    DateTime(y, m, d, secs / 3600, secs % 3600 / 60, secs % 60)
  }

  /** UnixToUtc is a bijection between integers and valid civil instants. */
  lemma UnixToUtcInverse(dt: DateTime)
    requires ValidDateTime(dt)
    ensures UnixToUtc(ToUnix(dt)) == dt
  {
    var z := DaysFromCivil(dt.year, dt.month, dt.day);
    var s := dt.hour * 3600 + dt.minute * 60 + dt.second;
    assert 0 <= s < SecondsPerDay;
    assert ToUnix(dt) / SecondsPerDay == z;
    assert ToUnix(dt) % SecondsPerDay == s;
    CivilFromDaysInverse(dt.year, dt.month, dt.day);
  }

  /** The first and last second with a four-digit year: 0001-01-01 00:00:00 and 9999-12-31 23:59:59. */
  const MinFourDigitUnix: int := -62135596800
  const MaxFourDigitUnix: int := 253402300799

  lemma FourDigitYears(t: int)
    ensures MinFourDigitUnix <= t <= MaxFourDigitUnix <==> 1 <= UnixToUtc(t).year <= 9999
  {
    var dt := UnixToUtc(t);
    var z := t / SecondsPerDay;
    var (y, yday) := YearAndDay(z);
    assert y == dt.year;
    assert DaysBeforeYear(1) == -719162;
    assert DaysBeforeYear(10000) == 2932897;
    if y < 1 {
      DaysBeforeYearStep(y);
      DaysBeforeYearMonotone(y + 1, 1);
    } else if y > 9999 {
      DaysBeforeYearMonotone(10000, y);
    } else {
      DaysBeforeYearMonotone(1, y);
      DaysBeforeYearStep(y);
      DaysBeforeYearMonotone(y + 1, 10000);
    }
  }

  // ---------------------------------------------------------------------------
  // Layouts

  /** The elements of a Go time layout used here: std tokens and literal characters. */
  datatype LayoutElem =
    | LongYear      // "2006"
    | ZeroMonth     // "01"
    | ZeroDay       // "02"
    | Hour          // "15"
    | ZeroMinute    // "04"
    | ZeroSecond    // "05"
    | Literal(c: char)

  /** The reference-time text of a layout, as a Go layout string writes it. */
  function LayoutText(layout: seq<LayoutElem>): string
  {
    if layout == [] then ""
    else
      (match layout[0]
       case LongYear => "2006"
       case ZeroMonth => "01"
       case ZeroDay => "02"
       case Hour => "15"
       case ZeroMinute => "04"
       case ZeroSecond => "05"
       case Literal(c) => [c])
      + LayoutText(layout[1..])
  }

  function Zeros(k: nat): (s: string)
    ensures |s| == k && IsDigits(s)
  {
    if k == 0 then "" else Zeros(k - 1) + "0"
  }

  /** s padded on the left with zeros to at least `width` characters. */
  function ZeroPad(s: string, width: nat): string
  {
    if |s| >= width then s else Zeros(width - |s|) + s
  }

  /** The time package's appendInt: an optional '-', then |x| in decimal zero-padded to `width`. */
  function AppendInt(x: int, width: nat): string
  {
    (if x < 0 then "-" else "") + ZeroPad(FormatNat(if x < 0 then -x else x), width)
  }

  function FormatElem(dt: DateTime, e: LayoutElem): string
  {
    match e
    case LongYear => AppendInt(dt.year, 4)
    case ZeroMonth => AppendInt(dt.month, 2)
    case ZeroDay => AppendInt(dt.day, 2)
    case Hour => AppendInt(dt.hour, 2)
    case ZeroMinute => AppendInt(dt.minute, 2)
    case ZeroSecond => AppendInt(dt.second, 2)
    case Literal(c) => [c]
  }

  /**
   * Time.Format: the layout's elements written out one after the other. Literal
   * characters are copied, and for an instant with a four-digit year every
   * field is exactly as wide as its token in the layout text.
   */
  function Format(dt: DateTime, layout: seq<LayoutElem>): (s: string)
    ensures (forall k :: 0 <= k < |layout| ==> layout[k].Literal?) ==> s == LayoutText(layout)
    ensures ValidDateTime(dt) && 1 <= dt.year <= 9999 ==> |s| == |LayoutText(layout)|
  {
    if layout == [] then ""
    else
      FormatElemWidth(dt, layout[0]);
      FormatElem(dt, layout[0]) + Format(dt, layout[1..])
  }

  lemma FormatElemWidth(dt: DateTime, e: LayoutElem)
    ensures e.Literal? ==> FormatElem(dt, e) == LayoutText([e])
    ensures ValidDateTime(dt) && 1 <= dt.year <= 9999 ==> |FormatElem(dt, e)| == |LayoutText([e])|
  {
    if ValidDateTime(dt) && 1 <= dt.year <= 9999 {
      assert Pow10(2) == 100 && Pow10(4) == 10000;
      match e
      case LongYear => AppendIntField(dt.year, 4);
      case ZeroMonth => AppendIntField(dt.month, 2);
      case ZeroDay => AppendIntField(dt.day, 2);
      case Hour => AppendIntField(dt.hour, 2);
      case ZeroMinute => AppendIntField(dt.minute, 2);
      case ZeroSecond => AppendIntField(dt.second, 2);
      case Literal(_) =>
    }
  }

  // ---------------------------------------------------------------------------
  // Fixed-width fields

  lemma {:induction false} ZerosPrefixValue(k: nat, s: string)
    requires IsDigits(s)
    ensures IsDigits(Zeros(k) + s) && DigitsValue(Zeros(k) + s) == DigitsValue(s)
    decreases |s|
  {
    var t := Zeros(k) + s;
    if s == [] {
      assert t == Zeros(k);
      ZerosValue(k);
    } else {
      assert t[..|t| - 1] == Zeros(k) + s[..|s| - 1];
      ZerosPrefixValue(k, s[..|s| - 1]);
    }
  }

  lemma {:induction false} ZerosValue(k: nat)
    ensures DigitsValue(Zeros(k)) == 0
  {
    if k > 0 {
      assert Zeros(k)[..k - 1] == Zeros(k - 1);
      ZerosValue(k - 1);
    }
  }

  lemma {:induction false} FormatNatLength(n: nat, k: nat)
    requires 1 <= k && n < Pow10(k)
    ensures |FormatNat(n)| <= k
    decreases n
  {
    if n >= 10 {
      FormatNatLength(n / 10, k - 1);
    }
  }

  function Pow10(k: nat): nat
  {
    if k == 0 then 1 else 10 * Pow10(k - 1)
  }

  /** A non-negative number below 10^width prints as exactly `width` digits denoting it. */
  lemma AppendIntField(x: int, width: nat)
    requires 1 <= width && 0 <= x < Pow10(width)
    ensures |AppendInt(x, width)| == width
    ensures IsDigits(AppendInt(x, width)) && DigitsValue(AppendInt(x, width)) == x
  {
    var s := FormatNat(x);
    FormatNatLength(x, width);
    assert AppendInt(x, width) == ZeroPad(s, width);
    if |s| < width {
      ZerosPrefixValue(width - |s|, s);
    }
  }
}
