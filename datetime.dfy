/**
 * Python's `datetime` as far as the core uses it: a calendar record with an optional
 * UTC offset, `isoformat`/`fromisoformat`, the `>=` comparison (which raises for a naive
 * and an aware operand), `replace(tzinfo=None)` and subtracting a whole number of days.
 */
module DateTime {
  import opened Wrappers
  import opened Text

  // ---------------------------------------------------------------------------
  // Calendar

  predicate IsLeap(y: int) {
    y % 4 == 0 && (y % 100 != 0 || y % 400 == 0)
  }

  function DaysInMonth(y: int, m: int): (n: int)
    requires 1 <= m <= 12
    ensures 28 <= n <= 31
  {
    if m == 2 then (if IsLeap(y) then 29 else 28)
    else if m == 4 || m == 6 || m == 9 || m == 11 then 30
    else 31
  }

  function DaysInYear(y: int): int {
    if IsLeap(y) then 366 else 365
  }

  /** A `datetime` value: the seven fields and, for an aware value, its UTC offset in
      minutes (east of UTC positive). */
  datatype DateTimeValue = DateTimeValue(
    year: int, month: int, day: int,
    hour: int, minute: int, second: int, microsecond: int,
    offset: Option<int>)

  /** The ranges the `datetime` and `timezone` constructors enforce. */
  predicate ValidFields(d: DateTimeValue) {
    && 1 <= d.year <= 9999
    && 1 <= d.month <= 12
    && 1 <= d.day <= DaysInMonth(d.year, d.month)
    && 0 <= d.hour < 24
    && 0 <= d.minute < 60
    && 0 <= d.second < 60
    && 0 <= d.microsecond < 1000000
    && (d.offset.Some? ==> -1440 < d.offset.value < 1440)
  }

  type DateTime = d: DateTimeValue | ValidFields(d) witness DateTimeValue(1, 1, 1, 0, 0, 0, 0, None)

  predicate Aware(d: DateTime) { d.offset.Some? }

  /** `d.replace(tzinfo=None)`. */
  function Naive(d: DateTime): (r: DateTime)
    ensures !Aware(r)
  {
    d.(offset := None)
  }

  // ---------------------------------------------------------------------------
  // Proleptic Gregorian ordinal and the time line

  /** Days before 1 January of year `y`; day 1 is 0001-01-01.  Defined year by year;
      `DaysBeforeYearFormula` shows it is the closed form `datetime` uses. */
  function DaysBeforeYear(y: int): (n: int)
    requires y >= 1
    ensures n >= (y - 1) * 365
  {
    if y == 1 then 0 else DaysBeforeYear(y - 1) + DaysInYear(y - 1)
  }

  function DaysBeforeMonth(y: int, m: int): (n: int)
    requires 1 <= m <= 13
    ensures n >= (m - 1) * 28
  {
    if m == 1 then 0 else DaysBeforeMonth(y, m - 1) + DaysInMonth(y, m - 1)
  }

  /** `date.toordinal()`. */
  function Ordinal(d: DateTime): int {
    DaysBeforeYear(d.year) + DaysBeforeMonth(d.year, d.month) + d.day
  }

  const MicrosPerDay := 86400000000

  function TimeOfDay(d: DateTime): (t: int)
    ensures 0 <= t < MicrosPerDay
  {
    ((d.hour * 60 + d.minute) * 60 + d.second) * 1000000 + d.microsecond
  }

  /** The wall-clock reading as microseconds since 0001-01-01T00:00:00. */
  function WallMicros(d: DateTime): int {
    Ordinal(d) * MicrosPerDay + TimeOfDay(d)
  }

  /** The instant an aware value denotes, in the same units as `WallMicros`. */
  function UtcMicros(d: DateTime): int
    requires Aware(d)
  {
    WallMicros(d) - d.offset.value * 60000000
  }

  lemma DivSteps(p: nat)
    ensures (p + 1) / 4 == p / 4 + (if (p + 1) % 4 == 0 then 1 else 0)
    ensures (p + 1) / 100 == p / 100 + (if (p + 1) % 100 == 0 then 1 else 0)
    ensures (p + 1) / 400 == p / 400 + (if (p + 1) % 400 == 0 then 1 else 0)
  {
  }

  lemma LeapDivisors(y: int)
    ensures y % 400 == 0 ==> y % 100 == 0
    ensures y % 100 == 0 ==> y % 4 == 0
  {
    if y % 400 == 0 {
      assert y == (y / 400) * 400;
      assert y == ((y / 400) * 4) * 100;
    }
    if y % 100 == 0 {
      assert y == (y / 100) * 100;
      assert y == ((y / 100) * 25) * 4;
    }
  }

  /** The closed form of `_days_before_year`: `365 * p + p // 4 - p // 100 + p // 400`
      with `p = y - 1`. */
  lemma {:induction false} DaysBeforeYearFormula(y: int)
    requires y >= 1
    ensures DaysBeforeYear(y) == (y - 1) * 365 + (y - 1) / 4 - (y - 1) / 100 + (y - 1) / 400
  {
    if y > 1 {
      DaysBeforeYearFormula(y - 1);
      DivSteps(y - 2);
      LeapDivisors(y - 1);
    }
  }

  lemma DaysBeforeYearStep(y: int)
    requires y >= 1
    ensures DaysBeforeYear(y + 1) == DaysBeforeYear(y) + DaysInYear(y)
  {
  }

  lemma {:induction false} DaysBeforeYearMono(y: int, z: int)
    requires 1 <= y <= z
    ensures DaysBeforeYear(y) + (z - y) * 365 <= DaysBeforeYear(z)
    decreases z - y
  {
    if y < z {
      DaysBeforeYearStep(y);
      DaysBeforeYearMono(y + 1, z);
    }
  }

  lemma {:induction false} DaysBeforeMonthMono(y: int, m: int, n: int)
    requires 1 <= m <= n <= 13
    ensures DaysBeforeMonth(y, m) + (n - m) * 28 <= DaysBeforeMonth(y, n)
    decreases n - m
  {
    if m < n {
      DaysBeforeMonthMono(y, m, n - 1);
    }
  }

  lemma DaysBeforeMonthYear(y: int)
    ensures DaysBeforeMonth(y, 13) == DaysInYear(y)
  {
    assert DaysBeforeMonth(y, 2) == 31;
    assert DaysBeforeMonth(y, 3) == 31 + DaysInMonth(y, 2);
    assert DaysBeforeMonth(y, 4) == DaysBeforeMonth(y, 3) + 31;
    assert DaysBeforeMonth(y, 5) == DaysBeforeMonth(y, 4) + 30;
    assert DaysBeforeMonth(y, 6) == DaysBeforeMonth(y, 5) + 31;
    assert DaysBeforeMonth(y, 7) == DaysBeforeMonth(y, 6) + 30;
    assert DaysBeforeMonth(y, 8) == DaysBeforeMonth(y, 7) + 31;
    assert DaysBeforeMonth(y, 9) == DaysBeforeMonth(y, 8) + 31;
    assert DaysBeforeMonth(y, 10) == DaysBeforeMonth(y, 9) + 30;
    assert DaysBeforeMonth(y, 11) == DaysBeforeMonth(y, 10) + 31;
    assert DaysBeforeMonth(y, 12) == DaysBeforeMonth(y, 11) + 30;
    assert DaysBeforeMonth(y, 13) == DaysBeforeMonth(y, 12) + 31;
  }

  /** Python compares two datetimes of the same kind field by field, most significant
      first. */
  predicate LexLess(a: DateTime, b: DateTime) {
    || a.year < b.year
    || (a.year == b.year && a.month < b.month)
    || (a.year == b.year && a.month == b.month && a.day < b.day)
    || (a.year == b.year && a.month == b.month && a.day == b.day &&
        (|| a.hour < b.hour
         || (a.hour == b.hour && a.minute < b.minute)
         || (a.hour == b.hour && a.minute == b.minute && a.second < b.second)
         || (a.hour == b.hour && a.minute == b.minute && a.second == b.second &&
             a.microsecond < b.microsecond)))
  }

  predicate SameFields(a: DateTime, b: DateTime) {
    a.year == b.year && a.month == b.month && a.day == b.day && a.hour == b.hour &&
    a.minute == b.minute && a.second == b.second && a.microsecond == b.microsecond
  }

  /** A day of a month lies before the start of the next month... */
  lemma MonthBounds(y: int, m: int, day: int)
    requires 1 <= m <= 12 && 1 <= day <= DaysInMonth(y, m)
    ensures DaysBeforeMonth(y, m) + day <= DaysBeforeMonth(y, m + 1)
  {
  }

  /** ...and a day of a year before the start of the next year. */
  lemma YearBounds(y: int, m: int, day: int)
    requires 1 <= m <= 12 && 1 <= day <= DaysInMonth(y, m)
    ensures DaysBeforeMonth(y, m) + day <= DaysInYear(y)
  {
    MonthBounds(y, m, day);
    DaysBeforeMonthMono(y, m + 1, 13);
    DaysBeforeMonthYear(y);
  }

  lemma OrdinalMono(a: DateTime, b: DateTime)
    requires a.year < b.year || (a.year == b.year && a.month < b.month) ||
             (a.year == b.year && a.month == b.month && a.day < b.day)
    ensures Ordinal(a) < Ordinal(b)
  {
    if a.year < b.year {
      YearBounds(a.year, a.month, a.day);
      YearLess(a.year, DaysBeforeMonth(a.year, a.month) + a.day, b.year, DaysBeforeMonth(b.year, b.month) + b.day);
    } else if a.month < b.month {
      MonthBounds(a.year, a.month, a.day);
      DaysBeforeMonthMono(a.year, a.month + 1, b.month);
    }
  }

  /** A day in an earlier year comes first whatever its place in the year. */
  lemma YearLess(ya: int, da: int, yb: int, db: int)
    requires 1 <= ya < yb && 0 < da <= DaysInYear(ya) && 0 < db
    ensures DaysBeforeYear(ya) + da < DaysBeforeYear(yb) + db
  {
    DaysBeforeYearStep(ya);
    DaysBeforeYearMono(ya + 1, yb);
  }

  /** The time line agrees with Python's field-by-field order: comparing wall clocks
      is comparing the fields. */
  lemma WallMicrosOrder(a: DateTime, b: DateTime)
    ensures WallMicros(a) < WallMicros(b) <==> LexLess(a, b)
    ensures WallMicros(a) == WallMicros(b) <==> SameFields(a, b)
  {
    if a.year < b.year || (a.year == b.year && a.month < b.month) ||
       (a.year == b.year && a.month == b.month && a.day < b.day) {
      OrdinalMono(a, b);
    } else if b.year < a.year || (b.year == a.year && b.month < a.month) ||
              (b.year == a.year && b.month == a.month && b.day < a.day) {
      OrdinalMono(b, a);
    }
  }

  // ---------------------------------------------------------------------------
  // Comparison

  /**
   * `a >= b`.  `None` is the `TypeError` Python raises when exactly one operand is
   * aware.  Naive values compare field by field; aware values compare the instants they
   * denote.
   */
  function PyGe(a: DateTime, b: DateTime): (r: Option<bool>)
    ensures r.None? <==> Aware(a) != Aware(b)
  {
    if !Aware(a) && !Aware(b) then Some(!LexLess(a, b))
    else if Aware(a) && Aware(b) then Some(UtcMicros(a) >= UtcMicros(b))
    else None
  }

  /** `a < b`, with the same `TypeError` as `PyGe`. */
  function PyLt(a: DateTime, b: DateTime): (r: Option<bool>)
    ensures r.None? <==> Aware(a) != Aware(b)
  {
    if !Aware(a) && !Aware(b) then Some(LexLess(a, b))
    else if Aware(a) && Aware(b) then Some(UtcMicros(a) < UtcMicros(b))
    else None
  }

  /** Where both are defined, `<` is the negation of `>=`. */
  lemma LtIsNotGe(a: DateTime, b: DateTime)
    requires Aware(a) == Aware(b)
    ensures PyLt(a, b).Some? && PyGe(a, b).Some? && PyLt(a, b).value == !PyGe(a, b).value
  {
  }

  /** Two aware values with the same offset compare like their wall clocks, which is the
      short cut Python takes when both share one `tzinfo`. */
  lemma SameOffsetCompare(a: DateTime, b: DateTime)
    requires Aware(a) && Aware(b) && a.offset == b.offset
    ensures PyGe(a, b) == PyGe(Naive(a), Naive(b))
  {
    WallMicrosOrder(a, b);
    WallMicrosOrder(Naive(a), Naive(b));
  }

  // ---------------------------------------------------------------------------
  // Subtracting whole days (`d - timedelta(days=n)`)

  /** The calendar day before, or `None` (`OverflowError`) before year 1. */
  function PrevDay(d: DateTime): (r: Option<DateTime>)
    ensures r.Some? ==> Ordinal(r.value) == Ordinal(d) - 1 && TimeOfDay(r.value) == TimeOfDay(d)
    ensures r.Some? ==> r.value.offset == d.offset
    ensures r.None? <==> Ordinal(d) == 1
  {
    if d.day > 1 then Some(d.(day := d.day - 1))
    else if d.month > 1 then Some(d.(month := d.month - 1, day := DaysInMonth(d.year, d.month - 1)))
    else if d.year > 1 then
      DaysBeforeMonthYear(d.year - 1);
      DaysBeforeYearStep(d.year - 1);
      Some(d.(year := d.year - 1, month := 12, day := 31))
    else None
  }

  /** The calendar day after, or `None` (`OverflowError`) after year 9999. */
  function NextDay(d: DateTime): (r: Option<DateTime>)
    ensures r.Some? ==> Ordinal(r.value) == Ordinal(d) + 1 && TimeOfDay(r.value) == TimeOfDay(d)
    ensures r.Some? ==> r.value.offset == d.offset
    ensures r.None? <==> d.year == 9999 && d.month == 12 && d.day == 31
  {
    if d.day < DaysInMonth(d.year, d.month) then Some(d.(day := d.day + 1))
    else if d.month < 12 then Some(d.(month := d.month + 1, day := 1))
    else if d.year < 9999 then
      DaysBeforeMonthYear(d.year);
      DaysBeforeYearStep(d.year);
      Some(d.(year := d.year + 1, month := 1, day := 1))
    else None
  }

  /** `d - timedelta(days=n)` for any integer `n`; `None` when the result leaves the
      years 1..9999. */
  function SubDays(d: DateTime, n: int): (r: Option<DateTime>)
    ensures r.Some? ==> Ordinal(r.value) == Ordinal(d) - n
    ensures r.Some? ==> TimeOfDay(r.value) == TimeOfDay(d) && r.value.offset == d.offset
    decreases if n < 0 then -n else n
  {
    if n == 0 then Some(d)
    else if n > 0 then (match PrevDay(d) case None => None case Some(p) => SubDays(p, n - 1))
    else (match NextDay(d) case None => None case Some(q) => SubDays(q, n + 1))
  }

  /** Subtracting `n` days moves the time line back by exactly `n` days. */
  lemma SubDaysWall(d: DateTime, n: int)
    requires SubDays(d, n).Some?
    ensures WallMicros(SubDays(d, n).value) == WallMicros(d) - n * MicrosPerDay
  {
  }

  /** The ordinal of 9999-12-31, the last day `datetime` can hold. */
  const MaxOrdinal := 3652059

  /** Every datetime lies between day 1 and the last day, and only 9999-12-31 is on the
      last day. */
  lemma OrdinalRange(d: DateTime)
    ensures 1 <= Ordinal(d) <= MaxOrdinal
    ensures Ordinal(d) == MaxOrdinal <==> d.year == 9999 && d.month == 12 && d.day == 31
  {
    var last: DateTime := DateTimeValue(9999, 12, 31, 0, 0, 0, 0, None);
    DaysBeforeMonthYear(9999);
    DaysBeforeYearStep(9999);
    DaysBeforeYearFormula(10000);
    assert Ordinal(last) == DaysBeforeYear(10000) == MaxOrdinal;
    if !(d.year == 9999 && d.month == 12 && d.day == 31) {
      OrdinalMono(d, last);
    }
  }

  /** `SubDays` fails exactly when the target day falls outside the calendar. */
  lemma {:induction false} SubDaysRange(d: DateTime, n: int)
    ensures SubDays(d, n).Some? <==> 1 <= Ordinal(d) - n <= MaxOrdinal
    decreases if n < 0 then -n else n
  {
    OrdinalRange(d);
    if n > 0 {
      match PrevDay(d)
      case None =>
      case Some(p) => SubDaysRange(p, n - 1);
    } else if n < 0 {
      match NextDay(d)
      case None =>
      case Some(q) => SubDaysRange(q, n + 1);
    }
  }

  // ---------------------------------------------------------------------------
  // `timedelta(days=n)` and `now - timedelta(days=n)`

  /** `timedelta.max.days`. */
  const MaxDeltaDays := 999999999

  /** The range of a C `int`, into which the constructor converts the day count first. */
  const CIntMin := -0x8000_0000
  const CIntMax := 0x7FFF_FFFF

  const CIntOverflowMessage := "Python int too large to convert to C int"

  /** `str(e)` of the `OverflowError` raised when a subtraction leaves the calendar. */
  const DateOverflowMessage := "date value out of range"

  function DeltaMagnitudeMessage(n: int): string {
    "days=" + IntToString(n) + "; must have magnitude <= " + IntToString(MaxDeltaDays)
  }

  /** The message as CPython prints it for `timedelta(days=1000000000)`. */
  lemma DeltaMagnitudeMessageExample()
    ensures DeltaMagnitudeMessage(1000000000) == "days=" + "1000000000" + "; must have magnitude <= " + "999999999"
  {
    BillionText();
    MaxDeltaDaysText();
  }

  lemma BillionText()
    ensures IntToString(1000000000) == "1000000000"
  {
    assert DigitChar(0) == '0' && DigitChar(1) == '1';
    NatToStringStep(10);
    assert NatToString(10) == "10";
    NatToStringStep(100);
    assert NatToString(100) == "100";
    NatToStringStep(1000);
    assert NatToString(1000) == "1000";
    NatToStringStep(10000);
    assert NatToString(10000) == "10000";
    NatToStringStep(100000);
    assert NatToString(100000) == "100000";
    NatToStringStep(1000000);
    assert NatToString(1000000) == "1000000";
    NatToStringStep(10000000);
    assert NatToString(10000000) == "10000000";
    NatToStringStep(100000000);
    assert NatToString(100000000) == "100000000";
    NatToStringStep(1000000000);
    assert NatToString(1000000000) == "1000000000";
  }

  lemma MaxDeltaDaysText()
    ensures IntToString(MaxDeltaDays) == "999999999"
  {
    assert DigitChar(9) == '9';
    NatToStringStep(99);
    assert NatToString(99) == "99";
    NatToStringStep(999);
    assert NatToString(999) == "999";
    NatToStringStep(9999);
    assert NatToString(9999) == "9999";
    NatToStringStep(99999);
    assert NatToString(99999) == "99999";
    NatToStringStep(999999);
    assert NatToString(999999) == "999999";
    NatToStringStep(9999999);
    assert NatToString(9999999) == "9999999";
    NatToStringStep(99999999);
    assert NatToString(99999999) == "99999999";
    NatToStringStep(999999999);
    assert NatToString(999999999) == "999999999";
  }

  /** `d - timedelta(days=n)`, with `Err` holding `str` of the `OverflowError` raised:
      the constructor rejects a day count outside a C `int`, then one beyond
      `MaxDeltaDays`, and the subtraction rejects a result outside years 1..9999. */
  function MinusDays(d: DateTime, n: int): (r: Result<DateTime, string>)
    ensures r.Ok? <==> -MaxDeltaDays <= n <= MaxDeltaDays && 1 <= Ordinal(d) - n <= MaxOrdinal
    ensures r.Ok? ==> Ordinal(r.value) == Ordinal(d) - n && TimeOfDay(r.value) == TimeOfDay(d)
    ensures r.Ok? ==> r.value.offset == d.offset
  {
    SubDaysRange(d, n);
    if n < CIntMin || CIntMax < n then Err(CIntOverflowMessage)
    else if n < -MaxDeltaDays || MaxDeltaDays < n then Err(DeltaMagnitudeMessage(n))
    else match SubDays(d, n)
      case None => Err(DateOverflowMessage)
      case Some(since) => Ok(since)
  }

  /** Which `OverflowError` a failing subtraction raises: the C conversion, the
      magnitude check, or the calendar, in that order. */
  lemma MinusDaysErrors(d: DateTime, n: int)
    ensures n < CIntMin || CIntMax < n ==> MinusDays(d, n) == Err(CIntOverflowMessage)
    ensures CIntMin <= n <= CIntMax && (n < -MaxDeltaDays || MaxDeltaDays < n) ==>
      MinusDays(d, n) == Err(DeltaMagnitudeMessage(n))
    ensures -MaxDeltaDays <= n <= MaxDeltaDays && !(1 <= Ordinal(d) - n <= MaxOrdinal) ==>
      MinusDays(d, n) == Err(DateOverflowMessage)
  {
    SubDaysRange(d, n);
  }

  // ---------------------------------------------------------------------------
  // isoformat / fromisoformat

  function Pow10(w: nat): (p: nat)
    ensures p >= 1
  {
    if w == 0 then 1 else 10 * Pow10(w - 1)
  }

  predicate IsDigit(c: char) { '0' <= c <= '9' }

  /** `n` in decimal, left-padded with zeros to exactly `w` digits. */
  function Digits(n: nat, w: nat): (s: string)
    requires n < Pow10(w)
    ensures |s| == w
    ensures forall i :: 0 <= i < |s| ==> IsDigit(s[i])
  {
    if w == 0 then "" else Digits(n / 10, w - 1) + [(48 + n % 10) as char]
  }

  /** The value of a string of decimal digits; `None` when some character is not a digit. */
  function ParseDigits(s: string): (r: Option<nat>)
    ensures r.Some? ==> r.value < Pow10(|s|)
  {
    if s == [] then Some(0)
    else if !IsDigit(s[|s| - 1]) then None
    else match ParseDigits(s[..|s| - 1])
      case None => None
      case Some(v) => Some(v * 10 + (s[|s| - 1] as int - 48))
  }

  lemma {:induction false} ParseDigitsOf(n: nat, w: nat)
    requires n < Pow10(w)
    ensures ParseDigits(Digits(n, w)) == Some(n)
  {
    if w > 0 {
      var s := Digits(n, w);
      assert s[..|s| - 1] == Digits(n / 10, w - 1);
      ParseDigitsOf(n / 10, w - 1);
    }
  }

  /** `+HH:MM` / `-HH:MM` as `utcoffset()` is printed; nothing for a naive value. */
  function OffsetText(offset: Option<int>): (s: string)
    requires offset.Some? ==> -1440 < offset.value < 1440
    ensures |s| == 0 || |s| == 6
  {
    match offset
    case None => ""
    case Some(o) =>
      var a := if o < 0 then -o else o;
      [if o < 0 then '-' else '+'] + Digits(a / 60, 2) + ":" + Digits(a % 60, 2)
  }

  /** `d.isoformat()`: `YYYY-MM-DDTHH:MM:SS`, then `.ffffff` when the microsecond is not
      zero, then the offset of an aware value. */
  function IsoFormat(d: DateTime): string {
    DateText(d) + "T" + TimeText(d) + FractionText(d.microsecond) + OffsetText(d.offset)
  }

  function DateText(d: DateTime): (s: string)
    ensures |s| == 10
  {
    Digits(d.year, 4) + "-" + Digits(d.month, 2) + "-" + Digits(d.day, 2)
  }

  function TimeText(d: DateTime): (s: string)
    ensures |s| == 8
  {
    Digits(d.hour, 2) + ":" + Digits(d.minute, 2) + ":" + Digits(d.second, 2)
  }

  function FractionText(us: int): (s: string)
    requires 0 <= us < 1000000
    ensures |s| == 0 || |s| == 7
  {
    if us == 0 then "" else "." + Digits(us, 6)
  }

  /** Builds a datetime, failing (`ValueError`) where the constructor would. */
  function Make(y: int, mo: int, d: int, h: int, mi: int, s: int, us: int, off: Option<int>): (r: Option<DateTime>)
    ensures r.Some? <==> ValidFields(DateTimeValue(y, mo, d, h, mi, s, us, off))
    ensures r.Some? ==> r.value == DateTimeValue(y, mo, d, h, mi, s, us, off)
  {
    var v := DateTimeValue(y, mo, d, h, mi, s, us, off);
    if ValidFields(v) then Some(v) else None
  }

  /** `YYYY-MM-DD`. */
  function ParseDate(s: string): Option<(int, int, int)>
    requires |s| == 10
  {
    if s[4] != '-' || s[7] != '-' then None
    else
      var y :- ParseDigits(s[..4]);
      var m :- ParseDigits(s[5..7]);
      var d :- ParseDigits(s[8..]);
      Some((y, m, d))
  }

  /** `HH:MM:SS`. */
  function ParseTime(s: string): Option<(int, int, int)>
    requires |s| == 8
  {
    if s[2] != ':' || s[5] != ':' then None
    else
      var h :- ParseDigits(s[..2]);
      var m :- ParseDigits(s[3..5]);
      var c :- ParseDigits(s[6..]);
      Some((h, m, c))
  }

  /** Nothing (naive) or `+HH:MM` / `-HH:MM`. */
  function ParseOffset(s: string): Option<Option<int>> {
    if s == [] then Some(None)
    else if |s| != 6 || (s[0] != '+' && s[0] != '-') || s[3] != ':' then None
    else
      var h :- ParseDigits(s[1..3]);
      var m :- ParseDigits(s[4..]);
      if m >= 60 then None
      else Some(Some(if s[0] == '-' then -(h * 60 + m) else h * 60 + m))
  }

  /**
   * `datetime.fromisoformat(s)` for the forms `YYYY-MM-DD` (midnight, naive) and
   * `YYYY-MM-DD?HH:MM:SS[.ffffff][+HH:MM]`, where `?` is any one character.  `None` is the
   * `ValueError` Python raises.
   */
  function FromIsoFormat(s: string): Option<DateTime> {
    if |s| == 10 then
      var (y, mo, d) :- ParseDate(s);
      Make(y, mo, d, 0, 0, 0, 0, None)
    else if |s| < 19 then None
    else
      var (y, mo, d) :- ParseDate(s[..10]);
      var (h, mi, c) :- ParseTime(s[11..19]);
      var rest := s[19..];
      if |rest| > 0 && rest[0] == '.' then
        if |rest| < 7 then None
        else
          var us :- ParseDigits(rest[1..7]);
          var off :- ParseOffset(rest[7..]);
          Make(y, mo, d, h, mi, c, us, off)
      else
        var off :- ParseOffset(rest);
        Make(y, mo, d, h, mi, c, 0, off)
  }

  lemma ParseDateText(d: DateTime)
    ensures ParseDate(DateText(d)) == Some((d.year, d.month, d.day))
  {
    var s := DateText(d);
    assert s[..4] == Digits(d.year, 4);
    assert s[5..7] == Digits(d.month, 2);
    assert s[8..] == Digits(d.day, 2);
    ParseDigitsOf(d.year, 4);
    ParseDigitsOf(d.month, 2);
    ParseDigitsOf(d.day, 2);
  }

  lemma ParseTimeText(d: DateTime)
    ensures ParseTime(TimeText(d)) == Some((d.hour, d.minute, d.second))
  {
    var s := TimeText(d);
    assert s[..2] == Digits(d.hour, 2);
    assert s[3..5] == Digits(d.minute, 2);
    assert s[6..] == Digits(d.second, 2);
    ParseDigitsOf(d.hour, 2);
    ParseDigitsOf(d.minute, 2);
    ParseDigitsOf(d.second, 2);
  }

  lemma ParseOffsetText(offset: Option<int>)
    requires offset.Some? ==> -1440 < offset.value < 1440
    ensures ParseOffset(OffsetText(offset)) == Some(offset)
    ensures |OffsetText(offset)| > 0 ==> OffsetText(offset)[0] != '.'
  {
    if offset.Some? {
      ParseOffsetSome(offset.value);
    }
  }

  /** The printed offset: sign, two-digit hours, a colon and two-digit minutes. */
  lemma OffsetTextShape(o: int)
    requires -1440 < o < 1440
    ensures |OffsetText(Some(o))| == 6
    ensures OffsetText(Some(o))[0] == (if o < 0 then '-' else '+') && OffsetText(Some(o))[3] == ':'
    ensures OffsetText(Some(o))[1..3] == Digits((if o < 0 then -o else o) / 60, 2)
    ensures OffsetText(Some(o))[4..] == Digits((if o < 0 then -o else o) % 60, 2)
  {
    var a := if o < 0 then -o else o;
    var s := OffsetText(Some(o));
    assert s == [if o < 0 then '-' else '+'] + Digits(a / 60, 2) + ":" + Digits(a % 60, 2);
  }

  lemma ParseOffsetSome(o: int)
    requires -1440 < o < 1440
    ensures ParseOffset(OffsetText(Some(o))) == Some(Some(o))
  {
    var a := if o < 0 then -o else o;
    var h, m := a / 60, a % 60;
    assert h * 60 + m == a && m < 60;
    OffsetTextShape(o);
    ParseDigitsOf(h, 2);
    ParseDigitsOf(m, 2);
  }

  /** `fromisoformat` inverts `isoformat`. */
  lemma IsoRoundTrip(d: DateTime)
    ensures FromIsoFormat(IsoFormat(d)) == Some(d)
  {
    var s := IsoFormat(d);
    var f := FractionText(d.microsecond);
    var z := OffsetText(d.offset);
    assert s[..10] == DateText(d);
    assert s[11..19] == TimeText(d);
    assert s[19..] == f + z;
    ParseDateText(d);
    ParseTimeText(d);
    ParseOffsetText(d.offset);
    if d.microsecond != 0 {
      var rest := f + z;
      assert rest[1..7] == Digits(d.microsecond, 6);
      assert rest[7..] == z;
      ParseDigitsOf(d.microsecond, 6);
    } else {
      assert f + z == z;
    }
  }

  /** A naive value without microseconds prints as exactly `YYYY-MM-DDTHH:MM:SS`. */
  lemma IsoFormatNaiveShape(d: DateTime)
    requires !Aware(d) && d.microsecond == 0
    ensures |IsoFormat(d)| == 19
    ensures IsoFormat(d)[4] == '-' && IsoFormat(d)[7] == '-' && IsoFormat(d)[10] == 'T'
    ensures IsoFormat(d)[13] == ':' && IsoFormat(d)[16] == ':'
    ensures forall i :: 0 <= i < 19 && i !in {4, 7, 10, 13, 16} ==> IsDigit(IsoFormat(d)[i])
  {
    var s := IsoFormat(d);
    assert s == DateText(d) + "T" + TimeText(d);
    assert forall i :: 0 <= i < 10 ==> s[i] == DateText(d)[i];
    assert forall i :: 11 <= i < 19 ==> s[i] == TimeText(d)[i - 11];
  }
}
