/** The ECMAScript `Date`: a time value in milliseconds since 1970-01-01T00:00Z,
    its civil (proleptic Gregorian, UTC) reading, `toISOString`, and the
    `new Date("YYYY-MM-DDTHH:MM:SSZ")` reading back of such a text.
 */
module Calendar {

  import opened Wrappers
  import opened Strings

  const MsPerSecond := 1000
  const MsPerMinute := 60000
  const MsPerHour := 3600000
  const MsPerDay := 86400000

  /** A `Date` holds at most 100,000,000 days either side of the epoch. */
  const MaxTime := 8640000000000000

  type TimeValue = t: int | -MaxTime <= t <= MaxTime

  /** `TimeClip`: `new Date(ms)` of a count out of range is an invalid date. */
  function TimeClip(ms: int): (r: Option<TimeValue>)
    ensures r.Some? <==> -MaxTime <= ms <= MaxTime
    ensures r.Some? ==> r.value == ms
  {
    if -MaxTime <= ms <= MaxTime then Some(ms) else None
  }

  predicate IsLeapYear(y: int) {
    y % 4 == 0 && (y % 100 != 0 || y % 400 == 0)
  }

  function DaysInYear(y: int): int {
    if IsLeapYear(y) then 366 else 365
  }

  /** The day number of the first day of year `y`. */
  function DayFromYear(y: int): int {
    365 * (y - 1970) + (y - 1969) / 4 - (y - 1901) / 100 + (y - 1601) / 400
  }

  lemma DayFromYearStep(y: int)
    ensures DayFromYear(y + 1) == DayFromYear(y) + DaysInYear(y)
  {
    FloorStep(y, 1969, 4);
    FloorStep(y, 1901, 100);
    FloorStep(y, 1601, 400);
  }

  /** `(y + 1 - e) / k` exceeds `(y - e) / k` by one exactly when `y + 1 - e`
      is a multiple of `k`; the epoch offsets `e` used here make that `y % k == 0`. */
  lemma FloorStep(y: int, e: int, k: int)
    requires (e, k) == (1969, 4) || (e, k) == (1901, 100) || (e, k) == (1601, 400)
    ensures (y + 1 - e) / k - (y - e) / k == if y % k == 0 then 1 else 0
  {
    var q, r := (y - e) / k, (y - e) % k;
    assert y - e == k * q + r && 0 <= r < k;
    if r == k - 1 {
      assert y + 1 - e == k * (q + 1);
    } else {
      assert y + 1 - e == k * q + (r + 1);
    }
  }

  /** Later years start later, by at least 365 days a year. */
  lemma {:induction false} DayFromYearMonotone(a: int, b: int)
    requires a <= b
    ensures DayFromYear(a) + 365 * (b - a) <= DayFromYear(b)
    decreases b - a
  {
    if a < b {
      DayFromYearStep(b - 1);
      DayFromYearMonotone(a, b - 1);
    }
  }

  function YearUp(day: int, y: int): (r: int)
    requires DayFromYear(y) <= day
    ensures DayFromYear(r) <= day < DayFromYear(r + 1)
    decreases day - DayFromYear(y)
  {
    DayFromYearStep(y);
    if day < DayFromYear(y + 1) then y else YearUp(day, y + 1)
  }

  function YearDown(day: int, y: int): (r: int)
    requires day < DayFromYear(y + 1)
    ensures DayFromYear(r) <= day < DayFromYear(r + 1)
    decreases DayFromYear(y + 1) - day
  {
    DayFromYearStep(y);
    if DayFromYear(y) <= day then y else YearDown(day, y - 1)
  }

  /** The year a day number falls in. */
  function YearFromDay(day: int): (y: int)
    ensures DayFromYear(y) <= day < DayFromYear(y + 1)
  {
    if day >= 0 then YearUp(day, 1970) else YearDown(day, 1969)
  }

  /** Years of valid time values. */
  lemma YearBounds(day: int)
    requires -100000000 <= day <= 100000000
    ensures -271821 <= YearFromDay(day) <= 275760
  {
    var y := YearFromDay(day);
    if y > 275760 {
      DayFromYearMonotone(275761, y);
    }
    if y < -271821 {
      DayFromYearMonotone(y + 1, -271821);
    }
  }

  /** Days before the first of month `m` (1 to 12; 13 gives the year's length). */
  function MonthStart(m: int, leap: bool): int
    requires 1 <= m <= 13
  {
    [0, 31, 59, 90, 120, 151, 181, 212, 243, 273, 304, 334, 365][m - 1]
      + (if leap && m >= 3 then 1 else 0)
  }

  function DaysInMonth(y: int, m: int): (n: int)
    requires 1 <= m <= 12
    ensures 28 <= n <= 31
  {
    MonthStart(m + 1, IsLeapYear(y)) - MonthStart(m, IsLeapYear(y))
  }

  function MonthScan(d: int, leap: bool, m: int): (r: int)
    requires 1 <= m <= 12 && MonthStart(m, leap) <= d < MonthStart(13, leap)
    ensures m <= r <= 12 && MonthStart(r, leap) <= d < MonthStart(r + 1, leap)
    decreases 12 - m
  {
    if d < MonthStart(m + 1, leap) then m else MonthScan(d, leap, m + 1)
  }

  /** A day-and-time reading in UTC. */
  datatype DateTime = DateTime(year: int, month: int, day: int,
                               hour: int, minute: int, second: int, millisecond: int)

  /** The reading `toISOString` can print. */
  predicate Printable(c: DateTime) {
    -999999 <= c.year <= 999999 && 1 <= c.month <= 12 && 1 <= c.day <= 31
    && 0 <= c.hour < 100 && 0 <= c.minute < 60 && 0 <= c.second < 60 && 0 <= c.millisecond < 1000
  }

  /** The calendar date of a day number, at midnight. */
  function DateOfDay(day: int): (c: DateTime)
    requires -100000000 <= day <= 100000000
    ensures -271821 <= c.year <= 275760 && 1 <= c.month <= 12
    ensures 1 <= c.day <= DaysInMonth(c.year, c.month)
    ensures c.hour == 0 && c.minute == 0 && c.second == 0 && c.millisecond == 0
    ensures DayFromYear(c.year) + MonthStart(c.month, IsLeapYear(c.year)) + c.day - 1 == day
  {
    var y := YearFromDay(day);
    YearBounds(day);
    DayFromYearStep(y);
    var leap := IsLeapYear(y);
    var m := MonthScan(day - DayFromYear(y), leap, 1);
    DateTime(y, m, day - DayFromYear(y) - MonthStart(m, leap) + 1, 0, 0, 0, 0)
  }

  /** The reading of a time value: `getUTCFullYear`, `getUTCMonth() + 1`,
      `getUTCDate`, `getUTCHours`, ... */
  function ToDateTime(t: TimeValue): (c: DateTime)
    ensures Printable(c) && -271821 <= c.year <= 275760
    ensures 1 <= c.day <= DaysInMonth(c.year, c.month)
    ensures c.hour < 24
  {
    var ms := t % MsPerDay;
    DateOfDay(t / MsPerDay).(hour := ms / MsPerHour, minute := ms / MsPerMinute % 60,
                             second := ms / MsPerSecond % 60, millisecond := ms % 1000)
  }

  /** `MakeDate(MakeDay(y, m - 1, d), MakeTime(h, min, s, ms))`: a day past the
      end of its month runs into the next one, as in the specification. */
  function MakeDate(c: DateTime): int
    requires 1 <= c.month <= 12
  {
    (DayFromYear(c.year) + MonthStart(c.month, IsLeapYear(c.year)) + c.day - 1) * MsPerDay
      + c.hour * MsPerHour + c.minute * MsPerMinute + c.second * MsPerSecond + c.millisecond
  }

  /** The civil reading of a time value gives the time value back. */
  lemma MakeDateOfReading(t: TimeValue)
    ensures MakeDate(ToDateTime(t)) == t
  {
    DayParts(t % MsPerDay);
  }

  lemma DayParts(ms: int)
    requires 0 <= ms < MsPerDay
    ensures ms == ms / MsPerHour * MsPerHour + ms / MsPerMinute % 60 * MsPerMinute
                  + ms / MsPerSecond % 60 * MsPerSecond + ms % 1000
  {
    var s := ms / 1000;
    var mi := s / 60;
    assert ms == s * 1000 + ms % 1000;
    assert s == mi * 60 + s % 60;
    assert mi == mi / 60 * 60 + mi % 60;
    assert mi == ms / MsPerMinute;
    assert mi / 60 == ms / MsPerHour;
  }

  /** A printable reading with the millisecond dropped. */
  function WholeSecond(c: DateTime): DateTime {
    c.(millisecond := 0)
  }

  /** The year as `toISOString` writes it: four digits for 0 to 9999,
      otherwise a sign and six digits. */
  function YearText(y: int): (s: string)
    requires -999999 <= y <= 999999
  {
    if 0 <= y <= 9999 then FixedDigits(y, 4)
    else if y < 0 then "-" + FixedDigits(-y, 6)
    else "+" + FixedDigits(y, 6)
  }

  /** `YYYY-MM-DD` */
  function DateText(c: DateTime): string
    requires Printable(c)
  {
    YearText(c.year) + "-" + FixedDigits(c.month, 2) + "-" + FixedDigits(c.day, 2)
  }

  /** `HH:MM:SS`, with the separator given. */
  function ClockText(c: DateTime, sep: char): (s: string)
    requires Printable(c)
    ensures |s| == 8
  {
    FixedDigits(c.hour, 2) + [sep] + FixedDigits(c.minute, 2) + [sep] + FixedDigits(c.second, 2)
  }

  /** `YYYY-MM-DDTHH:MM:SS.sssZ` */
  function IsoText(c: DateTime): string
    requires Printable(c)
  {
    DateText(c) + "T" + ClockText(c, ':') + "." + FixedDigits(c.millisecond, 3) + "Z"
  }

  /** `date.toISOString()` */
  function ToIsoString(t: TimeValue): string {
    IsoText(ToDateTime(t))
  }

  /** `YYYY-MM-DDTHH:MM:SSZ`: the only text shape the model reads back. */
  predicate IsoSecondsShape(s: string) {
    |s| == 20 && AllDigits(s[0..4]) && s[4] == '-' && AllDigits(s[5..7]) && s[7] == '-'
    && AllDigits(s[8..10]) && s[10] == 'T' && AllDigits(s[11..13]) && s[13] == ':'
    && AllDigits(s[14..16]) && s[16] == ':' && AllDigits(s[17..19]) && s[19] == 'Z'
  }

  /** The fields V8's date-time parser accepts: the day is checked against 31
      only, and hour 24 only as `24:00:00`. */
  predicate FieldsAccepted(c: DateTime) {
    1 <= c.month <= 12 && 1 <= c.day <= 31
    && (c.hour < 24 || (c.hour == 24 && c.minute == 0 && c.second == 0))
    && c.minute < 60 && c.second < 60
  }

  /** The fields a text of the shape spells. */
  function IsoFields(s: string): DateTime
    requires IsoSecondsShape(s)
  {
    DateTime(DecimalValue(s[0..4]), DecimalValue(s[5..7]), DecimalValue(s[8..10]),
             DecimalValue(s[11..13]), DecimalValue(s[14..16]), DecimalValue(s[17..19]), 0)
  }

  /** `new Date(s)` for a text of the shape; `None` is the invalid date. */
  function ParseIsoSeconds(s: string): (r: Option<TimeValue>)
    requires IsoSecondsShape(s)
    ensures r.Some? <==> FieldsAccepted(IsoFields(s))
    ensures r.Some? ==> r.value == MakeDate(IsoFields(s))
  {
    var c := IsoFields(s);
    if FieldsAccepted(c) then
      DecimalBound(s[0..4]);
      FourDigitYearsInRange(c);
      TimeClip(MakeDate(c))
    else None
  }

  lemma FourDigitYearsInRange(c: DateTime)
    requires FieldsAccepted(c) && 0 <= c.year <= 9999
    requires 0 <= c.hour && 0 <= c.minute && 0 <= c.second && c.millisecond == 0
    ensures -MaxTime <= MakeDate(c) <= MaxTime
  {
    DayFromYearMonotone(0, c.year);
    DayFromYearMonotone(c.year, 9999);
  }

  /** `YYYY-MM-DDTHH:MM:SSZ`, with the clock separator given. */
  function StampText(c: DateTime, sep: char): string
    requires Printable(c)
  {
    DateText(c) + "T" + ClockText(c, sep) + "Z"
  }

  function SecondsText(c: DateTime): string
    requires Printable(c)
  {
    StampText(c, ':')
  }

  lemma DateTextPieces(c: DateTime)
    requires Printable(c) && 0 <= c.year <= 9999
    ensures var d := DateText(c);
      |d| == 10 && d[0..4] == FixedDigits(c.year, 4) && d[4] == '-'
      && d[5..7] == FixedDigits(c.month, 2) && d[7] == '-' && d[8..10] == FixedDigits(c.day, 2)
  {
  }

  lemma ClockTextPieces(c: DateTime, sep: char)
    requires Printable(c)
    ensures var k := ClockText(c, sep);
      k[0..2] == FixedDigits(c.hour, 2) && k[2] == sep
      && k[3..5] == FixedDigits(c.minute, 2) && k[5] == sep && k[6..8] == FixedDigits(c.second, 2)
  {
  }

  lemma StampTextSlices(c: DateTime, sep: char)
    requires Printable(c) && 0 <= c.year <= 9999
    ensures var s := StampText(c, sep);
      |s| == 20 && s[0..4] == FixedDigits(c.year, 4) && s[5..7] == FixedDigits(c.month, 2)
      && s[8..10] == FixedDigits(c.day, 2) && s[11..13] == FixedDigits(c.hour, 2)
      && s[14..16] == FixedDigits(c.minute, 2) && s[17..19] == FixedDigits(c.second, 2)
      && s[4] == '-' && s[7] == '-' && s[10] == 'T' && s[13] == sep && s[16] == sep && s[19] == 'Z'
  {
    var d, k := DateText(c), ClockText(c, sep);
    var s := StampText(c, sep);
    DateTextPieces(c);
    ClockTextPieces(c, sep);
    assert s[..10] == d && s[11..19] == k;
    assert s[0..4] == d[0..4] && s[5..7] == d[5..7] && s[8..10] == d[8..10];
    assert s[11..13] == k[0..2] && s[14..16] == k[3..5] && s[17..19] == k[6..8];
  }

  /** The text spells the reading's fields, down to the second. */
  lemma SecondsTextFields(c: DateTime)
    requires Printable(c) && 0 <= c.year <= 9999
    ensures IsoSecondsShape(SecondsText(c))
    ensures IsoFields(SecondsText(c)) == WholeSecond(c)
  {
    StampTextSlices(c, ':');
    FixedDigitsValue(c.year, 4);
    FixedDigitsValue(c.month, 2);
    FixedDigitsValue(c.day, 2);
    FixedDigitsValue(c.hour, 2);
    FixedDigitsValue(c.minute, 2);
    FixedDigitsValue(c.second, 2);
  }

  /** Reading back the seconds text of a time value with a four-digit year
      gives the time value truncated to the whole second. */
  lemma ParseSecondsText(t: TimeValue)
    requires 0 <= ToDateTime(t).year <= 9999
    ensures IsoSecondsShape(SecondsText(ToDateTime(t)))
    ensures ParseIsoSeconds(SecondsText(ToDateTime(t))).Some?
    ensures ParseIsoSeconds(SecondsText(ToDateTime(t))).value == t - t % MsPerSecond
  {
    ReadingWithoutMillisecond(t);
    ParseSecondsTextOf(ToDateTime(t), t - t % MsPerSecond);
  }

  lemma ReadingWithoutMillisecond(t: TimeValue)
    ensures MakeDate(ToDateTime(t)) - ToDateTime(t).millisecond == t - t % MsPerSecond
  {
    MakeDateOfReading(t);
    ReadingMillisecond(t);
  }

  lemma ParseSecondsTextOf(c: DateTime, whole: int)
    requires Printable(c) && 0 <= c.year <= 9999 && c.hour < 24
    requires 1 <= c.day <= DaysInMonth(c.year, c.month)
    requires MakeDate(c) - c.millisecond == whole
    ensures IsoSecondsShape(SecondsText(c))
    ensures ParseIsoSeconds(SecondsText(c)) == Some(whole)
  {
    SecondsTextFields(c);
    WholeSecondAccepted(c);
  }

  lemma WholeSecondAccepted(c: DateTime)
    requires 1 <= c.month <= 12 && 1 <= c.day <= DaysInMonth(c.year, c.month)
    requires 0 <= c.hour < 24 && 0 <= c.minute < 60 && 0 <= c.second < 60
    ensures FieldsAccepted(WholeSecond(c))
    ensures MakeDate(WholeSecond(c)) == MakeDate(c) - c.millisecond
  {
  }

  lemma ReadingMillisecond(t: TimeValue)
    ensures ToDateTime(t).millisecond == t % MsPerSecond
  {
    MillisecondOfDay(t);
  }

  lemma MillisecondOfDay(t: int)
    ensures t % MsPerDay % 1000 == t % MsPerSecond
  {
    var q := t / MsPerDay;
    assert t == q * MsPerDay + t % MsPerDay;
    assert q * MsPerDay == (q * 86400) * 1000;
  }
}
