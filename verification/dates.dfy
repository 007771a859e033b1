/**
 JavaScript `Date` values as far as the model needs them: the time value a
 `Date` holds (milliseconds since 1970-01-01T00:00:00Z, within the range
 ECMA-262 allows), `new Date(ms)`, `Date.prototype.toISOString` (the
 extended date-time format of ISO 8601:2004 section 4.3.2, as ECMA-262
 section 21.4.1.32 lays it out), and `s.split(c)[0]`.
 */
module JsDates {
  import opened Common

  const MsPerDay: int := 86_400_000

  /** The largest magnitude a time value may have: 10^8 days. */
  const MaxTimeValue: int := 8_640_000_000_000_000

  /** The time values a valid `Date` can hold. */
  type TimeValue = t: int | -MaxTimeValue <= t <= MaxTimeValue

  /** A `Date` object: a time value, or the Invalid Date. */
  datatype JsDate = ValidDate(time: TimeValue) | InvalidDate

  /** `new Date(ms)` for a whole number of milliseconds: out of range gives
      the Invalid Date. */
  function NewDate(ms: int): (d: JsDate)
    ensures d.ValidDate? <==> -MaxTimeValue <= ms <= MaxTimeValue
    ensures d.ValidDate? ==> d.time == ms
  {
    if -MaxTimeValue <= ms <= MaxTimeValue then ValidDate(ms) else InvalidDate
  }

  /** A proleptic Gregorian calendar date. */
  datatype CivilDate = CivilDate(year: int, month: nat, day: nat)

  /** The days of a 400-year era, counted from March 1 of its first year,
      that come before March 1 of its year `yearOfEra`: 365 a year plus a
      leap day every fourth year except every hundredth. */
  function DaysBeforeYear(yearOfEra: nat): nat
  {
    365 * yearOfEra + yearOfEra / 4 - yearOfEra / 100
  }

  /** Where a day of an era falls: its year of the era and its day within
      that (March-based) year. */
  datatype EraPosition = EraPosition(yearOfEra: nat, dayOfYear: nat)

  /** A day of a 400-year era, split into whole centuries, four-year groups
      and years; every fourth year, except the last of the first three
      centuries, has 366 days, and so does the last year of the era. */
  function PositionInEra(dayOfEra: int): (p: EraPosition)
    requires 0 <= dayOfEra < 146_097
    ensures p.yearOfEra < 400 && p.dayOfYear <= 365
    ensures DaysBeforeYear(p.yearOfEra) + p.dayOfYear == dayOfEra
  {
    var centuries := if dayOfEra / 36_524 < 3 then dayOfEra / 36_524 else 3;
    var dayOfCentury := dayOfEra - 36_524 * centuries;
    var quads := dayOfCentury / 1461;
    var dayOfQuad := dayOfCentury % 1461;
    var years := if dayOfQuad / 365 < 3 then dayOfQuad / 365 else 3;
    DaysBeforeYearOfEra(centuries, quads, years);
    EraPosition(100 * centuries + 4 * quads + years, dayOfQuad - 365 * years)
  }

  /** The days before a year of the era, counted by the leap-year rule, are
      the whole centuries, four-year groups and years before it. */
  lemma DaysBeforeYearOfEra(centuries: int, quads: int, years: int)
    requires 0 <= centuries <= 3 && 0 <= quads <= 24 && 0 <= years <= 3
    ensures DaysBeforeYear(100 * centuries + 4 * quads + years) == 36_524 * centuries + 1461 * quads + 365 * years
  {
    var yearOfEra := 100 * centuries + 4 * quads + years;
    assert yearOfEra / 4 == 25 * centuries + quads;
    assert yearOfEra / 100 == centuries;
  }

  /** A month and a day of it. */
  datatype MonthDay = MonthDay(month: nat, day: nat)

  /** The day of the March-based year on which a month and day fall (March
      1 is day 0): months from March on have 31, 30, 31, 30, 31, 31, 30,
      31, 30, 31, 31 days. */
  function DayOfYearOf(month: nat, day: nat): int
  {
    (153 * ((month + 9) % 12) + 2) / 5 + day - 1
  }

  /** The month and day of a day of the March-based year. */
  function MonthDayOf(dayOfYear: int): (md: MonthDay)
    requires 0 <= dayOfYear <= 365
    ensures 1 <= md.month <= 12 && 1 <= md.day <= 31
    ensures DayOfYearOf(md.month, md.day) == dayOfYear
  {
    var mp := (5 * dayOfYear + 2) / 153;
    assert 0 <= mp <= 11 && 1 <= dayOfYear - (153 * mp + 2) / 5 + 1 <= 31;
    var month := if mp < 10 then mp + 3 else mp - 9;
    assert (month + 9) % 12 == mp;
    MonthDay(month, dayOfYear - (153 * mp + 2) / 5 + 1)
  }

  /** The calendar date `z` days after 1970-01-01 (negative `z` counts back).
      Days are counted from 0000-03-01, so that a leap day ends its year, and
      split into 400-year eras of 146097 days. */
  function CivilFromDays(z: int): (c: CivilDate)
    ensures 1 <= c.month <= 12
    ensures 1 <= c.day <= 31
    ensures -100_000_000 <= z <= 100_000_000 ==> -300_000 < c.year < 300_000
  {
    var shifted := z + 719_468;
    var p := PositionInEra(shifted % 146_097);
    var md := MonthDayOf(p.dayOfYear);
    CivilDate(shifted / 146_097 * 400 + p.yearOfEra + (if md.month <= 2 then 1 else 0), md.month, md.day)
  }

  /** The number of days from 1970-01-01 to a calendar date. */
  function DaysFromCivil(c: CivilDate): int
  {
    var marchYear := c.year - (if c.month <= 2 then 1 else 0);
    marchYear / 400 * 146_097 + DaysBeforeYear(marchYear % 400) + DayOfYearOf(c.month, c.day) - 719_468
  }

  /** Every day number names a calendar date that counts back to it, so no
      two days share a date. */
  lemma CivilRoundTrip(z: int)
    ensures DaysFromCivil(CivilFromDays(z)) == z
  {
    var shifted := z + 719_468;
    var era := shifted / 146_097;
    var dayOfEra := shifted % 146_097;
    var p := PositionInEra(dayOfEra);
    var md := MonthDayOf(p.dayOfYear);
    var c := CivilFromDays(z);
    assert c == CivilDate(era * 400 + p.yearOfEra + (if md.month <= 2 then 1 else 0), md.month, md.day);
    DaysFromEraPosition(era, p.yearOfEra, md.month, md.day);
    CountBackFromEra(z, era, dayOfEra, c);
  }

  /** The last step of the round trip: a date that counts back to its era's
      days plus its day of the era counts back to the day it came from. */
  lemma CountBackFromEra(z: int, era: int, dayOfEra: int, c: CivilDate)
    requires era == (z + 719_468) / 146_097 && dayOfEra == (z + 719_468) % 146_097
    requires DaysFromCivil(c) == era * 146_097 + dayOfEra - 719_468
    ensures DaysFromCivil(c) == z
  {
  }

  /** A date given by its era, its year of the era and its month and day
      counts back to the era's days plus the days before that year plus its
      day of the (March-based) year. */
  lemma DaysFromEraPosition(era: int, yearOfEra: nat, month: nat, day: nat)
    requires yearOfEra < 400 && 1 <= month <= 12
    ensures DaysFromCivil(CivilDate(era * 400 + yearOfEra + (if month <= 2 then 1 else 0), month, day))
      == era * 146_097 + DaysBeforeYear(yearOfEra) + DayOfYearOf(month, day) - 719_468
  {
    EraRoundTrip(era, yearOfEra);
  }

  /** A year splits back into its era and its year of the era. */
  lemma EraRoundTrip(era: int, yearOfEra: int)
    requires 0 <= yearOfEra < 400
    ensures (era * 400 + yearOfEra) / 400 == era
    ensures (era * 400 + yearOfEra) % 400 == yearOfEra
  {
  }

  /** The digit character for `d`. */
  function DigitChar(d: nat): (c: char)
    requires d < 10
    ensures '0' <= c <= '9'
  {
    "0123456789"[d]
  }

  /** The value of a digit character. */
  function DigitValue(c: char): (d: nat)
    requires '0' <= c <= '9'
    ensures d < 10 && DigitChar(d) == c
  {
    if c == '0' then 0 else if c == '1' then 1 else if c == '2' then 2
    else if c == '3' then 3 else if c == '4' then 4 else if c == '5' then 5
    else if c == '6' then 6 else if c == '7' then 7 else if c == '8' then 8 else 9
  }

  predicate AllDigits(s: string)
  {
    forall i :: 0 <= i < |s| ==> '0' <= s[i] <= '9'
  }

  function Pow10(width: nat): (p: nat)
    ensures p >= 1
  {
    if width == 0 then 1 else 10 * Pow10(width - 1)
  }

  /** `n` written in exactly `width` decimal digits, zero-padded on the
      left (`String(n).padStart(width, "0")` for every `n < 10^width`). */
  function Pad(n: nat, width: nat): (s: string)
    ensures |s| == width
    ensures AllDigits(s)
  {
    if width == 0 then "" else Pad(n / 10, width - 1) + [DigitChar(n % 10)]
  }

  /** The number a string of decimal digits denotes. */
  function DecimalValue(s: string): (n: nat)
    requires AllDigits(s)
  {
    if s == [] then 0 else 10 * DecimalValue(s[..|s| - 1]) + DigitValue(s[|s| - 1])
  }

  /** Reading back a padded number gives the number, when it fits. */
  lemma {:induction false} PadRoundTrip(n: nat, width: nat)
    requires n < Pow10(width)
    ensures DecimalValue(Pad(n, width)) == n
  {
    if width > 0 {
      var s := Pad(n, width);
      assert s[..|s| - 1] == Pad(n / 10, width - 1);
      PadRoundTrip(n / 10, width - 1);
      assert DigitValue(DigitChar(n % 10)) == n % 10;
    }
  }

  /** The year field: four digits for years 0 through 9999, otherwise a sign
      and six digits (the expanded year representation). */
  function YearText(year: int): (s: string)
    ensures 0 <= year <= 9999 ==> |s| == 4 && AllDigits(s)
    ensures !(0 <= year <= 9999) ==> |s| == 7 && s[0] in "+-" && AllDigits(s[1..])
  {
    if 0 <= year <= 9999 then Pad(year, 4)
    else (if year < 0 then "-" else "+") + Pad(if year < 0 then -year else year, 6)
  }

  /** The calendar-date part of the ISO string, `YYYY-MM-DD`. */
  function CalendarDateText(c: CivilDate): (s: string)
    ensures 'T' !in s
    ensures 0 <= c.year <= 9999 ==> |s| == 10
  {
    var y := YearText(c.year);
    var s := y + "-" + Pad(c.month, 2) + "-" + Pad(c.day, 2);
    assert forall i :: 0 <= i < |s| ==> s[i] == '-' || s[i] == '+' || '0' <= s[i] <= '9';
    s
  }

  /** The calendar date a time value falls on, in UTC. */
  function CalendarDateOf(t: TimeValue): (c: CivilDate)
    ensures 1 <= c.month <= 12 && 1 <= c.day <= 31
    ensures -300_000 < c.year < 300_000
  {
    CivilFromDays(t / MsPerDay)
  }

  /** The time of day, `HH:mm:ss.sssZ`. */
  function TimeOfDayText(msInDay: nat): string
  {
    Pad(msInDay / 3_600_000, 2) + ":" + Pad(msInDay / 60_000 % 60, 2) + ":"
      + Pad(msInDay / 1000 % 60, 2) + "." + Pad(msInDay % 1000, 3) + "Z"
  }

  /** `date.toISOString()`: the Invalid Date throws a RangeError (`None`). */
  function ToIsoString(d: JsDate): (r: Option<string>)
    ensures r.Some? <==> d.ValidDate?
    ensures d.ValidDate? ==> r.value == CalendarDateText(CalendarDateOf(d.time)) + "T" + TimeOfDayText(d.time % MsPerDay)
  {
    match d
    case InvalidDate => None
    case ValidDate(t) => Some(CalendarDateText(CalendarDateOf(t)) + ("T" + TimeOfDayText(t % MsPerDay)))
  }

  /** `s.split(c)[0]`: everything before the first `c`, or all of `s` when it
      has none. */
  function BeforeFirst(s: string, c: char): (r: string)
    ensures |r| <= |s| && r == s[..|r|]
    ensures c !in r
    ensures |r| < |s| ==> s[|r|] == c
  {
    if s == [] || s[0] == c then [] else [s[0]] + BeforeFirst(s[1..], c)
  }

  /** What `BeforeFirst` returns is determined by the position of the first
      separator: a prefix free of `c` followed by `c` is the answer. */
  lemma {:induction false} BeforeFirstOfJoin(a: string, c: char, b: string)
    requires c !in a
    ensures BeforeFirst(a + [c] + b, c) == a
    decreases |a|
  {
    if a != [] {
      assert (a + [c] + b)[1..] == a[1..] + [c] + b;
      BeforeFirstOfJoin(a[1..], c, b);
      assert [a[0]] + a[1..] == a;
    }
  }

  /** Truncating an ISO date-time string at its `T` keeps exactly the
      calendar date, in the form `YYYY-MM-DD` (or `±YYYYYY-MM-DD`). */
  lemma IsoDatePart(t: TimeValue)
    ensures BeforeFirst(ToIsoString(ValidDate(t)).value, 'T') == CalendarDateText(CalendarDateOf(t))
  {
    BeforeFirstOfJoin(CalendarDateText(CalendarDateOf(t)), 'T', TimeOfDayText(t % MsPerDay));
  }
}
