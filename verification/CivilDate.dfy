/** The date and time of a score record (`fmt_datetime` in format.rs): closed-form integer arithmetic
    on the milliseconds since 1970, held against the Gregorian calendar taken one day at a time
    (section 3.2.1 of ISO 8601:2004). */
module CivilDate {

  datatype Date = Date(year: int, month: int, day: int)

  datatype Stamp = Stamp(date: Date, hour: int, minute: int)

  // ---------- The calendar, day by day ----------

  predicate Leap(y: int) {
    y % 4 == 0 && (y % 100 != 0 || y % 400 == 0)
  }

  function MonthLength(y: int, m: int): int {
    if m == 2 then (if Leap(y) then 29 else 28)
    else if m == 4 || m == 6 || m == 9 || m == 11 then 30
    else 31
  }

  predicate ValidDate(d: Date) {
    && 1 <= d.month <= 12
    && 1 <= d.day <= MonthLength(d.year, d.month)
  }

  function Next(d: Date): Date {
    if d.day < MonthLength(d.year, d.month) then d.(day := d.day + 1)
    else if d.month < 12 then Date(d.year, d.month + 1, 1)
    else Date(d.year + 1, 1, 1)
  }

  function Previous(d: Date): Date {
    if d.day > 1 then d.(day := d.day - 1)
    else if d.month > 1 then Date(d.year, d.month - 1, MonthLength(d.year, d.month - 1))
    else Date(d.year - 1, 12, 31)
  }

  const EPOCH := Date(1970, 1, 1)

  /** The calendar's date `n` days after 1970-01-01, reached one day at a time. */
  function DateOfDay(n: int): Date
    decreases if n < 0 then -n else n
  {
    if n == 0 then EPOCH
    else if n > 0 then Next(DateOfDay(n - 1))
    else Previous(DateOfDay(n + 1))
  }

  // ---------- The arithmetic of format.rs ----------

  /** Rust's `/` on integers, which truncates toward zero. */
  function TruncatedQuotient(a: int, b: int): int
    requires b > 0
  {
    if a >= 0 then a / b else -((-a) / b)
  }

  /** The day of the 400-year era and the era a day number falls in. */
  function Era(z: int): int {
    TruncatedQuotient(if z >= 0 then z else z - 146096, 146097)
  }

  function YearOfEra(doe: int): int {
    (doe - doe / 1460 + doe / 36524 - doe / 146096) / 365
  }

  function DayOfYear(doe: int, yoe: int): int {
    doe - (365 * yoe + yoe / 4 - yoe / 100)
  }

  function MonthFromMarch(doy: int): int {
    (5 * doy + 2) / 153
  }

  function DayOfMonth(doy: int, mp: int): int {
    doy - (153 * mp + 2) / 5 + 1
  }

  function CivilMonth(mp: int): int {
    if mp < 10 then mp + 3 else mp - 9
  }

  /** The date of day `doy` of the year from March of civil year `y`. */
  function OfYear(y: int, doy: int): Date {
    var mp := MonthFromMarch(doy);
    var m := CivilMonth(mp);
    Date(y + (if m <= 2 then 1 else 0), m, DayOfMonth(doy, mp))
  }

  /** The date of day `doe` of era `era`. */
  function OfEra(era: int, doe: int): Date {
    var yoe := YearOfEra(doe);
    OfYear(era * 400 + yoe, DayOfYear(doe, yoe))
  }

  /** The civil date of a day number counted from 1970-01-01. */
  function CivilFromDays(days: int): Date {
    var z := days + 719468;
    var era := Era(z);
    OfEra(era, z - era * 146097)
  }

  /** What `fmt_datetime` prints, before it is written out as text. */
  function StampOf(ms: int): Stamp {
    var secs := ms / 1000;
    var days := secs / 86400;
    var tod := secs % 86400;
    Stamp(CivilFromDays(days), tod / 3600, (tod % 3600) / 60)
  }

  // ---------- Years counted from March ----------

  /** The day of the era on which its year `y`, from March to February, starts. */
  function YearStart(y: int): int {
    365 * y + y / 4 - y / 100
  }

  /** The days of the era before `doe`, leap days left out. */
  function CommonDays(doe: int): int {
    doe - doe / 1460 + doe / 36524 - doe / 146096
  }

  lemma CommonDaysAtAYearStart(y: int)
    requires 0 <= y < 400
    ensures CommonDays(YearStart(y)) == 365 * y
    ensures y > 0 ==> CommonDays(YearStart(y) - 1) < 365 * y
  {
    var c, s := y / 100, y % 100;
    var k, j := s / 4, s % 4;
    var doe := YearStart(y);
    var r := 24 * c + k + 365 * j;
    assert y / 4 == 25 * c + k;
    assert doe == 36524 * c + 1461 * k + 365 * j == 1460 * (25 * c + k) + r;
    assert 0 <= r < 1460;
    assert doe / 1460 == 25 * c + k;
    assert doe / 36524 == c;
    if y > 0 {
      assert r > 0;
      assert (doe - 1) / 1460 == 25 * c + k;
    }
  }

  lemma {:induction false} CommonDaysGrow(a: int, b: int)
    requires 0 <= a <= b < 146097
    ensures CommonDays(a) <= CommonDays(b)
    decreases b - a
  {
    if a < b {
      assert CommonDays(b - 1) <= CommonDays(b) by {
        assert (b % 146096 == 0) ==> b % 36524 == 0;
      }
      CommonDaysGrow(a, b - 1);
    }
  }

  lemma YearOfEraHoldsItsDay(doe: int)
    requires 0 <= doe < 146097
    ensures 0 <= YearOfEra(doe) < 400
    ensures YearStart(YearOfEra(doe)) <= doe
    ensures YearOfEra(doe) < 399 ==> doe < YearStart(YearOfEra(doe) + 1)
  {
    var y := YearOfEra(doe);
    CommonDaysGrow(0, doe);
    CommonDaysGrow(doe, 146096);
    CommonDaysAtAYearStart(y);
    if YearStart(y) > doe {
      CommonDaysGrow(doe, YearStart(y) - 1);
    }
    if y < 399 {
      CommonDaysAtAYearStart(y + 1);
      if doe >= YearStart(y + 1) {
        CommonDaysGrow(YearStart(y + 1), doe);
      }
    }
  }

  /** The year of the era of a day is the only one that holds it. */
  lemma YearOfEraIsOnly(doe: int, y: int)
    requires 0 <= doe < 146097 && 0 <= y < 400
    requires YearStart(y) <= doe && (y < 399 ==> doe < YearStart(y + 1))
    ensures YearOfEra(doe) == y
  {
    YearOfEraHoldsItsDay(doe);
  }

  // ---------- The date of the next day ----------

  /** The day of the year from March on which month `mp` of it starts. */
  function MonthStart(mp: int): int {
    (153 * mp + 2) / 5
  }

  lemma MonthHoldsItsDay(doy: int)
    requires 0 <= doy <= 365
    ensures 0 <= MonthFromMarch(doy) <= 11
    ensures MonthStart(MonthFromMarch(doy)) <= doy < MonthStart(MonthFromMarch(doy) + 1)
  {}

  /** Months from March are as long as the calendar's, whatever the year, February apart. */
  lemma MonthStartsFollowTheCalendar(y: int, mp: int)
    requires 0 <= mp < 11
    ensures MonthStart(mp + 1) - MonthStart(mp) == MonthLength(y, CivilMonth(mp))
  {}

  lemma DayAfterInTheSameYear(y: int, doy: int)
    requires 0 <= doy < 364 + (if Leap(y + 1) then 1 else 0)
    ensures OfYear(y, doy + 1) == Next(OfYear(y, doy))
  {
    MonthHoldsItsDay(doy);
    MonthHoldsItsDay(doy + 1);
    var mp := MonthFromMarch(doy);
    if mp < 11 {
      MonthStartsFollowTheCalendar(y, mp);
      MonthStartsFollowTheCalendar(y + 1, mp);
    }
  }

  lemma EraHoldsItsDay(z: int)
    ensures 0 <= z - Era(z) * 146097 < 146097
  {}

  lemma DayOfEraAndEra(z: int, era: int)
    requires era * 146097 <= z < (era + 1) * 146097
    ensures Era(z) == era
  {
    EraHoldsItsDay(z);
  }

  lemma CivilOfEra(days: int, era: int, doe: int)
    requires days + 719468 == era * 146097 + doe && 0 <= doe < 146097
    ensures CivilFromDays(days) == OfEra(era, doe)
  {
    DayOfEraAndEra(days + 719468, era);
  }

  lemma EraIsOfYear(era: int, y: int, doy: int)
    requires 0 <= y < 400
    requires 0 <= doy && YearStart(y) + doy < 146097
    requires y < 399 ==> YearStart(y) + doy < YearStart(y + 1)
    ensures OfEra(era, YearStart(y) + doy) == OfYear(era * 400 + y, doy)
  {
    YearOfEraIsOnly(YearStart(y) + doy, y);
  }

  lemma FourYearsOn(q: int, w: int)
    ensures (4 * q + w) % 4 == w % 4
  {}

  lemma CenturiesOn(q: int, w: int)
    ensures (100 * q + w) % 100 == w % 100
  {}

  lemma ErasOn(q: int, w: int)
    ensures (400 * q + w) % 400 == w % 400
  {}

  lemma LeapInTheEra(era: int, y: int)
    ensures Leap(era * 400 + y) == Leap(y)
  {
    FourYearsOn(100 * era, y);
    CenturiesOn(4 * era, y);
    ErasOn(era, y);
  }

  lemma EraYearLength(y: int)
    requires 0 <= y < 400
    ensures YearStart(y + 1) - YearStart(y) == (if Leap(y + 1) then 366 else 365) - (if y == 399 then 1 else 0)
  {
    var w := y + 1;
    assert w / 4 - y / 4 == (if w % 4 == 0 then 1 else 0);
    assert w / 100 - y / 100 == (if w % 100 == 0 then 1 else 0);
  }

  /** The last day of a year from March is the calendar's last of February. */
  lemma DayAfterTheYear(y: int)
    ensures OfYear(y + 1, 0) == Next(OfYear(y, 364 + (if Leap(y + 1) then 1 else 0)))
  {}

  lemma OfEraAfter(era: int, doe: int)
    requires 0 <= doe < 146097
    ensures Next(OfEra(era, doe)) == if doe == 146096 then OfEra(era + 1, 0) else OfEra(era, doe + 1)
  {
    hide OfYear, OfEra, YearOfEra, Next;
    YearOfEraHoldsItsDay(doe);
    var y := YearOfEra(doe);
    var doy := doe - YearStart(y);
    LeapInTheEra(era, y + 1);
    EraYearLength(y);
    assert era * 400 + (y + 1) == (era * 400 + y) + 1;
    EraIsOfYear(era, y, doy);
    if doy < 364 + (if Leap(y + 1) then 1 else 0) {
      EraIsOfYear(era, y, doy + 1);
      DayAfterInTheSameYear(era * 400 + y, doy);
    } else if y < 399 {
      EraIsOfYear(era, y + 1, 0);
      DayAfterTheYear(era * 400 + y);
    } else {
      assert YearStart(399) == 145731;
      EraIsOfYear(era + 1, 0, 0);
      DayAfterTheYear(era * 400 + y);
    }
  }

  /** The arithmetic's date of a day after is the calendar's next date. */
  lemma CivilOfTheDayAfter(days: int)
    ensures CivilFromDays(days + 1) == Next(CivilFromDays(days))
  {
    hide OfEra, Next, Era, CivilFromDays;
    var z := days + 719468;
    var era := Era(z);
    EraHoldsItsDay(z);
    var doe := z - era * 146097;
    OfEraAfter(era, doe);
    CivilOfEra(days, era, doe);
    if doe == 146096 {
      CivilOfEra(days + 1, era + 1, 0);
    } else {
      CivilOfEra(days + 1, era, doe + 1);
    }
  }

  lemma NextOfPrevious(d: Date)
    requires ValidDate(d)
    ensures ValidDate(Previous(d)) && Next(Previous(d)) == d
    ensures ValidDate(Next(d)) && Previous(Next(d)) == d
  {}

  lemma OfYearIsValid(y: int, doy: int)
    requires 0 <= doy < (if Leap(y + 1) then 366 else 365)
    ensures ValidDate(OfYear(y, doy))
  {
    MonthHoldsItsDay(doy);
    var mp := MonthFromMarch(doy);
    if mp < 11 {
      MonthStartsFollowTheCalendar(OfYear(y, doy).year, mp);
    }
  }

  lemma CivilIsValid(days: int)
    ensures ValidDate(CivilFromDays(days))
  {
    hide OfYear, YearOfEra, Era, MonthLength;
    var z := days + 719468;
    EraHoldsItsDay(z);
    var era := Era(z);
    var doe := z - era * 146097;
    YearOfEraHoldsItsDay(doe);
    var y := YearOfEra(doe);
    EraYearLength(y);
    LeapInTheEra(era, y + 1);
    assert era * 400 + (y + 1) == (era * 400 + y) + 1;
    assert y == 399 ==> YearStart(y) == 145731;
    OfYearIsValid(era * 400 + y, doe - YearStart(y));
  }

  lemma EpochIsDayZero()
    ensures CivilFromDays(0) == EPOCH
  {
    assert Era(719468) == 4;
    assert YearOfEra(135080) == 369;
  }

  /** The closed form is the calendar, on every day before and after 1970. */
  lemma {:induction false} CivilIsTheCalendar(n: int)
    ensures CivilFromDays(n) == DateOfDay(n) && ValidDate(DateOfDay(n))
    decreases if n < 0 then -n else n
  {
    hide CivilFromDays, Next, Previous, MonthLength;
    CivilIsValid(n);
    if n == 0 {
      EpochIsDayZero();
    } else if n > 0 {
      CivilIsTheCalendar(n - 1);
      CivilOfTheDayAfter(n - 1);
    } else {
      CivilIsTheCalendar(n + 1);
      CivilOfTheDayAfter(n);
      NextOfPrevious(CivilFromDays(n));
    }
  }

  // ---------- The day number of a date ----------

  function YearLength(y: int): int {
    if Leap(y) then 366 else 365
  }

  /** Days from 1970-01-01 to the first of January of year `y`. */
  function DaysToYear(y: int): int
    decreases if y < 1970 then 1970 - y else y - 1970
  {
    if y == 1970 then 0
    else if y > 1970 then DaysToYear(y - 1) + YearLength(y - 1)
    else DaysToYear(y + 1) - YearLength(y)
  }

  function DaysToMonth(y: int, m: int): int
    requires 1 <= m
  {
    if m == 1 then 0 else DaysToMonth(y, m - 1) + MonthLength(y, m - 1)
  }

  /** The number of a date, counted by whole years, months and days. */
  function DayNumber(d: Date): int
    requires ValidDate(d)
  {
    DaysToYear(d.year) + DaysToMonth(d.year, d.month) + d.day - 1
  }

  lemma TwelveMonthsAreAYear(y: int)
    ensures DaysToMonth(y, 12) + 31 == YearLength(y)
  {
    var february := MonthLength(y, 2);
    assert DaysToMonth(y, 2) == 31;
    assert DaysToMonth(y, 3) == february + 31;
    assert DaysToMonth(y, 4) == february + 62;
    assert DaysToMonth(y, 5) == february + 92;
    assert DaysToMonth(y, 6) == february + 123;
    assert DaysToMonth(y, 7) == february + 153;
    assert DaysToMonth(y, 8) == february + 184;
    assert DaysToMonth(y, 9) == february + 215;
    assert DaysToMonth(y, 10) == february + 245;
    assert DaysToMonth(y, 11) == february + 276;
  }

  lemma NumberOfNext(d: Date)
    requires ValidDate(d)
    ensures ValidDate(Next(d)) && DayNumber(Next(d)) == DayNumber(d) + 1
  {
    NextOfPrevious(d);
    TwelveMonthsAreAYear(d.year);
    assert DaysToYear(d.year + 1) == DaysToYear(d.year) + YearLength(d.year);
  }

  lemma {:induction false} CalendarDayHasItsNumber(n: int)
    ensures ValidDate(DateOfDay(n)) && DayNumber(DateOfDay(n)) == n
    decreases if n < 0 then -n else n
  {
    CivilIsTheCalendar(n);
    if n > 0 {
      CalendarDayHasItsNumber(n - 1);
      NumberOfNext(DateOfDay(n - 1));
    } else if n < 0 {
      CalendarDayHasItsNumber(n + 1);
      NextOfPrevious(DateOfDay(n + 1));
      NumberOfNext(DateOfDay(n));
    }
  }

  lemma {:induction false} YearsAwayFrom1970(y: int)
    ensures y > 1970 ==> DaysToYear(y) >= 365
    ensures y < 1970 ==> DaysToYear(y) <= -YearLength(y)
    decreases if y < 1970 then 1970 - y else y - 1970
  {
    if y > 1970 {
      YearsAwayFrom1970(y - 1);
    } else if y < 1970 {
      YearsAwayFrom1970(y + 1);
    }
  }

  lemma {:induction false} MonthsWithinTheYear(y: int, m: int)
    requires 1 <= m <= 12
    ensures 0 <= DaysToMonth(y, m) <= YearLength(y) - MonthLength(y, m)
    ensures m > 1 ==> DaysToMonth(y, m) > 0
    decreases 12 - m
  {
    if m == 12 {
      TwelveMonthsAreAYear(y);
    } else {
      MonthsWithinTheYear(y, m + 1);
      MonthStartsForward(y, m);
    }
  }

  lemma {:induction false} MonthStartsForward(y: int, m: int)
    requires 1 <= m
    ensures DaysToMonth(y, m) >= 0
    ensures m > 1 ==> DaysToMonth(y, m) > 0
  {
    if m > 1 {
      MonthStartsForward(y, m - 1);
    }
  }

  lemma DayZeroIsTheEpoch(d: Date)
    requires ValidDate(d) && DayNumber(d) == 0
    ensures d == EPOCH
  {
    YearsAwayFrom1970(d.year);
    MonthsWithinTheYear(d.year, d.month);
  }

  lemma {:induction false} NumberedDayIsTheDate(d: Date)
    requires ValidDate(d)
    ensures DateOfDay(DayNumber(d)) == d
    decreases if DayNumber(d) < 0 then -DayNumber(d) else DayNumber(d)
  {
    var n := DayNumber(d);
    NextOfPrevious(d);
    NumberOfNext(d);
    NumberOfNext(Previous(d));
    if n > 0 {
      NumberedDayIsTheDate(Previous(d));
    } else if n < 0 {
      NumberedDayIsTheDate(Next(d));
    } else {
      DayZeroIsTheEpoch(d);
    }
  }

  /** The closed form and the day number undo each other: every valid date is the civil date of
      exactly one day. */
  lemma CivilRoundTrip(days: int, d: Date)
    requires ValidDate(d)
    ensures ValidDate(CivilFromDays(days)) && DayNumber(CivilFromDays(days)) == days
    ensures CivilFromDays(DayNumber(d)) == d
  {
    CivilIsTheCalendar(days);
    CalendarDayHasItsNumber(days);
    CivilIsTheCalendar(DayNumber(d));
    NumberedDayIsTheDate(d);
  }

  predicate ValidStamp(s: Stamp) {
    ValidDate(s.date) && 0 <= s.hour < 24 && 0 <= s.minute < 60
  }

  /** The minutes from the start of 1970 to a stamp. */
  function MinutesTo(s: Stamp): int
    requires ValidStamp(s)
  {
    (DayNumber(s.date) * 24 + s.hour) * 60 + s.minute
  }

  /** Date, hour and minute rebuild the time floored to its minute, before 1970 as after. */
  lemma StampRebuildsTheTime(ms: int)
    ensures ValidStamp(StampOf(ms))
    ensures MinutesTo(StampOf(ms)) == ms / 60000
  {
    hide CivilFromDays, DayNumber, MonthLength;
    var days := ms / 1000 / 86400;
    CivilIsValid(days);
    CivilRoundTrip(days, CivilFromDays(days));
  }

  // ---------- The text ----------

  function DigitChar(d: nat): char
    requires d < 10
  {
    '0' + d as char
  }

  /** The decimal digits of a number, without leading zeros. */
  function Digits(n: nat): string {
    if n < 10 then [DigitChar(n)] else Digits(n / 10) + [DigitChar(n % 10)]
  }

  function Zeros(n: nat): string {
    if n == 0 then "" else "0" + Zeros(n - 1)
  }

  /** Rust's `{:0width}`: zeros up to the width, after the sign, which counts in it. */
  function Padded(n: int, width: nat): string {
    var sign := if n < 0 then "-" else "";
    var digits := Digits(if n < 0 then -n else n);
    var used := |sign| + |digits|;
    sign + Zeros(if used < width then width - used else 0) + digits
  }

  function Text(s: Stamp): string {
    Padded(s.date.year, 4) + "-" + Padded(s.date.month, 2) + "-" + Padded(s.date.day, 2)
      + " " + Padded(s.hour, 2) + ":" + Padded(s.minute, 2)
  }

  /** `fmt_datetime`. */
  function FmtDateTime(ms: int): string {
    Text(StampOf(ms))
  }

  /** The number a run of digit characters spells. */
  function Spelled(s: string): int {
    if s == "" then 0 else Spelled(s[..|s| - 1]) * 10 + (s[|s| - 1] as int - '0' as int)
  }

  function SpelledSigned(s: string): int {
    if s != "" && s[0] == '-' then -Spelled(s[1..]) else Spelled(s)
  }

  /** Reads a text back by its fixed tail: `-MM-DD HH:MM` is twelve characters long. */
  function Read(t: string): Stamp
    requires |t| >= 12
  {
    var n := |t|;
    Stamp(Date(SpelledSigned(t[..n - 12]), Spelled(t[n - 11..n - 9]), Spelled(t[n - 8..n - 6])),
          Spelled(t[n - 5..n - 3]), Spelled(t[n - 2..]))
  }

  lemma {:induction false} DigitsSpellTheirNumber(n: nat)
    ensures Spelled(Digits(n)) == n && |Digits(n)| >= 1
    ensures '0' <= Digits(n)[0] <= '9'
  {
    if n >= 10 {
      DigitsSpellTheirNumber(n / 10);
      assert Digits(n)[..|Digits(n)| - 1] == Digits(n / 10);
    } else {
      assert Digits(n)[..0] == "";
    }
  }

  lemma {:induction false} ZerosAreZeros(k: nat)
    ensures |Zeros(k)| == k
    ensures forall i :: 0 <= i < k ==> Zeros(k)[i] == '0'
  {
    if k > 0 {
      ZerosAreZeros(k - 1);
    }
  }

  lemma {:induction false} ZerosSpellNothing(k: nat, s: string)
    ensures Spelled(Zeros(k) + s) == Spelled(s)
    decreases |s|, k
  {
    ZerosAreZeros(k);
    var whole := Zeros(k) + s;
    if s != "" {
      ZerosSpellNothing(k, s[..|s| - 1]);
      assert whole[..|whole| - 1] == Zeros(k) + s[..|s| - 1];
    } else if k > 0 {
      ZerosSpellNothing(k - 1, s);
      ZerosAreZeros(k - 1);
      assert whole[..|whole| - 1] == Zeros(k - 1) + s;
    } else {
      assert whole == s;
    }
  }

  lemma PaddedSpellsItsNumber(n: int, width: nat)
    ensures SpelledSigned(Padded(n, width)) == n
    ensures n >= 0 ==> Spelled(Padded(n, width)) == n
  {
    hide Digits, Zeros, Spelled;
    var digits := Digits(if n < 0 then -n else n);
    DigitsSpellTheirNumber(if n < 0 then -n else n);
    var used := |digits| + (if n < 0 then 1 else 0);
    var k := if used < width then width - used else 0;
    ZerosAreZeros(k);
    ZerosSpellNothing(k, digits);
    if n < 0 {
      assert Padded(n, width)[1..] == Zeros(k) + digits;
    } else {
      assert Padded(n, width) == Zeros(k) + digits;
    }
  }

  lemma TwoPlaces(n: nat)
    requires n < 100
    ensures |Padded(n, 2)| == 2
  {
    assert Zeros(1) == "0" + Zeros(0);
    assert |Digits(n)| == if n < 10 then 1 else 2;
  }

  lemma TextReadsBack(s: Stamp)
    requires ValidStamp(s)
    ensures |Text(s)| >= 12 && Read(Text(s)) == s
  {
    hide Padded, Spelled;
    assert s.date.day < 100;
    PaddedSpellsItsNumber(s.date.year, 4);
    PaddedSpellsItsNumber(s.date.month, 2);
    TwoPlaces(s.date.month);
    PaddedSpellsItsNumber(s.date.day, 2);
    TwoPlaces(s.date.day);
    PaddedSpellsItsNumber(s.hour, 2);
    TwoPlaces(s.hour);
    PaddedSpellsItsNumber(s.minute, 2);
    TwoPlaces(s.minute);
    var t := Text(s);
    var n := |t|;
    assert t[..n - 12] == Padded(s.date.year, 4);
    assert t[n - 11..n - 9] == Padded(s.date.month, 2);
    assert t[n - 8..n - 6] == Padded(s.date.day, 2);
    assert t[n - 5..n - 3] == Padded(s.hour, 2);
    assert t[n - 2..] == Padded(s.minute, 2);
  }

  predicate IsDigit(c: char) {
    '0' <= c <= '9'
  }

  lemma {:induction false} DigitsAreDigits(n: nat)
    ensures forall i :: 0 <= i < |Digits(n)| ==> IsDigit(Digits(n)[i])
    ensures n < 10000 ==> |Digits(n)| <= 4
  {
    if n >= 10 {
      DigitsAreDigits(n / 10);
    }
    if n < 10000 {
      FewDigits(n);
    }
  }

  lemma FewDigits(n: nat)
    requires n < 10000
    ensures |Digits(n)| <= 4
  {
    assert |Digits(n / 10 / 10 / 10)| == 1;
    assert |Digits(n / 10 / 10)| <= 2;
    assert |Digits(n / 10)| <= 3;
  }

  lemma PaddedShape(n: int, width: nat)
    ensures |Padded(n, width)| >= width
    ensures forall i :: 0 <= i < |Padded(n, width)| ==>
              IsDigit(Padded(n, width)[i]) || (i == 0 && n < 0 && Padded(n, width)[i] == '-')
    ensures 0 <= n < 10000 && width == 4 ==> |Padded(n, width)| == 4
  {
    hide Digits, Zeros;
    var digits := Digits(if n < 0 then -n else n);
    DigitsAreDigits(if n < 0 then -n else n);
    var used := |digits| + (if n < 0 then 1 else 0);
    ZerosAreZeros(if used < width then width - used else 0);
  }

  /** `YYYY-MM-DD HH:MM`: four digits of the year, more where the year has more and with a sign before one below zero,
      and two of everything else, apart by a dash, a dash, a space and a colon. */
  lemma TextHasItsShape(ms: int)
    ensures var t := FmtDateTime(ms);
            var n := |t|;
            && n >= 16 && (0 <= StampOf(ms).date.year <= 9999 ==> n == 16)
            && t[n - 12] == '-' && t[n - 9] == '-' && t[n - 6] == ' ' && t[n - 3] == ':'
            && (forall i :: 0 <= i < n && i != n - 12 && i != n - 9 && i != n - 6 && i != n - 3 ==>
                  IsDigit(t[i]) || (i == 0 && StampOf(ms).date.year < 0 && t[i] == '-'))
  {
    hide Padded, StampOf, ValidStamp;
    var s := StampOf(ms);
    PartsAreShort(ms);
    PaddedShape(s.date.year, 4);
    PaddedShape(s.date.month, 2);
    PaddedShape(s.date.day, 2);
    PaddedShape(s.hour, 2);
    PaddedShape(s.minute, 2);
    TwoPlaces(s.date.month);
    TwoPlaces(s.date.day);
    TwoPlaces(s.hour);
    TwoPlaces(s.minute);
  }

  lemma PartsAreShort(ms: int)
    ensures var s := StampOf(ms);
            0 <= s.date.month < 100 && 0 <= s.date.day < 100 && 0 <= s.hour < 100 && 0 <= s.minute < 100
  {
    hide StampOf, CivilFromDays;
    StampRebuildsTheTime(ms);
  }

  /** The printed text is read back as the very minute, so two records print alike exactly when
      they fall in the same minute. */
  lemma TextTellsTheMinute(a: int, b: int)
    ensures |FmtDateTime(a)| >= 12 && ValidStamp(Read(FmtDateTime(a)))
    ensures MinutesTo(Read(FmtDateTime(a))) == a / 60000
    ensures FmtDateTime(a) == FmtDateTime(b) <==> a / 60000 == b / 60000
  {
    hide Text, Read, CivilFromDays, DayNumber, MonthLength, MinutesTo;
    StampRebuildsTheTime(a);
    StampRebuildsTheTime(b);
    TextReadsBack(StampOf(a));
    TextReadsBack(StampOf(b));
    if a / 60000 == b / 60000 {
      SameMinuteSameStamp(a, b);
    }
  }

  lemma SameMinuteSameStamp(a: int, b: int)
    requires a / 60000 == b / 60000
    ensures StampOf(a) == StampOf(b)
  {
    hide CivilFromDays;
    assert a / 1000 / 86400 == a / 60000 / 1440;
    assert b / 1000 / 86400 == b / 60000 / 1440;
    assert a / 1000 / 60 == a / 60000;
    assert b / 1000 / 60 == b / 60000;
  }
}
