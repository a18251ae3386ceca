/**
 The proleptic Gregorian calendar in UTC, as the agent reads it through its date
 library: instants are milliseconds since 1970-01-01T00:00:00Z, and a calendar date
 is recovered by searching for the year and month that contain a day number.
 */
module Calendar {

  const MINUTE_MS := 60_000
  const HOUR_MS := 3_600_000
  const DAY_MS := 86_400_000

  /** Days from 0001-01-01 to 1970-01-01. */
  const EPOCH_DAY := 719_162

  datatype Date = Date(year: int, month: int, day: int)

  predicate IsLeap(y: int) {
    y % 4 == 0 && (y % 100 != 0 || y % 400 == 0)
  }

  /** Days from 0001-01-01 to the first of January of year `y`. */
  function DaysBeforeYear(y: int): int {
    365 * (y - 1) + (y - 1) / 4 - (y - 1) / 100 + (y - 1) / 400
  }

  function YearLength(y: int): (n: int)
    ensures 365 <= n <= 366
  {
    if IsLeap(y) then 366 else 365
  }

  function MonthLength(y: int, m: int): (n: int)
    requires 1 <= m <= 12
    ensures 28 <= n <= 31
  {
    if m == 2 then (if IsLeap(y) then 29 else 28)
    else if m == 4 || m == 6 || m == 9 || m == 11 then 30
    else 31
  }

  /** Days from the first of January of year `y` to the first of month `m`. */
  function DaysBeforeMonth(y: int, m: int): (n: int)
    requires 1 <= m <= 13
    ensures 28 * (m - 1) <= n <= 31 * (m - 1)
    decreases m
  {
    if m == 1 then 0 else DaysBeforeMonth(y, m - 1) + MonthLength(y, m - 1)
  }

  predicate ValidDate(d: Date) {
    1 <= d.month <= 12 && 1 <= d.day <= MonthLength(d.year, d.month)
  }

  /** The day number, counted from 1970-01-01, of a date. */
  function DayNumber(d: Date): int
    requires 1 <= d.month <= 12
  {
    DaysBeforeYear(d.year) + DaysBeforeMonth(d.year, d.month) + d.day - 1 - EPOCH_DAY
  }

  lemma NextYear(y: int)
    ensures DaysBeforeYear(y + 1) == DaysBeforeYear(y) + YearLength(y)
  {
    hide YearLength;
    EveryFourth(y);
    EveryHundredth(y);
    EveryFourHundredth(y);
    LeapRule(y);
  }

  lemma EveryFourth(y: int)
    ensures y / 4 == (y - 1) / 4 + (if y % 4 == 0 then 1 else 0)
  {
  }

  lemma EveryHundredth(y: int)
    ensures y / 100 == (y - 1) / 100 + (if y % 100 == 0 then 1 else 0)
  {
  }

  lemma EveryFourHundredth(y: int)
    ensures y / 400 == (y - 1) / 400 + (if y % 400 == 0 then 1 else 0)
  {
  }

  lemma LeapRule(y: int)
    ensures YearLength(y) == 365 + (if y % 4 == 0 then 1 else 0) - (if y % 100 == 0 then 1 else 0) + (if y % 400 == 0 then 1 else 0)
  {
    if y % 100 == 0 { FourDivides(y, 25 * (y / 100)); }
    if y % 400 == 0 { HundredDivides(y, 4 * (y / 400)); }
  }

  lemma FourDivides(y: int, q: int)
    requires y == 4 * q
    ensures y % 4 == 0
  {
  }

  lemma HundredDivides(y: int, q: int)
    requires y == 100 * q
    ensures y % 100 == 0
  {
  }

  lemma {:induction false} YearsApart(y: int, k: nat)
    ensures DaysBeforeYear(y + k) >= DaysBeforeYear(y) + 365 * k
    decreases k
  {
    if k > 0 {
      YearsApart(y, k - 1);
      NextYear(y + k - 1);
    }
  }

  lemma TwelveMonths(y: int)
    ensures DaysBeforeMonth(y, 13) == YearLength(y)
  {
    assert DaysBeforeMonth(y, 5) == DaysBeforeMonth(y, 3) + 61;
    assert DaysBeforeMonth(y, 9) == DaysBeforeMonth(y, 5) + 123;
    assert DaysBeforeMonth(y, 13) == DaysBeforeMonth(y, 9) + 122;
  }

  lemma {:induction false} MonthsOrdered(y: int, m: int, k: int)
    requires 1 <= m <= k <= 13
    ensures DaysBeforeMonth(y, m) <= DaysBeforeMonth(y, k)
    decreases k
  {
    if m < k { MonthsOrdered(y, m, k - 1); }
  }

  /** The year holding day `o` (counted from 0001-01-01), searching from `y`. */
  function YearFrom(o: int, y: int): (r: int)
    ensures DaysBeforeYear(r) <= o < DaysBeforeYear(r + 1)
    decreases if o < DaysBeforeYear(y) then DaysBeforeYear(y) - o
              else if o >= DaysBeforeYear(y + 1) then o - DaysBeforeYear(y)
              else 0
  {
    NextYear(y);
    NextYear(y - 1);
    if o < DaysBeforeYear(y) then YearFrom(o, y - 1)
    else if o >= DaysBeforeYear(y + 1) then YearFrom(o, y + 1)
    else y
  }

  /** The month holding day `doy` of year `y`, searching down from `m`. */
  function MonthFrom(y: int, doy: int, m: int): (r: int)
    requires 1 <= m <= 12
    requires 0 <= doy < DaysBeforeMonth(y, m + 1)
    ensures 1 <= r <= m
    ensures DaysBeforeMonth(y, r) <= doy < DaysBeforeMonth(y, r + 1)
    decreases m
  {
    if DaysBeforeMonth(y, m) <= doy then m else MonthFrom(y, doy, m - 1)
  }

  /** The date of day number `n`. */
  function DateOf(n: int): (d: Date)
    ensures ValidDate(d)
    ensures DayNumber(d) == n
  {
    var o := n + EPOCH_DAY;
    var y := YearFrom(o, 1970);
    var doy := o - DaysBeforeYear(y);
    NextYear(y);
    TwelveMonths(y);
    var m := MonthFrom(y, doy, 12);
    Date(y, m, doy - DaysBeforeMonth(y, m) + 1)
  }

  /** A day number names one date only: `DateOf` inverts `DayNumber` on real dates. */
  lemma DayNumberInjective(a: Date, b: Date)
    requires ValidDate(a) && ValidDate(b)
    requires DayNumber(a) == DayNumber(b)
    ensures a == b
  {
    EarlierYear(a, b);
    EarlierYear(b, a);
    EarlierMonth(a, b);
    EarlierMonth(b, a);
  }

  lemma EarlierYear(a: Date, b: Date)
    requires ValidDate(a) && ValidDate(b)
    ensures a.year < b.year ==> DayNumber(a) < DayNumber(b)
  {
    YearBounds(a);
    YearBounds(b);
    if a.year < b.year {
      YearsApart(a.year + 1, b.year - (a.year + 1));
    }
  }

  lemma EarlierMonth(a: Date, b: Date)
    requires ValidDate(a) && ValidDate(b)
    requires a.year == b.year
    ensures a.month < b.month ==> DayNumber(a) < DayNumber(b)
  {
    if a.month < b.month {
      MonthsOrdered(a.year, a.month + 1, b.month);
    }
  }

  lemma YearBounds(d: Date)
    requires ValidDate(d)
    ensures DaysBeforeYear(d.year) <= DayNumber(d) + EPOCH_DAY < DaysBeforeYear(d.year + 1)
  {
    NextYear(d.year);
    TwelveMonths(d.year);
    MonthsOrdered(d.year, d.month + 1, 13);
  }

  lemma DateOfDayNumber(d: Date)
    requires ValidDate(d)
    ensures DateOf(DayNumber(d)) == d
  {
    DayNumberInjective(DateOf(DayNumber(d)), d);
  }

  /**
   A month and day that exist in every year come round at most 366 days later: the
   fact that makes a 366-day scan long enough.
   */
  lemma {:induction false} YearlyGap(y: int, m: int, d: int)
    requires 1 <= m <= 12 && 1 <= d <= MonthLength(1970, m)
    ensures ValidDate(Date(y, m, d)) && ValidDate(Date(y + 1, m, d))
    ensures 365 <= DayNumber(Date(y + 1, m, d)) - DayNumber(Date(y, m, d)) <= 366
  {
    hide *;
    NextYear(y);
    MonthShift(y, m);
    MonthShift(y + 1, m);
    LeapsApart(y);
    DateIs(y, m, d);
    DateIs(y + 1, m, d);
  }

  lemma LeapsApart(y: int)
    ensures !(IsLeap(y) && IsLeap(y + 1)) && YearLength(y) == if IsLeap(y) then 366 else 365
  {
  }

  lemma DateIs(y: int, m: int, d: int)
    requires 1 <= m <= 12 && 1 <= d <= MonthLength(1970, m)
    ensures ValidDate(Date(y, m, d)) && DayNumber(Date(y, m, d)) == DaysBeforeYear(y) + DaysBeforeMonth(y, m) + d - 1 - EPOCH_DAY
  {
    hide DaysBeforeYear, DaysBeforeMonth;
    assert !IsLeap(1970);
  }

  lemma {:induction false} MonthShift(y: int, m: int)
    requires 1 <= m <= 13
    ensures DaysBeforeMonth(y, m) == DaysBeforeMonth(1970, m) + (if m > 2 && IsLeap(y) then 1 else 0)
    decreases m
  {
    if m > 1 { MonthShift(y, m - 1); }
  }

  function DayOf(ms: int): int { ms / DAY_MS }
  function HourOf(ms: int): int { ms / HOUR_MS % 24 }
  function MinuteOf(ms: int): int { ms / MINUTE_MS % 60 }
  function SecondOf(ms: int): int { ms / 1000 % 60 }

  /** Days since Sunday; 1970-01-01 was a Thursday. */
  function WeekdayOf(ms: int): int { (DayOf(ms) + 4) % 7 }

  /** The instant a date and time of day name. */
  function InstantOf(day: int, hour: int, minute: int, second: int): int {
    day * DAY_MS + hour * HOUR_MS + minute * MINUTE_MS + second * 1000
  }

  lemma InstantFields(day: int, hour: int, minute: int, second: int)
    requires 0 <= hour < 24 && 0 <= minute < 60 && 0 <= second < 60
    ensures var t := InstantOf(day, hour, minute, second);
            DayOf(t) == day && HourOf(t) == hour && MinuteOf(t) == minute && SecondOf(t) == second
  {
    hide *;
    var t := InstantOf(day, hour, minute, second);
    InstantParts(day, hour, minute, second);
    InstantDay(t, day, hour * HOUR_MS + minute * MINUTE_MS + second * 1000);
    InstantHour(t, day, hour, minute * MINUTE_MS + second * 1000);
    InstantMinute(t, day * 24 + hour, minute, second * 1000);
    InstantSecond(t, (day * 24 + hour) * 60 + minute, second);
  }

  lemma InstantParts(day: int, hour: int, minute: int, second: int)
    requires 0 <= hour < 24 && 0 <= minute < 60 && 0 <= second < 60
    ensures var t := InstantOf(day, hour, minute, second);
            && t == day * DAY_MS + (hour * HOUR_MS + minute * MINUTE_MS + second * 1000)
            && t == (day * 24 + hour) * HOUR_MS + (minute * MINUTE_MS + second * 1000)
            && t == ((day * 24 + hour) * 60 + minute) * MINUTE_MS + second * 1000
            && t == (((day * 24 + hour) * 60 + minute) * 60 + second) * 1000
    ensures 0 <= hour * HOUR_MS + minute * MINUTE_MS + second * 1000 < DAY_MS
    ensures 0 <= minute * MINUTE_MS + second * 1000 < HOUR_MS && 0 <= second * 1000 < MINUTE_MS
  {
  }

  lemma InstantDay(t: int, days: int, rest: int)
    requires t == days * DAY_MS + rest && 0 <= rest < DAY_MS
    ensures DayOf(t) == days
  {
  }

  lemma InstantHour(t: int, days: int, hour: int, rest: int)
    requires 0 <= hour < 24 && t == (days * 24 + hour) * HOUR_MS + rest && 0 <= rest < HOUR_MS
    ensures HourOf(t) == hour
  {
    assert t / HOUR_MS == days * 24 + hour;
  }

  lemma InstantMinute(t: int, hours: int, minute: int, rest: int)
    requires 0 <= minute < 60 && t == (hours * 60 + minute) * MINUTE_MS + rest && 0 <= rest < MINUTE_MS
    ensures MinuteOf(t) == minute
  {
    assert t / MINUTE_MS == hours * 60 + minute;
  }

  lemma InstantSecond(t: int, minutes: int, second: int)
    requires 0 <= second < 60 && t == (minutes * 60 + second) * 1000
    ensures SecondOf(t) == second
  {
    assert t / 1000 == minutes * 60 + second;
  }

  lemma FieldsInstant(t: int)
    ensures InstantOf(DayOf(t), HourOf(t), MinuteOf(t), SecondOf(t)) == t / 1000 * 1000
    ensures 0 <= HourOf(t) < 24 && 0 <= MinuteOf(t) < 60 && 0 <= SecondOf(t) < 60
  {
    var s := t / 1000;
    assert t / MINUTE_MS == s / 60;
    assert t / HOUR_MS == s / 3600;
    assert t / DAY_MS == s / 86_400;
    assert s / 3600 == s / 60 / 60;
    assert s / 86_400 == s / 3600 / 24;
  }
}
