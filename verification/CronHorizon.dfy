/**
 How far the scan for the next fire must look (`cron.rs`): exactly when 366 days are
 enough, for every schedule an expression can name.
 */
module CronHorizon {
  import opened Common
  import opened Text
  import opened Calendar
  import opened CronScan
  import opened CronParser

  /** Each field allows some value the calendar has, and a bare star allows them all. */
  ghost predicate Sensible(s: CronSchedule) {
    && (exists minute :: minute in s.minutes && 0 <= minute < 60)
    && (exists hour :: hour in s.hours && 0 <= hour < 24)
    && (exists m :: m in s.months && 1 <= m <= 12)
    && (exists w :: w in s.dow && 0 <= w < 7)
    && (!s.domRestricted ==> forall d :: 1 <= d <= 31 ==> d in s.dom)
    && (!s.dowRestricted ==> forall w :: 0 <= w < 7 ==> w in s.dow)
  }

  /** Some allowed month has an allowed day that exists in every year. */
  ghost predicate NamesYearlyDate(s: CronSchedule) {
    exists m, d :: m in s.months && d in s.dom && 1 <= m <= 12 && 1 <= d <= MonthLength(1970, m)
  }

  /** The first day of the month, counted from the epoch. */
  function FirstOfMonth(y: int, m: int): int
    requires 1 <= m <= 12
  {
    DayNumber(Date(y, m, 1))
  }

  /** The first four weeks of a month lie in that month. */
  lemma InMonth(y: int, m: int, k: int)
    requires 1 <= m <= 12 && 0 <= k < 28
    ensures DateOf(FirstOfMonth(y, m) + k) == Date(y, m, k + 1)
  {
    hide DaysBeforeYear, DaysBeforeMonth, DateOf;
    DateOfDayNumber(Date(y, m, k + 1));
  }

  /** A schedule that names weekdays fires on any allowed weekday of an allowed month. */
  lemma WeekdayFires(s: CronSchedule, n: int, hour: int, minute: int)
    requires Sensible(s) && s.dowRestricted && DateOf(n).month in s.months && (n + 4) % 7 in s.dow
    requires hour in s.hours && 0 <= hour < 24 && minute in s.minutes && 0 <= minute < 60
    ensures Fires(s, InstantOf(n, hour, minute, 0))
  {
    hide DateOf, DayOf, HourOf, MinuteOf, InstantOf;
    InstantFields(n, hour, minute, 0);
    WholeMinute(n, hour, minute);
    assert 1 <= DateOf(n).day <= 31;
  }

  /** Any seven days in a row hold every weekday. */
  function WeekdayFrom(start: int, w: int): (n: int)
    requires 0 <= w < 7
    ensures start <= n < start + 7 && (n + 4) % 7 == w
  {
    start + (w - 4 - start) % 7
  }

  /** The last first of the month on or before a day. */
  lemma MonthBegun(m: int, day: int) returns (y: int)
    requires 1 <= m <= 12
    ensures FirstOfMonth(y, m) <= day < FirstOfMonth(y + 1, m) <= FirstOfMonth(y, m) + 366
  {
    hide DateOf;
    var today := DateOf(day);
    YearlyGap(today.year - 1, m, 1);
    EarlierYear(Date(today.year - 1, m, 1), today);
    y := MonthBegunFrom(m, day, today.year - 1);
  }

  lemma MonthBegunFrom(m: int, day: int, from: int) returns (y: int)
    requires 1 <= m <= 12 && FirstOfMonth(from, m) <= day
    ensures FirstOfMonth(y, m) <= day < FirstOfMonth(y + 1, m) <= FirstOfMonth(y, m) + 366
    decreases day - FirstOfMonth(from, m)
  {
    hide DayNumber;
    YearlyGap(from, m, 1);
    y := from;
    if FirstOfMonth(from + 1, m) <= day { y := MonthBegunFrom(m, day, from + 1); }
  }

  /** After any day and within 365 of it there is one of the month and weekday. */
  lemma WeekdayAhead(m: int, w: int, day: int) returns (n: int)
    requires 1 <= m <= 12 && 0 <= w < 7
    ensures day < n <= day + 365 && (n + 4) % 7 == w && DateOf(n).month == m
  {
    hide DateOf, FirstOfMonth;
    var y := MonthBegun(m, day);
    if day < FirstOfMonth(y, m) + 7 {
      n := WeekdayFrom(day + 1, w);
      InMonth(y, m, n - FirstOfMonth(y, m));
    } else {
      n := WeekdayFrom(FirstOfMonth(y + 1, m), w);
      InMonth(y + 1, m, n - FirstOfMonth(y + 1, m));
    }
  }

  lemma WithinTheScan(afterMs: int, n: int, hour: int, minute: int)
    requires DayOf(afterMs) < n <= DayOf(afterMs) + 365 && 0 <= hour < 24 && 0 <= minute < 60
    ensures afterMs < InstantOf(n, hour, minute, 0) <= FloorToMinute(afterMs) + SCAN_HORIZON_MS
  {
    var t := FloorToMinute(afterMs);
    assert DayOf(afterMs) * DAY_MS <= t <= afterMs < (DayOf(afterMs) + 1) * DAY_MS by {
      assert t / DAY_MS == afterMs / DAY_MS by { SameDay(afterMs); }
    }
    assert n * DAY_MS <= InstantOf(n, hour, minute, 0) < (n + 1) * DAY_MS;
  }

  lemma SameDay(ms: int)
    ensures FloorToMinute(ms) / DAY_MS == ms / DAY_MS && FloorToMinute(ms) <= ms
  {
    assert ms / DAY_MS == ms / MINUTE_MS / 1440;
    assert FloorToMinute(ms) / MINUTE_MS == ms / MINUTE_MS;
    assert FloorToMinute(ms) / DAY_MS == FloorToMinute(ms) / MINUTE_MS / 1440;
  }

  /** A schedule that names weekdays always has a next fire. */
  lemma WeekdaysAlwaysFire(s: CronSchedule, afterMs: int)
    requires Sensible(s) && s.dowRestricted
    ensures NextCronFire(s, afterMs).Some?
  {
    hide *;
    SensibleParts(s);
    var minute :| minute in s.minutes && 0 <= minute < 60;
    var hour :| hour in s.hours && 0 <= hour < 24;
    var m :| m in s.months && 1 <= m <= 12;
    var w :| w in s.dow && 0 <= w < 7;
    var n := WeekdayAhead(m, w, DayOf(afterMs));
    WeekdayFires(s, n, hour, minute);
    WithinTheScan(afterMs, n, hour, minute);
    NextCronFireIsLeast(s, afterMs);
  }

  lemma SensibleParts(s: CronSchedule)
    requires Sensible(s)
    ensures exists minute :: minute in s.minutes && 0 <= minute < 60
    ensures exists hour :: hour in s.hours && 0 <= hour < 24
    ensures exists m :: m in s.months && 1 <= m <= 12
    ensures exists w :: w in s.dow && 0 <= w < 7
  {
  }

  /** Without named weekdays and without a yearly date, only 29 February is left. */
  lemma OnlyLeapDays(s: CronSchedule, t: int)
    requires Sensible(s) && !s.dowRestricted && !NamesYearlyDate(s) && Fires(s, t)
    ensures OnLeapDay(t)
  {
    hide DateOf, DayOf, HourOf, MinuteOf, WeekdayOf;
    assert t / MINUTE_MS * MINUTE_MS == t;
    var d := DateOf(DayOf(t));
    assert d.month in s.months && d.day in s.dom;
    assert ValidDate(d);
  }

  const NEW_YEAR_2026 := 1_767_225_600_000

  lemma NewYear2026()
    ensures DateOf(DayOf(NEW_YEAR_2026)).year == 2026
  {
    hide DateOf;
    var d := Date(2026, 1, 1);
    assert DayNumber(d) == DayOf(NEW_YEAR_2026);
    DateOfDayNumber(d);
  }

  /**
   The 366-day horizon is long enough for a schedule if and only if it names weekdays or
   admits a date that exists in every year.
   */
  lemma HorizonSufficesIff(s: CronSchedule)
    requires Sensible(s)
    ensures (forall t :: NextCronFire(s, t).Some?) <==> s.dowRestricted || NamesYearlyDate(s)
  {
    hide *;
    if s.dowRestricted {
      forall t ensures NextCronFire(s, t).Some? { WeekdaysAlwaysFire(s, t); }
    } else if NamesYearlyDate(s) {
      forall t ensures NextCronFire(s, t).Some? { YearlyDatesFire(s, t); }
    } else {
      NextCronFireIsLeast(s, NEW_YEAR_2026);
      NewYear2026();
      WithinHorizon(NEW_YEAR_2026);
      var r := NextCronFire(s, NEW_YEAR_2026);
      if r.Some? {
        OnlyLeapDays(s, r.value);
        NoLeapDayWithinAYear(NEW_YEAR_2026, r.value);
      }
    }
  }

  lemma YearlyDatesFire(s: CronSchedule, t: int)
    requires Sensible(s) && !s.dowRestricted && NamesYearlyDate(s)
    ensures NextCronFire(s, t).Some?
  {
    hide NextCronFire;
    var minute :| minute in s.minutes && 0 <= minute < 60;
    var hour :| hour in s.hours && 0 <= hour < 24;
    var m, d :| m in s.months && d in s.dom && 1 <= m <= 12 && 1 <= d <= MonthLength(1970, m);
    assert AdmitsYearlyDate(s, m, d);
    HorizonSuffices(s, m, d, hour, minute, t);
  }

  // ---- every expression names a sensible schedule ----

  /** A field that parses allows one of its own values, and a bare star all of them. */
  lemma FieldAllows(field: string, spec: FieldSpec)
    requires IsSpec(spec) && ParseField(field, spec).Some?
    ensures exists v :: v in ParseField(field, spec).value.values && spec.min <= v <= spec.max
    ensures ParseField(field, spec).value.restricted <==> field != "*"
    ensures field == "*" ==> forall v :: spec.min <= v <= spec.max ==> v in ParseField(field, spec).value.values
  {
    hide ItemBounds, Split;
    var values := ParseField(field, spec).value.values;
    if field == "*" {
      assert spec.min in values;
    } else {
      var items := Split(field, ',');
      var b := ItemBounds(items[|items| - 1], spec).value;
      LowIsExpanded(b);
      assert b.lo in values;
    }
  }

  lemma LowIsExpanded(b: Bounds)
    requires ValidBounds(b)
    ensures b.lo in SetOf(Expand(b))
  {
    assert Expand(b)[0] == b.lo;
  }

  lemma FoldedWeekday(values: set<int>, v: int)
    requires v in values && 0 <= v <= 7
    ensures exists w :: w in FoldSunday(values) && 0 <= w < 7
  {
    assert (if v == 7 then 0 else v) in FoldSunday(values);
  }

  lemma AllWeekdays(values: set<int>)
    requires forall v :: 0 <= v <= 7 ==> v in values
    ensures forall w :: 0 <= w < 7 ==> w in FoldSunday(values)
  {
    forall w | 0 <= w < 7 ensures w in FoldSunday(values) { assert w in values; }
  }

  /** Whatever an expression names is sensible, and only a bare star leaves a day field unrestricted. */
  lemma ParsedIsSensible(expr: string, s: CronSchedule)
    requires ParseCronExpression(expr) == Some(s)
    ensures Sensible(s) && |Words(expr)| == 5
    ensures (s.domRestricted <==> Words(expr)[2] != "*") && (s.dowRestricted <==> Words(expr)[4] != "*")
  {
    hide ParseField, Words, FoldSunday;
    var fields := Words(expr);
    FieldAllows(fields[0], MINUTE);
    FieldAllows(fields[1], HOUR);
    FieldAllows(fields[2], DAY_OF_MONTH);
    FieldAllows(fields[3], MONTH);
    FieldAllows(fields[4], DAY_OF_WEEK);
    var dow := ParseField(fields[4], DAY_OF_WEEK).value.values;
    var v :| v in dow && 0 <= v <= 7;
    FoldedWeekday(dow, v);
    if fields[4] == "*" { AllWeekdays(dow); }
  }

  /**
   A scheduled expression has a next fire from every instant if and only if its weekday
   field is not a bare star or some allowed month has an allowed day that every year has.
   What an expression with an overflowing step expands to makes no difference.
   */
  lemma ExpressionHorizonIff(expr: string, s: CronSchedule)
    requires ParseCronExpression(expr) == Some(s)
    ensures (forall t :: NextCronFire(s, t).Some?) <==> Words(expr)[4] != "*" || NamesYearlyDate(s)
  {
    hide *;
    ParsedIsSensible(expr, s);
    HorizonSufficesIff(s);
  }
}
