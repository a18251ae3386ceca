/**
 When a schedule fires: matching one UTC minute, and the two bounded scans over
 minutes (`cron.rs`).
 */
module CronScan {
  import opened Common
  import opened Calendar

  datatype CronSchedule = CronSchedule(
    minutes: set<int>, hours: set<int>, dom: set<int>, months: set<int>, dow: set<int>,
    domRestricted: bool, dowRestricted: bool)

  const SCAN_HORIZON_MINUTES := 366 * 24 * 60
  const SCAN_HORIZON_MS := SCAN_HORIZON_MINUTES * MINUTE_MS

  function FloorToMinute(ms: int): int { ms / MINUTE_MS * MINUTE_MS }

  /** True when the UTC minute containing `ms` matches the schedule. */
  predicate MatchesMinute(s: CronSchedule, ms: int) {
    var d := DateOf(DayOf(ms));
    && MinuteOf(ms) in s.minutes
    && HourOf(ms) in s.hours
    && d.month in s.months
    && if s.domRestricted && s.dowRestricted
       then d.day in s.dom || WeekdayOf(ms) in s.dow
       else d.day in s.dom && WeekdayOf(ms) in s.dow
  }

  /** The schedule matches minute number `k`, counted from the epoch. */
  predicate FiresAt(s: CronSchedule, k: int) { MatchesMinute(s, k * MINUTE_MS) }

  /** `t` is a minute boundary at which the schedule fires. */
  predicate Fires(s: CronSchedule, t: int) { t % MINUTE_MS == 0 && FiresAt(s, t / MINUTE_MS) }

  function Boundary(k: Option<int>): Option<int> {
    if k.Some? then Some(k.value * MINUTE_MS) else None
  }

  // ---- the upward scan ----

  /** The first fire at or above minute `k` and below minute `end`. */
  function FirstFire(s: CronSchedule, k: int, end: int): (r: Option<int>)
    ensures r.Some? ==> k <= r.value < end && FiresAt(s, r.value)
    ensures forall u :: k <= u < (if r.Some? then r.value else end) ==> !FiresAt(s, u)
    decreases end - k
  {
    if k >= end then None
    else if FiresAt(s, k) then Some(k)
    else FirstFire(s, k + 1, end)
  }

  function NextCronFire(s: CronSchedule, afterMs: int): Option<int> {
    var k := afterMs / MINUTE_MS + 1;
    Boundary(FirstFire(s, k, k + SCAN_HORIZON_MINUTES))
  }

  /** `next_cron_fire` is the least fire after its argument, if one lies within the horizon. */
  lemma NextCronFireIsLeast(s: CronSchedule, afterMs: int)
    ensures match NextCronFire(s, afterMs)
            case None => forall u :: afterMs < u <= FloorToMinute(afterMs) + SCAN_HORIZON_MS ==> !Fires(s, u)
            case Some(v) =>
              && afterMs < v <= FloorToMinute(afterMs) + SCAN_HORIZON_MS
              && Fires(s, v)
              && forall u :: afterMs < u < v ==> !Fires(s, u)
  {
    hide FiresAt;
    var k := afterMs / MINUTE_MS + 1;
    var r := FirstFire(s, k, k + SCAN_HORIZON_MINUTES);
    forall u | afterMs < u && Fires(s, u)
      ensures u >= if r.Some? then r.value * MINUTE_MS else FloorToMinute(afterMs) + SCAN_HORIZON_MS + 1
    {
      assert u == u / MINUTE_MS * MINUTE_MS;
    }
  }

  method ScanNextCronFire(s: CronSchedule, afterMs: int) returns (r: Option<int>)
    ensures r == NextCronFire(s, afterMs)
  {
    hide MatchesMinute;
    ghost var k := afterMs / MINUTE_MS + 1;
    var t := FloorToMinute(afterMs) + MINUTE_MS;
    for i := 0 to SCAN_HORIZON_MINUTES
      invariant t == (k + i) * MINUTE_MS
      invariant NextCronFire(s, afterMs) == Boundary(FirstFire(s, k + i, k + SCAN_HORIZON_MINUTES))
    {
      if MatchesMinute(s, t) {
        return Some(t);
      }
      t := t + MINUTE_MS;
    }
    return None;
  }

  // ---- the downward scan ----

  /** The last fire at or below minute `k` and above the instant `floor`. */
  function LastFire(s: CronSchedule, k: int, floor: int): (r: Option<int>)
    ensures r.Some? ==> floor < r.value * MINUTE_MS && r.value <= k && FiresAt(s, r.value)
    ensures forall u :: u <= k && floor < u * MINUTE_MS && (r.Some? ==> r.value < u) ==> !FiresAt(s, u)
    decreases k * MINUTE_MS - floor
  {
    if k * MINUTE_MS <= floor then None
    else if FiresAt(s, k) then Some(k)
    else LastFire(s, k - 1, floor)
  }

  function ScanFloor(lastFireMs: int, nowMs: int): int { Max(lastFireMs, nowMs - SCAN_HORIZON_MS) }

  function DueCronFire(s: CronSchedule, lastFireMs: int, nowMs: int): Option<int> {
    Boundary(LastFire(s, nowMs / MINUTE_MS, ScanFloor(lastFireMs, nowMs)))
  }

  /**
   `due_cron_fire` is the greatest fire in (max(last, now - horizon), now]: missed
   fires collapse to the latest, and it never answers at or before the last one.
   */
  lemma DueCronFireIsGreatest(s: CronSchedule, lastFireMs: int, nowMs: int)
    ensures match DueCronFire(s, lastFireMs, nowMs)
            case None => forall u :: ScanFloor(lastFireMs, nowMs) < u <= nowMs ==> !Fires(s, u)
            case Some(v) =>
              && lastFireMs < v <= nowMs
              && nowMs - SCAN_HORIZON_MS < v
              && Fires(s, v)
              && forall u :: v < u <= nowMs ==> !Fires(s, u)
  {
    hide FiresAt;
    var floor := ScanFloor(lastFireMs, nowMs);
    var r := LastFire(s, nowMs / MINUTE_MS, floor);
    forall u | floor < u <= nowMs && Fires(s, u) ensures r.Some? && u <= r.value * MINUTE_MS {
      assert u == u / MINUTE_MS * MINUTE_MS;
    }
  }

  method ScanDueCronFire(s: CronSchedule, lastFireMs: int, nowMs: int) returns (r: Option<int>)
    ensures r == DueCronFire(s, lastFireMs, nowMs)
  {
    hide MatchesMinute;
    var floor := ScanFloor(lastFireMs, nowMs);
    var t := FloorToMinute(nowMs);
    while t > floor
      invariant t % MINUTE_MS == 0
      invariant DueCronFire(s, lastFireMs, nowMs) == Boundary(LastFire(s, t / MINUTE_MS, floor))
    {
      if MatchesMinute(s, t) {
        return Some(t);
      }
      t := t - MINUTE_MS;
    }
    return None;
  }

  // ---- the two scans agree ----

  /**
   While the last fire lies within the horizon, a fire is due exactly when the next
   fire after the last one exists and has been reached.
   */
  lemma DueIffNextReached(s: CronSchedule, lastFireMs: int, nowMs: int)
    requires nowMs - lastFireMs <= SCAN_HORIZON_MS
    ensures DueCronFire(s, lastFireMs, nowMs).Some?
            <==> NextCronFire(s, lastFireMs).Some? && NextCronFire(s, lastFireMs).value <= nowMs
  {
    hide FiresAt, DueCronFire, NextCronFire;
    DueCronFireIsGreatest(s, lastFireMs, nowMs);
    NextCronFireIsLeast(s, lastFireMs);
    var due := DueCronFire(s, lastFireMs, nowMs);
    if due.Some? {
      assert due.value == due.value / MINUTE_MS * MINUTE_MS;
      assert due.value <= FloorToMinute(lastFireMs) + SCAN_HORIZON_MS;
    }
  }

  // ---- the horizon is long enough ----

  /** The schedule admits a month and day that exist in every year (so not 29 February). */
  predicate AdmitsYearlyDate(s: CronSchedule, m: int, d: int) {
    && 1 <= m <= 12 && 1 <= d <= MonthLength(1970, m)
    && m in s.months && d in s.dom
    && ((s.domRestricted && s.dowRestricted) || forall w :: 0 <= w < 7 ==> w in s.dow)
  }

  /** The instant of one yearly fire. */
  function YearlyFire(y: int, m: int, d: int, hour: int, minute: int): int
    requires 1 <= m <= 12
  {
    InstantOf(DayNumber(Date(y, m, d)), hour, minute, 0)
  }

  lemma DateInEveryYear(s: CronSchedule, m: int, d: int)
    requires AdmitsYearlyDate(s, m, d)
    ensures 1 <= m <= 12 && 1 <= d <= MonthLength(1970, m)
  {
  }

  lemma YearlyFireFires(s: CronSchedule, y: int, m: int, d: int, hour: int, minute: int)
    requires AdmitsYearlyDate(s, m, d)
    requires hour in s.hours && 0 <= hour < 24 && minute in s.minutes && 0 <= minute < 60
    ensures Fires(s, YearlyFire(y, m, d, hour, minute))
  {
    YearlyGap(y, m, d);
    var n := DayNumber(Date(y, m, d));
    DateOfDayNumber(Date(y, m, d));
    InstantFields(n, hour, minute, 0);
    WholeMinute(n, hour, minute);
  }

  lemma WholeMinute(n: int, hour: int, minute: int)
    ensures var t := InstantOf(n, hour, minute, 0);
            t % MINUTE_MS == 0 && t / MINUTE_MS * MINUTE_MS == t
  {
    assert InstantOf(n, hour, minute, 0) == (n * 1440 + hour * 60 + minute) * MINUTE_MS;
  }

  /** One day of the year comes round at least once in any window of 366 days. */
  lemma YearlyFireWithin(m: int, d: int, hour: int, minute: int, t: int, y: int)
    requires 1 <= m <= 12 && 1 <= d <= MonthLength(1970, m)
    requires YearlyFire(y, m, d, hour, minute) <= t
    ensures exists z :: t < YearlyFire(z, m, d, hour, minute) <= t + SCAN_HORIZON_MS
    decreases t - YearlyFire(y, m, d, hour, minute)
  {
    YearlyGap(y, m, d);
    if YearlyFire(y + 1, m, d, hour, minute) <= t {
      YearlyFireWithin(m, d, hour, minute, t, y + 1);
    }
  }

  lemma EarlierFire(m: int, d: int, hour: int, minute: int, t: int)
    requires 1 <= m <= 12 && 1 <= d <= MonthLength(1970, m)
    requires 0 <= hour < 24 && 0 <= minute < 60
    ensures YearlyFire(DateOf(DayOf(t)).year - 1, m, d, hour, minute) <= t
  {
    var today := DateOf(DayOf(t));
    YearlyGap(today.year - 1, m, d);
    EarlierYear(Date(today.year - 1, m, d), today);
    assert DayOf(t) * DAY_MS <= t;
  }

  /**
   The 366-day horizon is long enough: from any instant, a schedule with some minute,
   some hour and some date that exists in every year has a next fire.
   */
  lemma HorizonSuffices(s: CronSchedule, m: int, d: int, hour: int, minute: int, afterMs: int)
    requires AdmitsYearlyDate(s, m, d)
    requires hour in s.hours && 0 <= hour < 24 && minute in s.minutes && 0 <= minute < 60
    ensures NextCronFire(s, afterMs).Some?
  {
    hide *;
    DateInEveryYear(s, m, d);
    var f := FloorToMinute(afterMs);
    EarlierFire(m, d, hour, minute, f);
    YearlyFireWithin(m, d, hour, minute, f, DateOf(DayOf(f)).year - 1);
    var y :| f < YearlyFire(y, m, d, hour, minute) <= f + SCAN_HORIZON_MS;
    YearlyFireFires(s, y, m, d, hour, minute);
    NextCronFireIsLeast(s, afterMs);
    BeyondItsMinute(s, afterMs, YearlyFire(y, m, d, hour, minute));
  }

  /** A fire after an instant's whole minute is after the instant. */
  lemma BeyondItsMinute(s: CronSchedule, a: int, t: int)
    requires Fires(s, t) && FloorToMinute(a) < t
    ensures a < t
  {
    hide FiresAt;
    assert t == t / MINUTE_MS * MINUTE_MS;
  }

  /** The instant falls on 29 February. */
  predicate OnLeapDay(t: int) {
    var d := DateOf(DayOf(t));
    d.month == 2 && d.day == 29
  }

  /**
   The condition on the date is needed: a schedule for 29 February alone has no next
   fire from anywhere in 2026, because 2028 lies beyond the horizon.
   */
  lemma LeapDayScheduleMissesTheHorizon(afterMs: int)
    requires DateOf(DayOf(afterMs)).year == 2026
    ensures NextCronFire(CronSchedule({0}, {0}, {29}, {2}, {0, 1, 2, 3, 4, 5, 6}, true, false), afterMs).None?
  {
    hide *;
    var s := CronSchedule({0}, {0}, {29}, {2}, {0, 1, 2, 3, 4, 5, 6}, true, false);
    var r := NextCronFire(s, afterMs);
    NextCronFireIsLeast(s, afterMs);
    WithinHorizon(afterMs);
    if r.Some? {
      FiresOnLeapDays(r.value);
      NoLeapDayWithinAYear(afterMs, r.value);
    }
  }

  lemma WithinHorizon(a: int)
    ensures FloorToMinute(a) <= a
  {
  }

  lemma FiresOnLeapDays(t: int)
    requires Fires(CronSchedule({0}, {0}, {29}, {2}, {0, 1, 2, 3, 4, 5, 6}, true, false), t)
    ensures OnLeapDay(t)
  {
    hide DateOf, DayOf, HourOf, MinuteOf, WeekdayOf;
    assert t / MINUTE_MS * MINUTE_MS == t;
  }

  lemma NoLeapDayWithinAYear(t: int, u: int)
    requires DateOf(DayOf(t)).year == 2026 && t <= u <= t + SCAN_HORIZON_MS
    ensures !OnLeapDay(u)
  {
    hide *;
    DaysWithin(t, u);
    NoLeapDayInDays(DateOf(DayOf(t)), DateOf(DayOf(u)));
    LeapDayIs(u);
  }

  lemma LeapDayIs(t: int)
    ensures OnLeapDay(t) <==> DateOf(DayOf(t)).month == 2 && DateOf(DayOf(t)).day == 29
  {
    hide DateOf, DayOf;
  }

  lemma DaysWithin(t: int, u: int)
    requires t <= u <= t + SCAN_HORIZON_MS
    ensures DayOf(t) <= DayOf(u) <= DayOf(t) + 366
  {
  }

  lemma StartOf2028()
    ensures ValidDate(Date(2028, 1, 2)) && DayNumber(Date(2028, 1, 2)) == DaysBeforeYear(2028) - EPOCH_DAY + 1
    ensures DaysBeforeYear(2028) == DaysBeforeYear(2027) + 365 && !IsLeap(2026) && !IsLeap(2027)
  {
    NextYear(2027);
  }

  lemma LeapDayYear(d: Date)
    requires ValidDate(d) && d.month == 2 && d.day == 29
    ensures IsLeap(d.year)
  {
  }

  lemma NoLeapDayInDays(a: Date, b: Date)
    requires ValidDate(a) && ValidDate(b) && a.year == 2026 && DayNumber(a) <= DayNumber(b) <= DayNumber(a) + 366
    ensures !(b.month == 2 && b.day == 29)
  {
    hide *;
    StartOf2028();
    YearBounds(a);
    EarlierYear(b, a);
    EarlierYear(Date(2028, 1, 2), b);
    if b.month == 2 && b.day == 29 { LeapDayYear(b); }
    if b.year == 2028 { EarlierMonth(Date(2028, 1, 2), b); }
  }
}
