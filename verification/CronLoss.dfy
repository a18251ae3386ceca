/**
 What losing the durable record of fires costs, in every state it can be lost in: when the
 anchor seeded afterwards has forgotten a fire, and that the fire can then be recorded a
 second time and even run.
 */
module CronLoss {
  import opened Common
  import opened Text
  import opened Types
  import opened Lists
  import opened Calendar
  import opened Containers
  import opened Host
  import opened Planner
  import opened CronScan
  import opened CronParser
  import opened CronHorizon
  import opened Agent
  import opened Apply
  import opened CronMachine
  import opened Dispatch

  /** The last fire a tick at `at` knows of: the labels of earlier runs and the anchor, seeded if it is missing. */
  function KnownFire(s: Cron, at: int): int { Max(LabelFire(CronRuns(s.live)), SeedAnchor(s.live, s.anchor, at)) }

  /** A run is in progress, and a fire later than every label is on record. */
  ghost predicate Forgets(s: Cron) {
    LabelFire(RunsInProgress(s.live)) > 0 && exists f :: f in s.recorded && LabelFire(CronRuns(s.live)) < f
  }

  lemma InProgressLabels(live: Live)
    ensures LabelFire(RunsInProgress(live)) <= LabelFire(CronRuns(live))
  {
    hide Keep, LabelFire;
    var m := LabelFire(RunsInProgress(live));
    if m > 0 {
      var r :| r in RunsInProgress(live) && r.cronFireMs == Some(m);
      assert r in CronRuns(live);
    }
  }

  /**
   Once the record is lost, the next tick has forgotten a recorded fire if and only if a run
   is in progress and a fire later than every label is on record.
   */
  lemma ForgetsIff(s: Cron, at: int)
    requires Ledger(s) && s.anchor.None? && at >= s.now
    ensures (exists f :: f in s.recorded && KnownFire(s, at) < f) <==> Forgets(s)
  {
    hide Keep, LabelFire, Increasing;
    InProgressLabels(s.live);
  }

  /** Whenever the record is lost, in any run that had forgotten nothing so far. */
  lemma LossInAnyRun(s: Cron, events: seq<Event>, floor: int, at: int)
    requires CronMachine.Starts(s, floor) && AlwaysRemembers(s, events) && at >= Steps(s, events).now
    ensures var lost := Step(Steps(s, events), Lose);
            && Safe(lost, floor) && Ledger(lost) && lost.anchor.None? && lost.pending == []
            && ((exists f :: f in lost.recorded && KnownFire(lost, at) < f) <==> Forgets(lost))
  {
    hide Safe, Ledger, CronMachine.Starts, AlwaysRemembers, Forgets, KnownFire, Keep;
    AtMostOnce(s, events, floor);
    SkippedNeverRuns(s, events, floor);
    StepSafe(Steps(s, events), Lose, floor);
    StepLedger(Steps(s, events), Lose, floor);
    ForgetsIff(Step(Steps(s, events), Lose), at);
  }

  // ---- a schedule for one instant of the year ----

  function FireText(f: int): string {
    var d := DateOf(DayOf(f));
    FieldsInstant(f);
    Spaced([MinuteOf(f), HourOf(f), d.day, d.month])
  }

  /** The schedule of that minute, hour, day and month. */
  function OnceAYear(f: int): CronSchedule {
    var d := DateOf(DayOf(f));
    CronSchedule({MinuteOf(f)}, {HourOf(f)}, {d.day}, {d.month}, FoldSunday(IntRange(0, 7)), true, false)
  }

  /** A word followed by a space or nothing. */
  lemma {:induction false} FirstWord(w: string, rest: string)
    requires w != "" && (forall i :: 0 <= i < |w| ==> !IsSpace(w[i])) && (rest == "" || rest[0] == ' ')
    ensures Words(w + rest) == [w] + Words(rest)
  {
    hide Words;
    WordIs(w, rest);
    var s := w + rest;
    assert s[|w|..] == rest;
    WordsStep(s);
  }

  lemma WordsStep(s: string)
    requires s != "" && !IsSpace(s[0])
    ensures Words(s) == [Word(s)] + Words(s[|Word(s)|..])
  {
  }

  lemma {:induction false} WordIs(w: string, rest: string)
    requires (forall i :: 0 <= i < |w| ==> !IsSpace(w[i])) && (rest == "" || rest[0] == ' ')
    ensures Word(w + rest) == w
    decreases |w|
  {
    var s := w + rest;
    if w == "" {
      assert s == rest;
    } else {
      WordIs(w[1..], rest);
      assert s[1..] == w[1..] + rest;
    }
  }

  lemma DecimalWord(n: nat)
    ensures var w := Decimal(n);
            w != "" && (forall i :: 0 <= i < |w| ==> !IsSpace(w[i])) && ',' !in w && w != "*" && '-' !in w && '/' !in w
  {
    var w := Decimal(n);
    assert IsDigit(w[0]);
    forall i | 0 <= i < |w| ensures !IsSpace(w[i]) && w[i] != ',' && w[i] != '-' && w[i] != '/' { assert IsDigit(w[i]); }
  }

  /** A field that is a single number allows that number alone. */
  lemma NumberField(n: nat, spec: FieldSpec)
    requires IsSpec(spec) && spec.min <= n <= spec.max
    ensures ParseField(Decimal(n), spec) == Some(ParsedField({n}, true))
  {
    hide Decimal, Split, Expand;
    var w := Decimal(n);
    DecimalWord(n);
    SplitWhole(w, ',');
    SplitWhole(w, '/');
    assert ItemBounds(w, spec) == Some(Bounds(n, n, 1));
    OneStep(n);
    assert [w][..0] == [];
    assert ItemsValues([w], spec) == Some({} + SetOf(Expand(Bounds(n, n, 1))));
    assert {} + {n as int} == {n as int};
  }

  lemma SplitWhole(s: string, c: char)
    requires c !in s
    ensures Split(s, c) == [s]
  {
  }

  lemma OneStep(n: nat)
    requires n <= 59
    ensures SetOf(Expand(Bounds(n, n, 1))) == {n}
  {
    assert Expand(Bounds(n, n, 1)) == [n] + StepValues(n + 1, n, 1);
  }

  lemma FireTextParses(f: int)
    ensures ParseCronExpression(FireText(f)) == Some(OnceAYear(f))
  {
    hide Words, Decimal, Spaced, ParseField, DateOf, DayOf, HourOf, MinuteOf, FoldSunday, IntRange;
    var d := DateOf(DayOf(f));
    FieldsInstant(f);
    assert 1 <= d.month <= 12 && 1 <= d.day <= 31;
    SpacedWords([MinuteOf(f), HourOf(f), d.day, d.month]);
    NumberField(MinuteOf(f), MINUTE);
    NumberField(HourOf(f), HOUR);
    NumberField(d.day, DAY_OF_MONTH);
    NumberField(d.month, MONTH);
    BareStar();
  }

  lemma BareStar()
    ensures ParseField("*", DAY_OF_WEEK) == Some(ParsedField(IntRange(0, 7), false))
  {
  }

  lemma NextNumber(n: nat, rest: string)
    ensures Words(Decimal(n) + (" " + rest)) == [Decimal(n)] + Words(rest)
  {
    hide Words, Decimal;
    DecimalWord(n);
    FirstWord(Decimal(n), " " + rest);
    SkipSpace(rest);
  }

  /** Numbers each followed by a space, then a bare star. */
  function Spaced(numbers: seq<nat>): string {
    if numbers == [] then "*" else Decimal(numbers[0]) + (" " + Spaced(numbers[1..]))
  }

  function Printed(numbers: seq<nat>): (r: seq<string>)
    ensures |r| == |numbers| && forall i :: 0 <= i < |r| ==> r[i] == Decimal(numbers[i])
  {
    if numbers == [] then [] else [Decimal(numbers[0])] + Printed(numbers[1..])
  }

  lemma {:induction false} SpacedWords(numbers: seq<nat>)
    ensures Words(Spaced(numbers)) == Printed(numbers) + ["*"]
    decreases |numbers|
  {
    hide Words, Decimal;
    if numbers == [] {
      NoWords();
      StarWord("");
      assert "*" + "" == "*";
    } else {
      NextNumber(numbers[0], Spaced(numbers[1..]));
      SpacedWords(numbers[1..]);
    }
  }

  /** The same month and day of a later year is at least 365 days away. */
  lemma YearsLater(y: int, k: nat, m: int, d: int)
    requires k >= 1 && ValidDate(Date(y, m, d)) && ValidDate(Date(y + k, m, d))
    ensures DayNumber(Date(y + k, m, d)) >= DayNumber(Date(y, m, d)) + 365
  {
    hide DaysBeforeYear, DaysBeforeMonth;
    NextYear(y);
    YearsApart(y + 1, k - 1);
    MonthShift(y, m);
    MonthShift(y + k, m);
  }

  /** Two fires of the schedule are a year apart. */
  lemma YearApart(f: int, u: int)
    requires f % MINUTE_MS == 0 && Fires(OnceAYear(f), u) && f < u
    ensures u >= f + 365 * DAY_MS
  {
    hide DateOf, DayOf, HourOf, MinuteOf, SecondOf, WeekdayOf, FoldSunday, IntRange, InstantOf, DayNumber;
    assert u / MINUTE_MS * MINUTE_MS == u;
    var a, b := DateOf(DayOf(f)), DateOf(DayOf(u));
    assert a.month == b.month && a.day == b.day && HourOf(u) == HourOf(f) && MinuteOf(u) == MinuteOf(f);
    WholeFields(f);
    WholeFields(u);
    SameTimeOfDay(DayOf(f), DayOf(u), HourOf(f), MinuteOf(f));
    if a.year < b.year {
      YearsLater(a.year, b.year - a.year, a.month, a.day);
      SameTimeOfDay(DayOf(f) + 365, DayOf(u), HourOf(f), MinuteOf(f));
      YearShift(DayOf(f), HourOf(f), MinuteOf(f));
    } else if b.year < a.year {
      EarlierYear(b, a);
    }
  }

  lemma WholeFields(t: int)
    requires t % MINUTE_MS == 0
    ensures t == InstantOf(DayOf(t), HourOf(t), MinuteOf(t), 0)
  {
    hide DayOf, HourOf, MinuteOf, SecondOf;
    FieldsInstant(t);
    InstantSecond(t, t / MINUTE_MS, 0);
    WholeSeconds(t);
  }

  lemma WholeSeconds(t: int)
    requires t % MINUTE_MS == 0
    ensures t / 1000 * 1000 == t
  {
    var k := t / MINUTE_MS;
    assert t == (k * 60) * 1000;
  }

  lemma SameTimeOfDay(a: int, b: int, hour: int, minute: int)
    ensures a <= b <==> InstantOf(a, hour, minute, 0) <= InstantOf(b, hour, minute, 0)
  {
  }

  lemma YearShift(day: int, hour: int, minute: int)
    ensures InstantOf(day + 365, hour, minute, 0) == InstantOf(day, hour, minute, 0) + 365 * DAY_MS
  {
  }

  lemma OnceFires(f: int)
    requires f % MINUTE_MS == 0
    ensures Fires(OnceAYear(f), f)
  {
    hide DateOf, DayOf, HourOf, MinuteOf, IntRange;
    assert f / MINUTE_MS * MINUTE_MS == f;
    assert 0 <= WeekdayOf(f) <= 6;
    assert WeekdayOf(f) in IntRange(0, 7);
  }

  /** For a year from the instant, it is what is due. */
  lemma OnceIsDue(f: int, last: int, at: int)
    requires f % MINUTE_MS == 0 && last < f <= at < f + 365 * DAY_MS
    ensures DueCronFire(OnceAYear(f), last, at) == Some(f)
  {
    hide OnceAYear, Fires, DueCronFire;
    OnceFires(f);
    DueCronFireIsGreatest(OnceAYear(f), last, at);
    var due := DueCronFire(OnceAYear(f), last, at);
    if due.Some? && due.value > f { YearApart(f, due.value); }
  }

  // ---- the forgotten fire comes again ----

  /** The service, scheduled for the instant `f` of every year. */
  function OnlyAt(c: ServiceConfig, f: int): ServiceConfig { c.(cron := Some(FireText(f))) }

  /** With its label or its anchor known, the tick finds the forgotten fire due. */
  lemma FoundDue(s: Cron, c: ServiceConfig, f: int, at: int)
    requires Scheduled(c, s.key) && f % MINUTE_MS == 0 && KnownFire(s, at) < f <= at < f + 365 * DAY_MS
    ensures DueNow(OnlyAt(c, f), CronRuns(s.live), at, SeedAnchor(s.live, s.anchor, at)) == Some(f)
    ensures Scheduled(OnlyAt(c, f), s.key)
  {
    hide Keep, LabelFire, SeedAnchor, DueCronFire, ParseCronExpression, OnceAYear, FireText;
    FireTextParses(f);
    LastKnown(CronRuns(s.live), SeedAnchor(s.live, s.anchor, at));
    OnceIsDue(f, KnownFire(s, at), at);
    KnownIs(s, at);
  }

  lemma KnownIs(s: Cron, at: int)
    ensures LastFireKnown(CronRuns(s.live), Some(SeedAnchor(s.live, s.anchor, at))) == Some(KnownFire(s, at))
  {
    hide LabelFire, SeedAnchor, Keep;
  }

  /** The run in progress exits. */
  lemma NoneRunsOn(live: Live, r: ManagedReplica)
    requires r in live && InProgress(r) && |RunsInProgress(live)| <= 1
    ensures forall q :: q in CronRuns(Exited(live, r.id, "exited")) ==> !Running(q)
    ensures LabelFire(CronRuns(Exited(live, r.id, "exited"))) == LabelFire(CronRuns(live))
  {
    hide Keep, LabelFire, Exited;
    var after := Exited(live, r.id, "exited");
    forall q | q in CronRuns(after) ensures !Running(q) {
      var i :| 0 <= i < |after| && after[i] == q;
      if Running(q) {
        assert live[i] in RunsInProgress(live) && r in RunsInProgress(live);
        OnlyMember(RunsInProgress(live), live[i], r);
      }
    }
    ExitedLabels(live, r.id);
  }

  lemma OnlyMember(s: Live, a: ManagedReplica, b: ManagedReplica)
    requires |s| <= 1 && a in s && b in s
    ensures a == b
  {
  }

  lemma LabelsWithin(a: Live, b: Live)
    requires |a| == |b| && forall i :: 0 <= i < |a| ==> a[i].cronFireMs == b[i].cronFireMs
    ensures LabelFire(CronRuns(a)) <= LabelFire(CronRuns(b))
  {
    hide Keep, LabelFire;
    var m := LabelFire(CronRuns(a));
    if m > 0 {
      var r :| r in CronRuns(a) && r.cronFireMs == Some(m);
      var i :| 0 <= i < |a| && a[i] == r;
      assert b[i] in CronRuns(b);
    }
  }

  lemma ExitedLabels(live: Live, id: nat)
    ensures LabelFire(CronRuns(Exited(live, id, "exited"))) == LabelFire(CronRuns(live))
  {
    hide Keep, LabelFire, Exited;
    LabelsWithin(live, Exited(live, id, "exited"));
    LabelsWithin(Exited(live, id, "exited"), live);
  }

  /** The fire is the schedule's latest, and within the horizon. */
  ghost predicate Latest(schedule: CronSchedule, f: int, at: int) {
    Fires(schedule, f) && f <= at && at - f < SCAN_HORIZON_MS && forall u :: f < u <= at ==> !Fires(schedule, u)
  }

  lemma DueIsLatest(schedule: CronSchedule, last: int, f: int, at: int)
    requires last < f
    ensures DueCronFire(schedule, last, at) == Some(f) <==> Latest(schedule, f, at)
  {
    hide FiresAt, DueCronFire;
    DueCronFireIsGreatest(schedule, last, at);
  }

  lemma {:induction false} DeletesRecordNothing(s: Cron)
    requires JustDeletes(s.pending)
    ensures DoAll(s).recorded == s.recorded
    decreases |s.pending|
  {
    hide Keep;
    if s.pending != [] {
      var t := AfterEffect(s, Verdict.Done);
      assert t.pending == s.pending[1..];
      DeletesRecordNothing(t);
    }
  }

  /** What a tick with a run in progress records is what is due. */
  lemma RecordsWhatIsDue(s: Cron, c: ServiceConfig, r: ManagedReplica, at: int)
    requires s.pending == [] && Scheduled(c, s.key) && r in CronRuns(s.live) && Running(r) && at >= s.now
    ensures var due := DueNow(c, CronRuns(s.live), at, SeedAnchor(s.live, s.anchor, at));
            DoAll(Step(s, Tick(c, at))).recorded == s.recorded + if due.Some? then [due.value] else []
  {
    hide Keep, KeyOf, DueNow, CronDecision, SeedAnchor, DoAll, AfterTick, JustDeletes;
    DecisionFacts(c, CronRuns(s.live), at, SeedAnchor(s.live, s.anchor, at));
    TickDecides(s, c, at);
    TickKeeps(s, c, at);
    var due := DueNow(c, CronRuns(s.live), at, SeedAnchor(s.live, s.anchor, at));
    if due.Some? {
      PlannedSkipRecords(AfterTick(s, c, at), due.value);
    } else {
      DeletesRecordNothing(AfterTick(s, c, at));
    }
  }

  /**
   On any schedule of the service, the one it was recorded under included: the forgotten
   fire is recorded a second time if and only if it is still the schedule's latest.
   */
  lemma RepeatsIffLatest(s: Cron, c: ServiceConfig, f: int, floor: int, at: int, schedule: CronSchedule)
    requires Safe(s, floor) && Ledger(s) && s.anchor.None? && s.pending == [] && Scheduled(c, s.key) && at >= s.now
    requires ParseCronExpression(c.cron.value) == Some(schedule)
    requires LabelFire(RunsInProgress(s.live)) > 0 && f in s.recorded && LabelFire(CronRuns(s.live)) < f
    ensures DoAll(Step(s, Tick(c, at))).recorded == s.recorded + [f] <==> Latest(schedule, f, at)
  {
    hide *;
    var r := TheRun(s, f, floor);
    KnownEver(s, at);
    RecordsWhatIsDue(s, c, r, at);
    DueIs(s, c, at, schedule);
    DueIsLatest(schedule, KnownFire(s, at), f, at);
    SeqEnds(s.recorded, f, DueNow(c, CronRuns(s.live), at, SeedAnchor(s.live, s.anchor, at)));
  }

  /** With a run in progress, the anchor seeded does not depend on when. */
  lemma KnownEver(s: Cron, at: int)
    requires LabelFire(RunsInProgress(s.live)) > 0 && s.anchor.None?
    ensures KnownFire(s, at) == LabelFire(CronRuns(s.live))
  {
    hide Keep, LabelFire;
    InProgressLabels(s.live);
  }

  lemma DueIs(s: Cron, c: ServiceConfig, at: int, schedule: CronSchedule)
    requires Scheduled(c, s.key) && ParseCronExpression(c.cron.value) == Some(schedule)
    ensures DueNow(c, CronRuns(s.live), at, SeedAnchor(s.live, s.anchor, at)) == DueCronFire(schedule, KnownFire(s, at), at)
  {
    hide Keep, LabelFire, SeedAnchor, DueCronFire, ParseCronExpression, KeyOf;
    KnownIs(s, at);
  }

  lemma SeqEnds(s: seq<int>, f: int, due: Option<int>)
    ensures s + (if due.Some? then [due.value] else []) == s + [f] <==> due == Some(f)
  {
    var t := s + (if due.Some? then [due.value] else []);
    if t == s + [f] { assert |t| == |s| + 1 && t[|s|] == f; }
  }

  /**
   Every state that forgets can repeat: within a year of the forgotten fire, the service on
   a schedule of that fire records it a second time; and if the agent crashes before that
   and the run in progress exits, it runs the fire, although it was on record without it.
   */
  lemma ForgottenFireRepeats(s: Cron, c: ServiceConfig, f: int, floor: int)
    requires Safe(s, floor) && Ledger(s) && s.anchor.None? && s.pending == [] && Scheduled(c, s.key)
    requires LabelFire(RunsInProgress(s.live)) > 0
    requires f in s.recorded && LabelFire(CronRuns(s.live)) < f && s.now < f + 365 * DAY_MS
    ensures DoAll(Step(s, Tick(OnlyAt(c, f), s.now))).recorded == s.recorded + [f]
    ensures exists id ::
              var idle := Step(Step(Step(s, Tick(OnlyAt(c, f), s.now)), Crash), Exit(id, "exited"));
              DoAll(Step(idle, Tick(OnlyAt(c, f), s.now))).started == s.started + [f]
    ensures f !in s.started
  {
    hide *;
    var once := OnlyAt(c, f);
    var r := TheRun(s, f, floor);
    FoundDue(s, c, f, s.now);
    SkippedAgain(s, once, r, f);
    var idle := Step(Step(Step(s, Tick(once, s.now)), Crash), Exit(r.id, "exited"));
    IdleIs(s, once, r);
    NoneRunsOn(s.live, r);
    IdleKnows(s, idle, r);
    FoundDue(idle, c, f, s.now);
    RunAfterAll(idle, once, f);
  }

  /** The run in progress, and what the tick knows because of it. */
  lemma TheRun(s: Cron, f: int, floor: int) returns (r: ManagedReplica)
    requires Safe(s, floor) && Ledger(s) && s.anchor.None? && LabelFire(RunsInProgress(s.live)) > 0
    requires f in s.recorded && LabelFire(CronRuns(s.live)) < f
    ensures r in s.live && InProgress(r) && r in CronRuns(s.live) && Running(r) && |RunsInProgress(s.live)| <= 1
    ensures KnownFire(s, s.now) < f <= s.now && f % MINUTE_MS == 0 && f !in s.started
    ensures SeedAnchor(s.live, s.anchor, s.now) == LabelFire(RunsInProgress(s.live))
  {
    hide Keep, LabelFire, PendingOk, Increasing;
    InProgressLabels(s.live);
    var m := LabelFire(RunsInProgress(s.live));
    r :| r in RunsInProgress(s.live) && r.cronFireMs == Some(m);
  }

  lemma SkippedAgain(s: Cron, c: ServiceConfig, r: ManagedReplica, f: int)
    requires s.pending == [] && Scheduled(c, s.key) && r in CronRuns(s.live) && Running(r)
    requires DueNow(c, CronRuns(s.live), s.now, SeedAnchor(s.live, s.anchor, s.now)) == Some(f)
    ensures DoAll(Step(s, Tick(c, s.now))).recorded == s.recorded + [f]
  {
    hide Keep, KeyOf, DueNow, CronDecision, SeedAnchor, DoAll, AfterTick;
    DecisionFacts(c, CronRuns(s.live), s.now, SeedAnchor(s.live, s.anchor, s.now));
    TickDecides(s, c, s.now);
    TickKeeps(s, c, s.now);
    PlannedSkipRecords(AfterTick(s, c, s.now), f);
  }

  lemma TickKeeps(s: Cron, c: ServiceConfig, at: int)
    ensures var t := AfterTick(s, c, at);
            && t.live == s.live && t.key == s.key && t.recorded == s.recorded && t.started == s.started && t.now == at
            && t.anchor == Some(SeedAnchor(s.live, s.anchor, at))
  {
    hide SeedAnchor, Scripts, Planned;
  }

  lemma IdleIs(s: Cron, c: ServiceConfig, r: ManagedReplica)
    requires s.pending == [] && Scheduled(c, s.key)
    ensures var idle := Step(Step(Step(s, Tick(c, s.now)), Crash), Exit(r.id, "exited"));
            && idle.live == Exited(s.live, r.id, "exited") && idle.anchor == Some(SeedAnchor(s.live, s.anchor, s.now))
            && idle.pending == [] && idle.key == s.key && idle.now == s.now && idle.started == s.started
  {
    hide Exited, SeedAnchor, AfterTick, KeyOf;
    TickKeeps(s, c, s.now);
  }

  lemma IdleKnows(s: Cron, idle: Cron, r: ManagedReplica)
    requires idle.live == Exited(s.live, r.id, "exited") && idle.anchor == Some(SeedAnchor(s.live, s.anchor, s.now))
    requires LabelFire(CronRuns(idle.live)) == LabelFire(CronRuns(s.live))
    ensures KnownFire(idle, s.now) == KnownFire(s, s.now)
  {
    hide LabelFire, Keep, Exited;
  }

  lemma RunAfterAll(s: Cron, c: ServiceConfig, f: int)
    requires s.pending == [] && Scheduled(c, s.key) && forall q :: q in CronRuns(s.live) ==> !Running(q)
    requires DueNow(c, CronRuns(s.live), s.now, SeedAnchor(s.live, s.anchor, s.now)) == Some(f)
    ensures DoAll(Step(s, Tick(c, s.now))).started == s.started + [f]
  {
    hide Keep, KeyOf, DueNow, CronDecision, SeedAnchor, DoAll, AfterTick, InProgress;
    DecisionFacts(c, CronRuns(s.live), s.now, SeedAnchor(s.live, s.anchor, s.now));
    TickDecides(s, c, s.now);
    TickKeeps(s, c, s.now);
    PlannedRunStarts(AfterTick(s, c, s.now), f, c);
  }
}
