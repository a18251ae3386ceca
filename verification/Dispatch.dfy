/**
 What is due is done: a schedule acts exactly when its next fire has been reached, a
 database is backed up exactly when it is also running, and a job request is dispatched
 once.
 */
module Dispatch {
  import opened Common
  import opened Text
  import opened Types
  import opened Lists
  import opened Calendar
  import opened Containers
  import opened Host
  import opened Planner
  import opened Docker
  import opened Stamp
  import opened CronScan
  import opened CronParser
  import opened Agent
  import opened Apply
  import opened Reconcile
  import opened CronMachine

  /** The next fire after the last one known has been reached. */
  ghost predicate Reached(schedule: CronSchedule, last: int, now: int) {
    NextCronFire(schedule, last).Some? && NextCronFire(schedule, last).value <= now
  }

  /**
   With a readable schedule and a fire known within the horizon, a tick acts if and only if
   the next fire has been reached: it runs it when no run is in progress, and otherwise
   records it as skipped.
   */
  lemma ScheduleActsIffReached(c: ServiceConfig, runs: Live, ctx: CronPlanContext, schedule: CronSchedule, last: int)
    requires c.cron.Some? && ParseCronExpression(c.cron.value) == Some(schedule)
    requires LastFireKnown(runs, Anchor(ctx, KeyOf(c))) == Some(last) && ctx.nowMs - last <= SCAN_HORIZON_MS
    ensures var d := CronDecision(c, runs, Some(ctx));
            && (d.Noop? <==> !Reached(schedule, last, ctx.nowMs))
            && (d.CronSkip? <==> Reached(schedule, last, ctx.nowMs) && exists r :: r in runs && Running(r))
            && (d.CronRun? <==> Reached(schedule, last, ctx.nowMs) && forall r :: r in runs ==> !Running(r))
            && (!d.Noop? ==> Fires(schedule, d.fireMs) && last < d.fireMs <= ctx.nowMs
                             && forall u :: d.fireMs < u <= ctx.nowMs ==> !Fires(schedule, u))
  {
    hide KeyOf, ParseCronExpression, LastFireKnown, DueCronFire, NextCronFire, Fires;
    DueIffNextReached(schedule, last, ctx.nowMs);
    DueCronFireIsGreatest(schedule, last, ctx.nowMs);
  }

  /** An unknown last fire, or a schedule that cannot be read, is never acted on. */
  lemma NothingFiresUnanchored(c: ServiceConfig, runs: Live, ctx: Option<CronPlanContext>)
    requires ctx.None? || ParseCronExpression(if c.cron.Some? then c.cron.value else "").None?
          || (Anchor(ctx.value, KeyOf(c)).None? && forall r :: r in runs ==> r.cronFireMs.None? || r.cronFireMs.value <= 0)
    ensures CronDecision(c, runs, ctx) == Noop(c)
  {
    hide KeyOf, ParseCronExpression;
  }

  /**
   A backup is planned if and only if its next fire has been reached and the database runs.
   Until then it stays due, so the first plan within the horizon that finds the database
   running makes it up.
   */
  lemma BackupActsIffReached(c: ServiceConfig, have: Live, ctx: CronPlanContext, schedule: CronSchedule, last: int)
    requires c.backup.Some? && ParseCronExpression(c.backup.value.schedule) == Some(schedule)
    requires Anchor(ctx, BackupStateKey(KeyOf(c))) == Some(last) && ctx.nowMs - last <= SCAN_HORIZON_MS
    ensures var planned := PlanBackup(c, have, Some(ctx));
            && (planned != [] <==> Reached(schedule, last, ctx.nowMs) && exists r :: r in have && Running(r))
            && (planned != [] ==> |planned| == 1 && planned[0].BackupRun? && planned[0].config == c && last < planned[0].fireMs <= ctx.nowMs
                                  && Fires(schedule, planned[0].fireMs))
            && (Reached(schedule, last, ctx.nowMs) ==> forall later :: later >= ctx.nowMs ==> Reached(schedule, last, later))
  {
    hide KeyOf, ParseCronExpression, DueCronFire, NextCronFire, Fires, BackupStateKey;
    DueIffNextReached(schedule, last, ctx.nowMs);
    DueCronFireIsGreatest(schedule, last, ctx.nowMs);
  }

  /** Once a request's container has been started, planning leaves the request alone. */
  lemma DispatchedJobIsQuiet(c: ServiceConfig, previous: Live, before: Host, h: Host, have: Live)
    requires c.jobRun.Some? && Did(JobRun(c, previous), before, h.live) && Saw(c, have, h)
    ensures PlanJob(c, have) == [Noop(c)]
  {
    hide *;
    var r := NewReplica(c, before.nextId, 0, "running", None, None, Some(c.jobRun.value.id));
    JobStarted(c, previous, before, h.live, r);
    HaveFacts(c, have, h);
    HasRequest(c, have, r);
  }

  lemma JobStarted(c: ServiceConfig, previous: Live, before: Host, live: Live, r: ManagedReplica)
    requires Did(JobRun(c, previous), before, live)
    requires c.jobRun.Some? && r == NewReplica(c, before.nextId, 0, "running", None, None, Some(c.jobRun.value.id))
    ensures r in live && ReplicaKey(r) == KeyOf(c) && r.jobRunId == Some(c.jobRun.value.id)
  {
    hide Without, ServiceConfigStamp, ServiceKey;
  }

  lemma HasRequest(c: ServiceConfig, have: Live, r: ManagedReplica)
    requires c.jobRun.Some? && r in have && r.jobRunId == Some(c.jobRun.value.id)
    ensures PlanJob(c, have) == [Noop(c)]
  {
  }

  /** A request waits for no one but its own container and a job still in progress. */
  lemma JobDispatchedIff(c: ServiceConfig, have: Live)
    requires c.jobRun.Some?
    ensures PlanJob(c, have) == [JobRun(c, have)]
        <==> forall r :: r in have && r.jobRunId.Some? ==> r.jobRunId.value != c.jobRun.value.id && !Running(r)
  {
  }

  // ---- what is planned is done ----

  /** Every pending effect succeeds. */
  function DoAll(s: Cron): Cron
    decreases |s.pending|
  {
    if s.pending == [] then s
    else
      PendingShrinks(s);
      DoAll(AfterEffect(s, Verdict.Done))
  }

  lemma PendingShrinks(s: Cron)
    requires s.pending != []
    ensures |AfterEffect(s, Verdict.Done).pending| < |s.pending|
  {
  }

  /** A planned run whose effects succeed ends with exactly one container, running, carrying its recorded fire. */
  lemma {:induction false} PlannedRunStarts(s: Cron, f: int, c: ServiceConfig)
    requires ToRun(s.pending, s.key, f, c) && AllDeleted(s.live, s.pending)
    ensures var t := DoAll(s);
            && t.pending == [] && t.started == s.started + [f] && t.recorded == s.recorded + [f] && t.anchor == Some(f)
            && |t.live| == 1 && InProgress(t.live[0]) && t.live[0].cronFireMs == Some(f) && t.skipped == s.skipped
    decreases |s.pending|
  {
    hide Keep, KeyOf, InProgress;
    if s.pending == [RecordFire(s.key, f), Run(c, 0, Some(f), None)] {
      NoneLeft(s.live, s.pending);
      RecordThenRun(s, f, c);
    } else {
      var t := AfterEffect(s, Verdict.Done);
      assert t.pending == s.pending[1..];
      forall r | r in t.live ensures Delete(r.id) in t.pending {
        assert Delete(r.id) in s.pending && Delete(r.id) != s.pending[0];
      }
      PlannedRunStarts(t, f, c);
    }
  }

  lemma RecordThenRun(s: Cron, f: int, c: ServiceConfig)
    requires s.live == [] && s.pending == [RecordFire(s.key, f), Run(c, 0, Some(f), None)]
    ensures var t := DoAll(s);
            && t.pending == [] && t.started == s.started + [f] && t.recorded == s.recorded + [f] && t.anchor == Some(f)
            && |t.live| == 1 && InProgress(t.live[0]) && t.live[0].cronFireMs == Some(f) && t.skipped == s.skipped
  {
    hide KeyOf;
    var a := AfterEffect(s, Verdict.Done);
    assert a.pending == [Run(c, 0, Some(f), None)];
    var b := AfterEffect(a, Verdict.Done);
    assert b.pending == [] && DoAll(b) == b;
  }

  /** A planned skip whose effects succeed ends with the fire recorded and nothing started. */
  lemma {:induction false} PlannedSkipRecords(s: Cron, f: int)
    requires ToSkip(s.pending, s.key, f)
    ensures var t := DoAll(s);
            && t.pending == [] && t.started == s.started && t.recorded == s.recorded + [f] && t.anchor == Some(f)
            && t.skipped == s.skipped + {f}
    decreases |s.pending|
  {
    hide Keep, KeyOf;
    var t := AfterEffect(s, Verdict.Done);
    if s.pending == [RecordFire(s.key, f)] {
      assert t.pending == [] && DoAll(t) == t;
    } else {
      assert t.pending == s.pending[1..];
      PlannedSkipRecords(t, f);
    }
  }

  // ---- the failing run is real ----

  const EVERY_MINUTE := "* * * * *"

  lemma SkipSpace(rest: string)
    ensures Words(" " + rest) == Words(rest)
  {
    assert (" " + rest)[1..] == rest;
  }

  lemma StarWord(rest: string)
    requires rest == "" || rest[0] == ' '
    ensures Words("*" + rest) == ["*"] + Words(rest)
  {
    var s := "*" + rest;
    assert s[1..] == rest;
    assert Word(rest) == "";
    assert Word(s) == "*";
    assert s[1..] == s[|Word(s)|..];
  }

  lemma EveryMinuteWords()
    ensures Words(EVERY_MINUTE) == ["*", "*", "*", "*", "*"]
  {
    hide Words;
    assert "* * * * *" == "*" + (" " + ("*" + (" " + ("*" + (" " + ("*" + (" " + ("*" + ""))))))));
    NoWords();
    StarWord("");
    SkipSpace("*");
    StarWord(" *");
    SkipSpace("* *");
    StarWord(" * *");
    SkipSpace("* * *");
    StarWord(" * * *");
    SkipSpace("* * * *");
    StarWord(" * * * *");
    assert "*" + "" == "*" && " " + "*" == " *" && "*" + " *" == "* *" && " " + "* *" == " * *" && "*" + " * *" == "* * *";
    assert " " + "* * *" == " * * *" && "*" + " * * *" == "* * * *" && " " + "* * * *" == " * * * *" && "*" + " * * * *" == "* * * * *";
  }

  lemma NoWords()
    ensures Words("") == []
  {
  }

  function EveryMinute(): CronSchedule {
    CronSchedule(IntRange(0, 59), IntRange(0, 23), IntRange(1, 31), IntRange(1, 12), FoldSunday(IntRange(0, 7)), false, false)
  }

  lemma EveryMinuteParses()
    ensures ParseCronExpression(EVERY_MINUTE) == Some(EveryMinute())
  {
    hide Words, IntRange, FoldSunday;
    EveryMinuteWords();
  }

  lemma EveryMinuteFires(k: int)
    ensures FiresAt(EveryMinute(), k)
  {
    hide IntRange, DateOf;
    var ms := k * MINUTE_MS;
    var d := DateOf(DayOf(ms));
    FieldsInstant(ms);
    assert 1 <= d.month <= 12 && 1 <= d.day <= 31;
    assert 0 <= WeekdayOf(ms) <= 6;
    assert WeekdayOf(ms) in IntRange(0, 7);
  }

  /** A run of the first minute, still in progress when the second fires: the setting in which losing the record fails. */
  lemma LossIsPossible(s: Cron, c: ServiceConfig, r: ManagedReplica)
    requires Scheduled(c, s.key) && c.cron == Some(EVERY_MINUTE)
    requires s.live == [r] && r.cronFireMs == Some(60_000) && s.pending == [] && s.now <= 120_000 && s.anchor == Some(60_000)
    ensures Lone(s, c, r, 60_000, 120_000, 120_000)
  {
    hide EveryMinute, ParseCronExpression, DueCronFire, FiresAt;
    EveryMinuteParses();
    EveryMinuteFires(2);
    assert Fires(EveryMinute(), 120_000);
    DueCronFireIsGreatest(EveryMinute(), 60_000, 120_000);
  }
}
