/**
 One schedule over any run: ticks that seed and plan, single effects that succeed or fail,
 containers that exit, and crashes between any two effects, with or without losing the
 durable record. Fires are started at most once.
 */
module CronMachine {
  import opened Common
  import opened Text
  import opened Types
  import opened Lists
  import opened Calendar
  import opened Containers
  import opened Host
  import opened Planner
  import opened Docker
  import opened Stamp
  import opened CronScan
  import opened CronParser
  import opened Agent
  import opened Apply

  /** A schedule's containers, its durable anchor, and the effects still to do in this tick. */
  datatype Cron = Cron(
    key: string, live: Live, nextId: nat, anchor: Option<int>, pending: seq<Effect>, now: int,
    /** fires for which a container was started, in order */ started: seq<int>,
    /** fires made durable, in order */ recorded: seq<int>,
    /** fires recorded because a run was in progress */ skipped: set<int>)

  datatype Event =
    | Elapse(at: int)
    | Tick(c: ServiceConfig, at: int)
    | Do(outcome: Verdict)
    | Exit(id: nat, state: string)
    | Crash
    | Lose

  predicate InProgress(r: ManagedReplica) { r.cronFireMs.Some? && Running(r) }

  function IsInProgress(): ManagedReplica -> bool { (r: ManagedReplica) => InProgress(r) }

  function RunsInProgress(live: Live): Live { Keep(live, IsInProgress()) }

  /** First sight: the fire of a run still in progress, or else now (`agent-app.rs`). */
  function SeedAnchor(live: Live, anchor: Option<int>, at: int): int {
    if anchor.Some? then anchor.value
    else if LabelFire(RunsInProgress(live)) > 0 then LabelFire(RunsInProgress(live))
    else at
  }

  /** The effects of a list of planned actions, in order. */
  function Scripts(actions: seq<Action>): seq<Effect>
    requires forall i :: 0 <= i < |actions| ==> !actions[i].RollOut?
  {
    if actions == [] then [] else Script(actions[0]) + Scripts(actions[1..])
  }

  /** The state a container is left in when it is no longer running. */
  function Exited(live: Live, id: nat, state: string): (r: Live)
    ensures |r| == |live|
    ensures forall i :: 0 <= i < |live| ==> r[i] == if live[i].id == id && Running(live[i]) then live[i].(state := state) else live[i]
  {
    if live == [] then []
    else
      var last := live[|live| - 1];
      Exited(live[..|live| - 1], id, state) + [if last.id == id && Running(last) then last.(state := state) else last]
  }

  predicate Scheduled(c: ServiceConfig, key: string) { KeyOf(c) == key && c.cron.Some? && c.jobRun.None? }

  function Planned(s: Cron, c: ServiceConfig, at: int): seq<Action> {
    PlanCron(c, s.live, Some(CronPlanContext(at, map[s.key := SeedAnchor(s.live, s.anchor, at)])))
  }

  lemma PlannedNoRollout(s: Cron, c: ServiceConfig, at: int)
    ensures forall i :: 0 <= i < |Planned(s, c, at)| ==> !Planned(s, c, at)[i].RollOut?
  {
    hide Keep, KeyOf;
  }

  function AfterTick(s: Cron, c: ServiceConfig, at: int): Cron {
    PlannedNoRollout(s, c, at);
    s.(now := at, anchor := Some(SeedAnchor(s.live, s.anchor, at)), pending := Scripts(Planned(s, c, at)))
  }

  /** One effect. A failure drops the rest of the action, which is the last of the tick; removals cannot fail. */
  function AfterEffect(s: Cron, outcome: Verdict): Cron
    requires s.pending != []
  {
    var rest := s.pending[1..];
    match s.pending[0]
    case Delete(id) => s.(live := Without(s.live, {id}), pending := rest)
    case RecordFire(_, f) =>
      if !outcome.Done? then s.(pending := [])
      else s.(anchor := Some(f), recorded := s.recorded + [f], pending := rest,
              skipped := if rest == [] then s.skipped + {f} else s.skipped)
    case Run(c, index, fire, jobRunId) =>
      if outcome.FailedBefore? || fire.None? then s.(pending := [])
      else s.(live := s.live + [NewReplica(c, s.nextId, index, if outcome.Done? then "running" else "created", None, fire, jobRunId)],
              nextId := s.nextId + 1, started := s.started + [fire.value], pending := [])
    case _ => if outcome.Done? then s.(pending := rest) else s.(pending := [])
  }

  /** Events that cannot happen leave the state as it is. */
  function Step(s: Cron, e: Event): Cron {
    match e
    case Elapse(at) => if at >= s.now then s.(now := at) else s
    case Tick(c, at) => if s.pending == [] && at >= s.now && Scheduled(c, s.key) then AfterTick(s, c, at) else s
    case Do(outcome) => if s.pending != [] then AfterEffect(s, outcome) else s
    case Exit(id, state) => if state != "running" then s.(live := Exited(s.live, id, state)) else s
    case Crash => s.(pending := [])
    case Lose => s.(pending := [], anchor := None)
  }

  function Steps(s: Cron, events: seq<Event>): Cron {
    if events == [] then s else Step(Steps(s, events[..|events| - 1]), events[|events| - 1])
  }

  ghost predicate Increasing(s: seq<int>) { forall i, j :: 0 <= i < j < |s| ==> s[i] < s[j] }

  // ---- what is pending ----

  ghost predicate JustDeletes(p: seq<Effect>) { forall i :: 0 <= i < |p| ==> p[i].Delete? }

  /** Removals, then the record of a skipped fire. */
  ghost predicate ToSkip(p: seq<Effect>, key: string, f: int) {
    && p != []
    && (p == [RecordFire(key, f)] || (p[0].Delete? && ToSkip(p[1..], key, f)))
  }

  /** Removals and a pull, then the record of a fire and its run. */
  ghost predicate ToRun(p: seq<Effect>, key: string, f: int, c: ServiceConfig) {
    && p != []
    && (p == [RecordFire(key, f), Run(c, 0, Some(f), None)]
        || ((p[0].Delete? || p[0].Pull?) && ToRun(p[1..], key, f, c)))
  }

  ghost predicate AllDeleted(live: Live, p: seq<Effect>) { forall r :: r in live ==> Delete(r.id) in p }

  /** A fire still to be recorded: a whole minute after the anchor, not in the future. */
  ghost predicate Fresh(s: Cron, f: int) { s.anchor.Some? && s.anchor.value < f <= s.now && f > 0 && f % MINUTE_MS == 0 }

  ghost predicate SkipPending(s: Cron, f: int) { ToSkip(s.pending, s.key, f) && Fresh(s, f) }

  ghost predicate RunPending(s: Cron, f: int, c: ServiceConfig) {
    ToRun(s.pending, s.key, f, c) && Fresh(s, f) && KeyOf(c) == s.key && AllDeleted(s.live, s.pending)
  }

  /** The fire is recorded and its container is about to start in an empty place. */
  ghost predicate StartPending(s: Cron, f: int, c: ServiceConfig, floor: int) {
    && s.pending == [Run(c, 0, Some(f), None)] && s.anchor == Some(f) && s.live == [] && KeyOf(c) == s.key
    && floor < f <= s.now && f > 0 && forall g :: g in s.started ==> g < f
  }

  ghost predicate PendingOk(s: Cron, floor: int) {
    || JustDeletes(s.pending)
    || (exists f :: SkipPending(s, f))
    || (exists f, c :: RunPending(s, f, c))
    || (exists f, c :: StartPending(s, f, c, floor))
  }

  /** A container of a run in progress carries the latest fire started. */
  ghost predicate LatestRuns(s: Cron, floor: int) {
    forall r :: r in s.live && InProgress(r) ==> r.cronFireMs.value >= floor && forall f :: f in s.started ==> f <= r.cronFireMs.value
  }

  ghost predicate Safe(s: Cron, floor: int) {
    && Increasing(s.started) && (forall f :: f in s.started ==> floor < f <= s.now) && floor <= s.now
    && (s.anchor.Some? ==> s.anchor.value >= floor && forall f :: f in s.started ==> f <= s.anchor.value)
    && LatestRuns(s, floor) && |RunsInProgress(s.live)| <= 1
    && PendingOk(s, floor)
  }

  // ---- planning ----

  /** The fire that is due, given the labels of earlier runs and the anchor. */
  function DueNow(c: ServiceConfig, runs: Live, at: int, anchor: int): Option<int> {
    var schedule := ParseCronExpression(if c.cron.Some? then c.cron.value else "");
    var last := LastFireKnown(runs, Some(anchor));
    if schedule.None? || last.None? then None else DueCronFire(schedule.value, last.value, at)
  }

  /** A due fire is run when no run is in progress, and otherwise skipped; nothing else is done. */
  lemma DecisionFacts(c: ServiceConfig, runs: Live, at: int, anchor: int)
    ensures var d, due := CronDecision(c, runs, Some(CronPlanContext(at, map[KeyOf(c) := anchor]))), DueNow(c, runs, at, anchor);
            && (d.Noop? || d.CronSkip? || d.CronRun?) && d.config == c
            && (d.Noop? <==> due.None?)
            && (d.CronSkip? <==> due.Some? && exists r :: r in runs && Running(r))
            && (d.CronRun? <==> due.Some? && forall r :: r in runs ==> !Running(r))
            && (due.Some? ==> d.fireMs == due.value && anchor < d.fireMs <= at && d.fireMs > 0 && d.fireMs % MINUTE_MS == 0)
            && (d.CronRun? ==> d.previous == runs)
  {
    hide KeyOf, ParseCronExpression, DueCronFire, LabelFire, LastFireKnown, Fires;
    var schedule := ParseCronExpression(if c.cron.Some? then c.cron.value else "");
    LastKnown(runs, anchor);
    if schedule.Some? {
      DueBetween(schedule.value, LastFireKnown(runs, Some(anchor)).value, at);
    }
  }

  lemma LastKnown(runs: Live, anchor: int)
    ensures var last := LastFireKnown(runs, Some(anchor)); last.Some? && last.value >= anchor && last.value >= 0
  {
    hide LabelFire;
  }

  lemma DueBetween(s: CronSchedule, last: int, at: int)
    ensures var due := DueCronFire(s, last, at); due.Some? ==> last < due.value <= at && due.value % MINUTE_MS == 0
  {
    hide DueCronFire, FiresAt;
    DueCronFireIsGreatest(s, last, at);
  }

  lemma {:induction false} DeletesFacts(replicas: Live)
    ensures JustDeletes(Deletes(replicas)) && AllDeleted(replicas, Deletes(replicas))
    decreases |replicas|
  {
    if replicas != [] {
      var front, last := replicas[..|replicas| - 1], replicas[|replicas| - 1];
      DeletesFacts(front);
      SplitLast(replicas);
      var p := Deletes(replicas);
      assert p == Deletes(front) + [Delete(last.id)];
      assert p[|p| - 1] == Delete(last.id);
      forall r | r in replicas ensures Delete(r.id) in p {
        if r in front { assert Delete(r.id) in Deletes(front); }
      }
    }
  }

  lemma {:induction false} ToSkipAfter(pre: seq<Effect>, key: string, f: int)
    requires JustDeletes(pre)
    ensures ToSkip(pre + [RecordFire(key, f)], key, f)
    decreases |pre|
  {
    var p := pre + [RecordFire(key, f)];
    if pre != [] {
      ToSkipAfter(pre[1..], key, f);
      assert p[1..] == pre[1..] + [RecordFire(key, f)];
    }
  }

  lemma {:induction false} ToRunAfter(pre: seq<Effect>, key: string, f: int, c: ServiceConfig)
    requires forall i :: 0 <= i < |pre| ==> pre[i].Delete? || pre[i].Pull?
    ensures ToRun(pre + [RecordFire(key, f), Run(c, 0, Some(f), None)], key, f, c)
    decreases |pre|
  {
    var p := pre + [RecordFire(key, f), Run(c, 0, Some(f), None)];
    if pre != [] {
      ToRunAfter(pre[1..], key, f, c);
      assert p[1..] == pre[1..] + [RecordFire(key, f), Run(c, 0, Some(f), None)];
    }
  }

  lemma ScriptsOne(a: Action)
    requires !a.RollOut?
    ensures Scripts([a]) == Script(a)
  {
    hide Script;
    assert Scripts([a]) == Script(a) + Scripts([a][1..]);
  }

  lemma ScriptsTwo(a: Action, b: Action)
    requires !a.RollOut? && !b.RollOut?
    ensures Scripts([a, b]) == Script(a) + Script(b)
  {
    hide Script;
    assert [a, b][1..] == [b];
    ScriptsOne(b);
  }

  /** The tick's effects: removals of leftovers, then what the decision takes. */
  lemma TickEffects(s: Cron, c: ServiceConfig, at: int)
    requires Scheduled(c, s.key)
    ensures var d := CronDecision(c, CronRuns(s.live), Some(CronPlanContext(at, map[s.key := SeedAnchor(s.live, s.anchor, at)])));
            !d.RollOut? && AfterTick(s, c, at).pending == Deletes(LongRunning(s.live)) + Script(d)
  {
    hide Keep, KeyOf, CronDecision, Script, SeedAnchor, Scripts;
    var ctx := Some(CronPlanContext(at, map[s.key := SeedAnchor(s.live, s.anchor, at)]));
    var d := CronDecision(c, CronRuns(s.live), ctx);
    PlannedNoRollout(s, c, at);
    assert d == Planned(s, c, at)[|Planned(s, c, at)| - 1];
    var stale := LongRunning(s.live);
    if stale == [] {
      assert Planned(s, c, at) == [d];
      ScriptsOne(d);
      assert Deletes(stale) == [];
      assert Script(d) == [] + Script(d);
    } else {
      assert Planned(s, c, at) == [Remove(s.key, stale), d];
      ScriptsTwo(Remove(s.key, stale), d);
      RemoveScript(s.key, stale);
    }
  }

  lemma RemoveScript(key: string, stale: Live)
    ensures Script(Remove(key, stale)) == Deletes(stale)
  {
  }

  lemma LabelledOrNot(live: Live)
    ensures forall r :: r in live ==> r in LongRunning(live) || r in CronRuns(live)
  {
    hide Keep;
  }

  /** What a tick leaves to do, by its decision. */
  lemma TickDecides(s: Cron, c: ServiceConfig, at: int)
    requires Scheduled(c, s.key) && at >= s.now
    ensures var t := AfterTick(s, c, at);
            var d := CronDecision(c, CronRuns(s.live), Some(CronPlanContext(at, map[s.key := SeedAnchor(s.live, s.anchor, at)])));
            && (d.Noop? || d.CronSkip? || d.CronRun?)
            && (d.Noop? ==> JustDeletes(t.pending))
            && (d.CronSkip? ==> SkipPending(t, d.fireMs))
            && (d.CronRun? ==> RunPending(t, d.fireMs, c))
  {
    hide Keep, KeyOf, CronDecision, DueNow, SeedAnchor, Scripts, ToRun, ToSkip, JustDeletes, Planned;
    var t := AfterTick(s, c, at);
    var anchor := SeedAnchor(s.live, s.anchor, at);
    var runs, stale := CronRuns(s.live), LongRunning(s.live);
    TickEffects(s, c, at);
    DecisionFacts(c, runs, at, anchor);
    var d := CronDecision(c, runs, Some(CronPlanContext(at, map[s.key := anchor])));
    DeletesFacts(stale);
    DeletesFacts(runs);
    if d.Noop? {
      assert Deletes(stale) + [] == Deletes(stale);
    } else if d.CronSkip? {
      ToSkipAfter(Deletes(stale), s.key, d.fireMs);
      assert SkipPending(t, d.fireMs);
    } else {
      var pre := Deletes(stale) + [Pull(c.image)] + Deletes(runs);
      var end := [RecordFire(s.key, d.fireMs), Run(c, 0, Some(d.fireMs), None)];
      assert t.pending == pre + end;
      OnlyDeletesAndPulls(Deletes(stale), c.image, Deletes(runs));
      ToRunAfter(pre, s.key, d.fireMs, c);
      LabelledOrNot(s.live);
      forall r | r in s.live ensures Delete(r.id) in t.pending {
        assert Delete(r.id) in Deletes(stale) || Delete(r.id) in Deletes(runs);
      }
      assert RunPending(t, d.fireMs, c);
    }
  }

  lemma TickPending(s: Cron, c: ServiceConfig, at: int, floor: int)
    requires Scheduled(c, s.key) && at >= s.now
    ensures PendingOk(AfterTick(s, c, at), floor)
  {
    hide Keep, KeyOf, CronDecision, SeedAnchor, JustDeletes, SkipPending, RunPending, AfterTick, Scheduled;
    TickDecides(s, c, at);
  }

  lemma OnlyDeletesAndPulls(a: seq<Effect>, image: string, b: seq<Effect>)
    requires JustDeletes(a) && JustDeletes(b)
    ensures var pre := a + [Pull(image)] + b; forall i :: 0 <= i < |pre| ==> pre[i].Delete? || pre[i].Pull?
  {
  }

  lemma SeedFacts(s: Cron, at: int, floor: int)
    requires Safe(s, floor) && at >= s.now
    ensures var a := SeedAnchor(s.live, s.anchor, at); a >= floor && forall f :: f in s.started ==> f <= a
  {
    hide Keep, PendingOk;
    var m := LabelFire(RunsInProgress(s.live));
    if s.anchor.None? && m > 0 {
      var r :| r in RunsInProgress(s.live) && r.cronFireMs == Some(m);
      assert InProgress(r);
    }
  }

  lemma TickSafe(s: Cron, c: ServiceConfig, at: int, floor: int)
    requires Safe(s, floor) && Scheduled(c, s.key) && at >= s.now
    ensures Safe(AfterTick(s, c, at), floor)
  {
    hide Keep, KeyOf, SeedAnchor, Scripts, PendingOk, Planned, InProgress;
    TickPending(s, c, at, floor);
    SeedFacts(s, at, floor);
  }

  // ---- effects ----

  lemma FewerInProgress(live: Live, ids: set<nat>)
    ensures |RunsInProgress(Without(live, ids))| <= |RunsInProgress(live)|
  {
    hide Keep;
    KeepTwice(live, IdNotIn(ids), IsInProgress());
  }

  lemma DeleteSafe(s: Cron, id: nat, floor: int)
    requires Safe(s, floor) && s.pending != [] && s.pending[0] == Delete(id)
    ensures Safe(s.(live := Without(s.live, {id}), pending := s.pending[1..]), floor)
  {
    hide Keep, KeyOf, InProgress;
    var t := s.(live := Without(s.live, {id}), pending := s.pending[1..]);
    FewerInProgress(s.live, {id});
    if f :| SkipPending(s, f) {
      assert SkipPending(t, f);
    } else if f, c :| RunPending(s, f, c) {
      forall r | r in t.live ensures Delete(r.id) in t.pending {
        assert Delete(r.id) in s.pending && Delete(r.id) != s.pending[0];
      }
      assert RunPending(t, f, c);
    } else {
      assert JustDeletes(t.pending);
    }
  }

  lemma PullSafe(s: Cron, image: string, floor: int)
    requires Safe(s, floor) && s.pending != [] && s.pending[0] == Pull(image)
    ensures Safe(s.(pending := s.pending[1..]), floor)
  {
    hide Keep, KeyOf, InProgress;
    var t := s.(pending := s.pending[1..]);
    var f, c :| RunPending(s, f, c);
    forall r | r in t.live ensures Delete(r.id) in t.pending {
      assert Delete(r.id) in s.pending && Delete(r.id) != s.pending[0];
    }
    assert RunPending(t, f, c);
  }

  lemma DropSafe(s: Cron, floor: int)
    requires Safe(s, floor)
    ensures Safe(s.(pending := []), floor) && Safe(s.(pending := [], anchor := None), floor)
  {
    hide Keep, InProgress;
    assert JustDeletes([]);
  }

  /** A pending record is of a fresh fire; it is the last effect of a skip, or the last but one of a run into an empty place. */
  lemma RecordPending(s: Cron, key: string, f: int, floor: int)
    requires Safe(s, floor) && s.pending != [] && s.pending[0] == RecordFire(key, f)
    ensures Fresh(s, f) && key == s.key
    ensures s.pending == [RecordFire(key, f)]
         || (s.live == [] && exists c :: KeyOf(c) == s.key && s.pending == [RecordFire(key, f), Run(c, 0, Some(f), None)])
  {
    hide Keep, KeyOf, InProgress, LatestRuns;
    if g :| SkipPending(s, g) {
      assert f == g;
    } else {
      var g, c :| RunPending(s, g, c);
      NoneLeft(s.live, s.pending);
    }
  }

  lemma NoneLeft(live: Live, p: seq<Effect>)
    requires AllDeleted(live, p)
    ensures (forall i :: 0 <= i < |p| ==> !p[i].Delete?) ==> live == []
  {
    if live != [] { assert live[0] in live; }
  }

  lemma RecordSafe(s: Cron, key: string, f: int, floor: int)
    requires Safe(s, floor) && s.pending != [] && s.pending[0] == RecordFire(key, f)
    ensures Safe(AfterEffect(s, Verdict.Done), floor)
  {
    hide Keep, KeyOf, InProgress;
    RecordPending(s, key, f, floor);
    var t := AfterEffect(s, Verdict.Done);
    if s.pending == [RecordFire(key, f)] {
      assert JustDeletes(t.pending);
    } else {
      var c :| KeyOf(c) == s.key && s.pending == [RecordFire(key, f), Run(c, 0, Some(f), None)];
      assert StartPending(t, f, c, floor);
    }
  }

  lemma StartOf(s: Cron, floor: int)
    requires Safe(s, floor) && s.pending != [] && s.pending[0].Run?
    ensures exists f, c :: StartPending(s, f, c, floor)
  {
    hide Keep, KeyOf, InProgress, LatestRuns;
  }

  lemma IncreasingAppend(s: seq<int>, f: int)
    requires Increasing(s) && forall g :: g in s ==> g < f
    ensures Increasing(s + [f])
  {
    var t := s + [f];
    forall i, j | 0 <= i < j < |t| ensures t[i] < t[j] {
      if j == |s| { assert t[i] in s; }
    }
  }

  lemma StartSafe(s: Cron, v: Verdict, floor: int)
    requires Safe(s, floor) && s.pending != [] && s.pending[0].Run? && !v.FailedBefore?
    ensures Safe(AfterEffect(s, v), floor)
  {
    hide Keep, KeyOf, ServiceConfigStamp;
    StartOf(s, floor);
    var f, c :| StartPending(s, f, c, floor);
    var t := AfterEffect(s, v);
    assert t.started == s.started + [f];
    assert t.live == [t.live[0]] && t.live[0].cronFireMs == Some(f);
    assert LatestRuns(t, floor);
    IncreasingAppend(s.started, f);
    assert forall g :: g in t.started ==> floor < g <= t.now;
    assert forall g :: g in t.started ==> g <= t.anchor.value;
    assert JustDeletes(t.pending);
    assert |RunsInProgress(t.live)| <= |t.live|;
  }

  lemma EffectSafe(s: Cron, v: Verdict, floor: int)
    requires Safe(s, floor) && s.pending != []
    ensures Safe(AfterEffect(s, v), floor)
  {
    hide Keep, KeyOf, InProgress, LatestRuns, PendingOk, Increasing, Safe;
    DropSafe(s, floor);
    match s.pending[0]
    case Delete(id) => DeleteSafe(s, id, floor);
    case Pull(image) => PullSafe(s, image, floor);
    case RecordFire(key, f) => if v.Done? { RecordSafe(s, key, f, floor); }
    case Run(_, _, _, _) => if !v.FailedBefore? { StartSafe(s, v, floor); }
    case _ => OtherEffects(s, floor);
  }

  lemma OtherEffects(s: Cron, floor: int)
    requires Safe(s, floor) && s.pending != []
    ensures s.pending[0].Delete? || s.pending[0].Pull? || s.pending[0].RecordFire? || s.pending[0].Run?
  {
    hide Keep, KeyOf, InProgress, LatestRuns;
  }

  // ---- any run ----

  lemma {:induction false} ExitKeeps(live: Live, id: nat, state: string)
    requires state != "running"
    ensures |RunsInProgress(Exited(live, id, state))| <= |RunsInProgress(live)|
    ensures forall r :: r in Exited(live, id, state) && InProgress(r) ==> r in live
    ensures forall r :: r in Exited(live, id, state) ==> exists q :: q in live && q.id == r.id
    decreases |live|
  {
    hide Keep;
    if live == [] {
      KeepNone(IsInProgress());
    } else {
      var front, last := live[..|live| - 1], live[|live| - 1];
      SplitLast(live);
      ExitKeeps(front, id, state);
      var e := if last.id == id && Running(last) then last.(state := state) else last;
      assert Exited(live, id, state) == Exited(front, id, state) + [e];
      KeepLast(Exited(front, id, state), e, IsInProgress());
      KeepLast(front, last, IsInProgress());
    }
  }

  lemma ExitSafe(s: Cron, id: nat, state: string, floor: int)
    requires Safe(s, floor) && state != "running"
    ensures Safe(s.(live := Exited(s.live, id, state)), floor)
  {
    hide Keep, KeyOf, InProgress, Exited;
    var t := s.(live := Exited(s.live, id, state));
    ExitKeeps(s.live, id, state);
    if f :| SkipPending(s, f) {
      assert SkipPending(t, f);
    } else if f, c :| RunPending(s, f, c) {
      forall r | r in t.live ensures Delete(r.id) in t.pending {
        var q :| q in s.live && q.id == r.id;
        assert Delete(q.id) in s.pending;
      }
      assert RunPending(t, f, c);
    } else if f, c :| StartPending(s, f, c, floor) {
      assert t.live == [];
      assert StartPending(t, f, c, floor);
    }
  }

  lemma ElapseSafe(s: Cron, at: int, floor: int)
    requires Safe(s, floor) && at >= s.now
    ensures Safe(s.(now := at), floor)
  {
    hide Keep, KeyOf, InProgress;
    var t := s.(now := at);
    if f :| SkipPending(s, f) {
      assert SkipPending(t, f);
    } else if f, c :| RunPending(s, f, c) {
      assert RunPending(t, f, c);
    } else if f, c :| StartPending(s, f, c, floor) {
      assert StartPending(t, f, c, floor);
    }
  }

  lemma StepSafe(s: Cron, e: Event, floor: int)
    requires Safe(s, floor)
    ensures Safe(Step(s, e), floor)
  {
    hide Safe, KeyOf, Scheduled, AfterTick, AfterEffect, Exited;
    DropSafe(s, floor);
    match e
    case Elapse(at) => if at >= s.now { ElapseSafe(s, at, floor); }
    case Tick(c, at) => if s.pending == [] && at >= s.now && Scheduled(c, s.key) { TickSafe(s, c, at, floor); }
    case Do(outcome) => if s.pending != [] { EffectSafe(s, outcome, floor); }
    case Exit(id, state) => if state != "running" { ExitSafe(s, id, state, floor); }
    case Crash =>
    case Lose =>
  }

  /** Where a schedule may begin: nothing started yet, and what is known is no older than `floor`. */
  ghost predicate Starts(s: Cron, floor: int) {
    && s.started == [] && s.recorded == [] && s.skipped == {} && s.pending == []
    && floor <= s.now && (s.anchor.Some? ==> floor <= s.anchor.value <= s.now)
    && |RunsInProgress(s.live)| <= 1
    && (forall r :: r in s.live && InProgress(r) ==> r.cronFireMs.value >= floor)
  }

  /**
   At most once: over any run, with crashes between any two effects and even with the
   durable record lost, the fires started strictly increase, so none is started twice; all
   lie after the first anchor and not in the future; and at most one run is in progress.
   */
  lemma {:induction false} AtMostOnce(s: Cron, events: seq<Event>, floor: int)
    requires Starts(s, floor)
    ensures var t := Steps(s, events);
            && Safe(t, floor)
            && Increasing(t.started) && (forall f :: f in t.started ==> floor < f <= t.now)
            && |RunsInProgress(t.live)| <= 1
    decreases |events|
  {
    hide Step, Keep, InProgress;
    if events == [] {
      assert JustDeletes(s.pending);
    } else {
      AtMostOnce(s, events[..|events| - 1], floor);
      StepSafe(Steps(s, events[..|events| - 1]), events[|events| - 1], floor);
    }
  }

  // ---- the durable record ----

  /** What is recorded, when the record has not been lost under a run in progress. */
  ghost predicate Ledger(s: Cron) {
    && Increasing(s.recorded) && (forall f :: f in s.recorded ==> f <= s.now && f % MINUTE_MS == 0)
    && (s.anchor.Some? ==> forall f :: f in s.recorded ==> f <= s.anchor.value)
    && (forall f :: f in s.started ==> f in s.recorded && f !in s.skipped)
    && (forall f :: f in s.skipped ==> f in s.recorded)
    && (forall c, index, f, j :: s.pending == [Run(c, index, Some(f), j)] ==> f in s.recorded && f !in s.skipped)
  }

  /** The anchor seeded on first sight forgets no recorded fire. */
  ghost predicate Remembers(s: Cron) {
    s.anchor.None? ==> forall r, f :: r in s.live && InProgress(r) && f in s.recorded ==> f <= r.cronFireMs.value
  }

  ghost predicate AlwaysRemembers(s: Cron, events: seq<Event>) {
    forall i :: 0 <= i < |events| && events[i].Tick? ==> Remembers(Steps(s, events[..i]))
  }

  lemma TickLedger(s: Cron, c: ServiceConfig, at: int, floor: int)
    requires Safe(s, floor) && Ledger(s) && Remembers(s) && Scheduled(c, s.key) && at >= s.now
    ensures Ledger(AfterTick(s, c, at))
  {
    hide Keep, KeyOf, Scripts, Planned, PendingOk, LatestRuns;
    var t := AfterTick(s, c, at);
    var m := LabelFire(RunsInProgress(s.live));
    if s.anchor.None? && m > 0 {
      var r :| r in RunsInProgress(s.live) && r.cronFireMs == Some(m);
      assert InProgress(r);
    }
    NoBareRun(s, c, at);
  }

  lemma NoBareRun(s: Cron, c: ServiceConfig, at: int)
    requires Scheduled(c, s.key) && at >= s.now
    ensures var p := AfterTick(s, c, at).pending; p == [] || !p[0].Run?
  {
    hide Keep, KeyOf, Scripts, Planned, SeedAnchor, CronDecision, DueNow;
    TickEffects(s, c, at);
    var anchor := SeedAnchor(s.live, s.anchor, at);
    DecisionFacts(c, CronRuns(s.live), at, anchor);
    DeletesFacts(LongRunning(s.live));
  }

  lemma EffectLedger(s: Cron, v: Verdict, floor: int)
    requires Safe(s, floor) && Ledger(s) && s.pending != []
    ensures Ledger(AfterEffect(s, v))
  {
    hide Keep, KeyOf, PendingOk, LatestRuns, ServiceConfigStamp, Safe, Ledger, Without, NewReplica;
    DropLedger(s);
    match s.pending[0]
    case RecordFire(key, f) => if v.Done? { RecordLedger(s, key, f, floor); }
    case Run(_, _, _, _) => if !v.FailedBefore? { StartLedger(s, v, floor); }
    case Delete(id) => PopLedger(s, Without(s.live, {id}), floor);
    case Pull(_) => PopLedger(s, s.live, floor);
    case _ => OtherEffects(s, floor);
  }

  lemma DropLedger(s: Cron)
    requires Ledger(s)
    ensures Ledger(s.(pending := []))
  {
  }

  lemma PopLedger(s: Cron, live: Live, floor: int)
    requires Safe(s, floor) && Ledger(s) && s.pending != [] && (s.pending[0].Delete? || s.pending[0].Pull?)
    ensures Ledger(s.(live := live, pending := s.pending[1..]))
  {
    hide Safe;
    MorePending(s, floor);
  }

  lemma RecordLedger(s: Cron, key: string, f: int, floor: int)
    requires Safe(s, floor) && Ledger(s) && s.pending != [] && s.pending[0] == RecordFire(key, f)
    ensures Ledger(AfterEffect(s, Verdict.Done))
  {
    hide Keep, KeyOf, PendingOk, LatestRuns, Increasing;
    RecordPending(s, key, f, floor);
    IncreasingAppend(s.recorded, f);
  }

  lemma StartLedger(s: Cron, v: Verdict, floor: int)
    requires Safe(s, floor) && Ledger(s) && s.pending != [] && s.pending[0].Run? && !v.FailedBefore?
    ensures Ledger(AfterEffect(s, v))
  {
    hide Keep, KeyOf, PendingOk, LatestRuns, NewReplica, Increasing;
    StartOf(s, floor);
    var f, c :| StartPending(s, f, c, floor);
    assert AfterEffect(s, v).started == s.started + [f];
  }

  /** A removal or a pull is never directly followed by a run. */
  lemma MorePending(s: Cron, floor: int)
    requires Safe(s, floor) && s.pending != [] && (s.pending[0].Delete? || s.pending[0].Pull?)
    ensures |s.pending| == 1 || !s.pending[1].Run?
  {
    hide Keep, KeyOf, InProgress, LatestRuns;
    if f, c :| RunPending(s, f, c) {
      assert ToRun(s.pending[1..], s.key, f, c);
    } else if f :| SkipPending(s, f) {
      assert ToSkip(s.pending[1..], s.key, f);
    }
  }

  lemma StepLedger(s: Cron, e: Event, floor: int)
    requires Safe(s, floor) && Ledger(s) && (e.Tick? ==> Remembers(s))
    ensures Ledger(Step(s, e))
  {
    hide Safe, KeyOf, Scheduled, AfterTick, AfterEffect, Exited, InProgress;
    match e
    case Elapse(at) =>
    case Tick(c, at) => if s.pending == [] && at >= s.now && Scheduled(c, s.key) { TickLedger(s, c, at, floor); }
    case Do(outcome) => if s.pending != [] { EffectLedger(s, outcome, floor); }
    case Exit(id, state) =>
    case Crash =>
    case Lose =>
  }

  /**
   While no anchor is seeded below a recorded fire, recorded fires strictly increase, a
   container is started only for a recorded fire, and a skipped fire is never run later.
   */
  lemma {:induction false} SkippedNeverRuns(s: Cron, events: seq<Event>, floor: int)
    requires Starts(s, floor) && AlwaysRemembers(s, events)
    ensures var t := Steps(s, events);
            && Ledger(t) && Increasing(t.recorded)
            && (forall f :: f in t.started ==> f in t.recorded)
            && (forall f :: f in t.skipped ==> f !in t.started)
    decreases |events|
  {
    hide Step, Keep, InProgress, Safe, Remembers;
    if events != [] {
      var front := events[..|events| - 1];
      forall i | 0 <= i < |front| && front[i].Tick? ensures Remembers(Steps(s, front[..i])) {
        assert front[..i] == events[..i] && front[i] == events[i];
      }
      SkippedNeverRuns(s, front, floor);
      AtMostOnce(s, front, floor);
      StepLedger(Steps(s, front), events[|events| - 1], floor);
    }
  }

  /** Without loss of the durable record the anchor always remembers. */
  lemma {:induction false} NoLossRemembers(s: Cron, events: seq<Event>, floor: int)
    requires Starts(s, floor) && forall i :: 0 <= i < |events| ==> !events[i].Lose?
    ensures AlwaysRemembers(s, events) && (Steps(s, events).anchor.Some? || Steps(s, events).recorded == [])
    decreases |events|
  {
    hide Keep, InProgress, AfterTick, Scheduled;
    if events != [] {
      var front, e := events[..|events| - 1], events[|events| - 1];
      NoLossRemembers(s, front, floor);
      forall i | 0 <= i < |events| && events[i].Tick? ensures Remembers(Steps(s, events[..i])) {
        if i < |front| { assert front[..i] == events[..i] && front[i] == events[i]; }
        else { assert events[..i] == front; }
      }
      if e.Tick? { TickAnchors(Steps(s, front), e.c, e.at); }
    }
  }

  lemma TickAnchors(s: Cron, c: ServiceConfig, at: int)
    ensures AfterTick(s, c, at).anchor.Some? && AfterTick(s, c, at).recorded == s.recorded
  {
    hide SeedAnchor, Scripts, Planned;
  }

  // ---- what losing the record costs ----

  /** One container of fire `g`, and `m` the fire due after it. */
  ghost predicate Lone(s: Cron, c: ServiceConfig, r: ManagedReplica, g: int, m: int, at: int) {
    && s.live == [r] && r.cronFireMs == Some(g) && g > 0 && s.pending == []
    && Scheduled(c, s.key) && ParseCronExpression(c.cron.value).Some?
    && DueCronFire(ParseCronExpression(c.cron.value).value, g, at) == Some(m)
    && s.now <= at && SeedAnchor(s.live, s.anchor, at) == g
  }

  lemma OneRun(r: ManagedReplica, g: int)
    requires r.cronFireMs == Some(g) && g > 0
    ensures CronRuns([r]) == [r] && LongRunning([r]) == [] && LabelFire([r]) == g
    ensures RunsInProgress([r]) == if Running(r) then [r] else []
    ensures LabelFire([]) == 0
  {
    assert [r][..0] == [];
  }

  lemma LoneTick(s: Cron, c: ServiceConfig, r: ManagedReplica, g: int, m: int, at: int)
    requires Lone(s, c, r, g, m, at)
    ensures Step(s, Tick(c, at)) == s.(now := at, anchor := Some(g), pending :=
              if Running(r) then [RecordFire(s.key, m)]
              else [Pull(c.image), Delete(r.id), RecordFire(s.key, m), Run(c, 0, Some(m), None)])
  {
    hide Keep, KeyOf, ParseCronExpression, SeedAnchor, Scripts, Planned, CronDecision, DueCronFire, Deletes, Script, LabelFire;
    OneRun(r, g);
    TickEffects(s, c, at);
    var ctx := Some(CronPlanContext(at, map[s.key := g]));
    var d := CronDecision(c, [r], ctx);
    LoneDecision(c, r, g, m, at, s.key);
    LoneScript(c, r, m, s.key);
    assert [] + Script(d) == Script(d);
  }

  lemma LoneScript(c: ServiceConfig, r: ManagedReplica, m: int, key: string)
    requires KeyOf(c) == key
    ensures Deletes([]) == [] && Script(CronSkip(c, m)) == [RecordFire(key, m)]
    ensures Script(CronRun(c, m, [r])) == [Pull(c.image), Delete(r.id), RecordFire(key, m), Run(c, 0, Some(m), None)]
  {
    assert [r][..0] == [];
    assert Deletes([r]) == [Delete(r.id)];
  }

  lemma LoneDecision(c: ServiceConfig, r: ManagedReplica, g: int, m: int, at: int, key: string)
    requires r.cronFireMs == Some(g) && g > 0 && Scheduled(c, key) && ParseCronExpression(c.cron.value).Some?
    requires DueCronFire(ParseCronExpression(c.cron.value).value, g, at) == Some(m)
    ensures CronDecision(c, [r], Some(CronPlanContext(at, map[key := g]))) == if Running(r) then CronSkip(c, m) else CronRun(c, m, [r])
  {
    hide KeyOf, ParseCronExpression, Keep;
    OneRun(r, g);
    assert r in [r];
  }

  /** The fire of a run in progress is recorded as skipped; then the record is lost. */
  lemma SkipThenLose(s: Cron, c: ServiceConfig, r: ManagedReplica, g: int, m: int, at: int)
    requires Lone(s, c, r, g, m, at) && Running(r)
    ensures var t := Step(Step(Step(s, Tick(c, at)), Do(Verdict.Done)), Lose);
            t == s.(now := at, anchor := None, pending := [], recorded := s.recorded + [m], skipped := s.skipped + {m})
  {
    hide *;
    LoneTick(s, c, r, g, m, at);
    var t := s.(now := at, anchor := Some(g), pending := [RecordFire(s.key, m)]);
    RecordsSkip(t, m);
    Loses(Step(t, Do(Verdict.Done)));
  }

  lemma RecordsSkip(s: Cron, m: int)
    requires s.pending == [RecordFire(s.key, m)]
    ensures Step(s, Do(Verdict.Done)) == s.(anchor := Some(m), recorded := s.recorded + [m], pending := [], skipped := s.skipped + {m})
  {
  }

  lemma Loses(s: Cron)
    ensures Step(s, Lose) == s.(pending := [], anchor := None)
  {
  }

  lemma SeedsFromLabel(live: Live, r: ManagedReplica, g: int, at: int)
    requires live == [r] && r.cronFireMs == Some(g) && g > 0 && Running(r)
    ensures SeedAnchor(live, None, at) == g && SeedAnchor(live, Some(g), at) == g
  {
    OneRun(r, g);
  }

  lemma ExitOne(r: ManagedReplica)
    requires Running(r)
    ensures Exited([r], r.id, "exited") == [r.(state := "exited")]
  {
    assert [r][..0] == [];
  }

  /**
   Losing the record under a run in progress defeats both promises, whatever the schedule:
   re-seeded from the run's label, the agent records a fire twice, and if it then crashes
   before recording and the run exits, it runs a fire it had skipped.
   */
  lemma LossRepeatsASkippedFire(s: Cron, c: ServiceConfig, r: ManagedReplica, g: int, m: int, t1: int, t2: int, t3: int)
    requires Lone(s, c, r, g, m, t1) && Running(r) && t1 <= t2 <= t3
    requires var schedule := ParseCronExpression(c.cron.value).value;
             DueCronFire(schedule, g, t2) == Some(m) && DueCronFire(schedule, g, t3) == Some(m)
    ensures var lost := Step(Step(Step(s, Tick(c, t1)), Do(Verdict.Done)), Lose);
            var again := Step(Step(lost, Tick(c, t2)), Do(Verdict.Done));
            again.recorded == s.recorded + [m] + [m]
    ensures var lost := Step(Step(Step(s, Tick(c, t1)), Do(Verdict.Done)), Lose);
            var idle := Step(Step(Step(lost, Tick(c, t2)), Crash), Exit(r.id, "exited"));
            var ran := Step(Step(Step(Step(Step(idle, Tick(c, t3)), Do(Verdict.Done)), Do(Verdict.Done)), Do(Verdict.Done)), Do(Verdict.Done));
            m in ran.skipped && m in ran.started
  {
    hide *;
    LoneLive(s, c, r, g, m, t1);
    SkipThenLose(s, c, r, g, m, t1);
    var lost := Step(Step(Step(s, Tick(c, t1)), Do(Verdict.Done)), Lose);
    LoneAgain(s, lost, c, r, g, m, t1, t2);
    LoneTick(lost, c, r, g, m, t2);
    RecordsSkip(Step(lost, Tick(c, t2)), m);
    var idle := Step(Step(Step(lost, Tick(c, t2)), Crash), Exit(r.id, "exited"));
    CrashAndExit(Step(lost, Tick(c, t2)), r);
    LoneExited(s, idle, c, r, g, m, t1, t3);
    LoneTick(idle, c, r.(state := "exited"), g, m, t3);
    NotRunningNow(r);
    RunThrough(Step(idle, Tick(c, t3)), c, r.id, m);
  }

  lemma LoneLive(s: Cron, c: ServiceConfig, r: ManagedReplica, g: int, m: int, at: int)
    requires Lone(s, c, r, g, m, at)
    ensures s.live == [r] && s.pending == []
  {
    hide SeedAnchor, Scheduled, ParseCronExpression;
  }

  lemma NotRunningNow(r: ManagedReplica)
    ensures !Running(r.(state := "exited"))
  {
  }

  lemma LoneAgain(s: Cron, lost: Cron, c: ServiceConfig, r: ManagedReplica, g: int, m: int, t1: int, t2: int)
    requires Lone(s, c, r, g, m, t1) && Running(r) && t1 <= t2
    requires lost.live == s.live && lost.key == s.key && lost.now == t1 && lost.anchor == None && lost.pending == []
    requires DueCronFire(ParseCronExpression(c.cron.value).value, g, t2) == Some(m)
    ensures Lone(lost, c, r, g, m, t2)
  {
    hide SeedAnchor, Scheduled, ParseCronExpression;
    SeedsFromLabel(s.live, r, g, t2);
  }

  lemma CrashAndExit(s: Cron, r: ManagedReplica)
    requires s.live == [r] && Running(r)
    ensures Step(Step(s, Crash), Exit(r.id, "exited")) == s.(pending := [], live := [r.(state := "exited")])
  {
    hide Exited;
    ExitOne(r);
  }

  lemma LoneExited(s: Cron, idle: Cron, c: ServiceConfig, r: ManagedReplica, g: int, m: int, t1: int, t3: int)
    requires Lone(s, c, r, g, m, t1) && idle.now <= t3
    requires idle.live == [r.(state := "exited")] && idle.key == s.key && idle.anchor == Some(g) && idle.pending == []
    requires DueCronFire(ParseCronExpression(c.cron.value).value, g, t3) == Some(m)
    ensures Lone(idle, c, r.(state := "exited"), g, m, t3)
  {
    hide SeedAnchor, Scheduled, ParseCronExpression;
    SeedKept(idle.live, g, t3);
  }

  lemma SeedKept(live: Live, g: int, at: int)
    ensures SeedAnchor(live, Some(g), at) == g
  {
  }

  lemma RunThrough(s: Cron, c: ServiceConfig, id: nat, m: int)
    requires s.pending == [Pull(c.image), Delete(id), RecordFire(s.key, m), Run(c, 0, Some(m), None)]
    ensures var t := Step(Step(Step(Step(s, Do(Verdict.Done)), Do(Verdict.Done)), Do(Verdict.Done)), Do(Verdict.Done));
            t.started == s.started + [m] && t.skipped == s.skipped
  {
    hide Without, NewReplica;
  }
}
