/**
 The reconcile planner (`reconcile.rs`): a pure diff of desired services against live
 containers. The functions say what is planned; `PlanReconcile` computes it the way the
 agent does, appending to one list of actions.
 */
module Planner {
  import opened Common
  import opened Text
  import opened Types
  import opened Lists
  import opened Stamp
  import opened CronScan
  import opened CronParser

  datatype Action =
    | Create(config: ServiceConfig, index: int)
    | Start(config: ServiceConfig, index: int, id: nat)
    | ScaleDown(config: ServiceConfig, remove: seq<ManagedReplica>)
    | RollOut(config: ServiceConfig, replicas: seq<ManagedReplica>)
    | Remove(key: string, replicas: seq<ManagedReplica>)
    | CronRun(config: ServiceConfig, fireMs: int, previous: seq<ManagedReplica>)
    | JobRun(config: ServiceConfig, previous: seq<ManagedReplica>)
    | CronSkip(config: ServiceConfig, fireMs: int)
    | BackupRun(config: ServiceConfig, fireMs: int)
    | Noop(config: ServiceConfig)

  datatype CronPlanContext = CronPlanContext(nowMs: int, lastFires: map<string, int>)

  /** One service's live containers; inspection lists groups in increasing key order. */
  datatype Group = Group(key: string, replicas: seq<ManagedReplica>)

  function Lookup(actual: seq<Group>, key: string): seq<ManagedReplica> {
    if actual == [] then []
    else if actual[0].key == key then actual[0].replicas
    else Lookup(actual[1..], key)
  }

  /** A live replica must be replaced: image, resources or runtime-config stamp differ. */
  predicate NeedsReplace(r: ManagedReplica, c: ServiceConfig) {
    r.image != c.image || r.cpu != c.cpu || r.memory != c.memory || r.configStamp != ServiceConfigStamp(c)
  }

  // ---- selections from a replica list, in order ----

  function DriftsFrom(c: ServiceConfig): ManagedReplica -> bool { (r: ManagedReplica) => NeedsReplace(r, c) }

  function Matches(c: ServiceConfig): ManagedReplica -> bool { (r: ManagedReplica) => !NeedsReplace(r, c) }

  function NotRunning(): ManagedReplica -> bool { (r: ManagedReplica) => !Running(r) }

  function HasFireLabel(): ManagedReplica -> bool { (r: ManagedReplica) => r.cronFireMs.Some? }

  function NoFireLabel(): ManagedReplica -> bool { (r: ManagedReplica) => r.cronFireMs.None? }

  function Drifted(s: seq<ManagedReplica>, c: ServiceConfig): seq<ManagedReplica> { Keep(s, DriftsFrom(c)) }

  function Matching(s: seq<ManagedReplica>, c: ServiceConfig): seq<ManagedReplica> { Keep(s, Matches(c)) }

  function Stopped(s: seq<ManagedReplica>): seq<ManagedReplica> { Keep(s, NotRunning()) }

  /** The containers of scheduled runs: those that carry a fire label. */
  function CronRuns(s: seq<ManagedReplica>): seq<ManagedReplica> { Keep(s, HasFireLabel()) }

  /** Leftovers of a former life as a long-running service. */
  function LongRunning(s: seq<ManagedReplica>): seq<ManagedReplica> { Keep(s, NoFireLabel()) }

  function Indices(s: seq<ManagedReplica>): set<int> { set r | r in s :: r.index }

  // ---- cron, job and backup decisions ----

  /** The greatest fire label, or 0. */
  function LabelFire(runs: seq<ManagedReplica>): (m: int)
    ensures m >= 0
    ensures forall r :: r in runs && r.cronFireMs.Some? ==> r.cronFireMs.value <= m
    ensures m == 0 || exists r :: r in runs && r.cronFireMs == Some(m)
  {
    if runs == [] then 0
    else
      var r := runs[|runs| - 1];
      Max(LabelFire(runs[..|runs| - 1]), if r.cronFireMs.Some? then r.cronFireMs.value else 0)
  }

  /** The last fire known, from the label or the durable record; none means "unanchored". */
  function LastFireKnown(runs: seq<ManagedReplica>, anchored: Option<int>): Option<int> {
    if LabelFire(runs) == 0 && anchored.None? then None
    else Some(Max(LabelFire(runs), if anchored.Some? then anchored.value else 0))
  }

  function Anchor(ctx: CronPlanContext, key: string): Option<int> {
    if key in ctx.lastFires then Some(ctx.lastFires[key]) else None
  }

  /** What a schedule decides, once stale long-running leftovers are set aside. */
  function CronDecision(c: ServiceConfig, runs: seq<ManagedReplica>, ctx: Option<CronPlanContext>): Action {
    var schedule := ParseCronExpression(if c.cron.Some? then c.cron.value else "");
    if ctx.None? || schedule.None? then Noop(c)
    else
      var last := LastFireKnown(runs, Anchor(ctx.value, KeyOf(c)));
      if last.None? then Noop(c)
      else
        var due := DueCronFire(schedule.value, last.value, ctx.value.nowMs);
        if due.None? then Noop(c)
        else if exists r :: r in runs && Running(r) then CronSkip(c, due.value)
        else CronRun(c, due.value, runs)
  }

  function PlanCron(c: ServiceConfig, have: seq<ManagedReplica>, ctx: Option<CronPlanContext>): seq<Action> {
    var stale := LongRunning(have);
    (if stale != [] then [Remove(KeyOf(c), stale)] else []) + [CronDecision(c, CronRuns(have), ctx)]
  }

  function PlanJob(c: ServiceConfig, have: seq<ManagedReplica>): seq<Action> {
    if c.jobRun.None? then []
    else if exists r :: r in have && r.jobRunId == Some(c.jobRun.value.id) then [Noop(c)]
    else if exists r :: r in have && r.jobRunId.Some? && Running(r) then [Noop(c)]
    else [JobRun(c, have)]
  }

  function BackupStateKey(key: string): string { "backup:" + key }

  function PlanBackup(c: ServiceConfig, have: seq<ManagedReplica>, ctx: Option<CronPlanContext>): seq<Action> {
    if c.backup.None? || ctx.None? then []
    else
      var last := Anchor(ctx.value, BackupStateKey(KeyOf(c)));
      var schedule := ParseCronExpression(c.backup.value.schedule);
      if last.None? || schedule.None? then []
      else
        var due := DueCronFire(schedule.value, last.value, ctx.value.nowMs);
        if due.None? || !(exists r :: r in have && Running(r)) then []
        else [BackupRun(c, due.value)]
  }

  // ---- replica counts ----

  function Starts(c: ServiceConfig, stopped: seq<ManagedReplica>): (r: seq<Action>)
    ensures |r| == |stopped|
    ensures forall i :: 0 <= i < |r| ==> r[i] == Start(c, stopped[i].index, stopped[i].id)
  {
    if stopped == [] then []
    else
      var last := stopped[|stopped| - 1];
      Starts(c, stopped[..|stopped| - 1]) + [Start(c, last.index, last.id)]
  }

  /** The least index from `idx` up that is not used. */
  function NextFree(used: set<int>, idx: int): (k: int)
    ensures k >= idx && k !in used
    ensures forall j :: idx <= j < k ==> j in used
    decreases |used|
  {
    if idx in used then
      var k := NextFree(used - {idx}, idx + 1);
      assert forall j :: idx <= j < k ==> j in used by {
        forall j | idx <= j < k ensures j in used {
          if j > idx { assert j in used - {idx}; }
        }
      }
      k
    else idx
  }

  /** The `n` least unused indices from `idx` up. */
  function FreeIndices(used: set<int>, idx: int, n: int): (r: seq<int>)
    ensures |r| == Max(0, n)
    decreases n
  {
    if n <= 0 then []
    else
      var k := NextFree(used, idx);
      [k] + FreeIndices(used + {k}, k + 1, n - 1)
  }

  /** `r` lists unused indices from `idx` up in increasing order, skipping none. */
  ghost predicate SmallestUnused(used: set<int>, idx: int, r: seq<int>) {
    && (forall i :: 0 <= i < |r| ==> r[i] >= idx && r[i] !in used)
    && (forall i, j :: 0 <= i < j < |r| ==> r[i] < r[j])
    && (forall i, k :: 0 <= i < |r| && idx <= k < r[i] && k !in used ==> k in r)
  }

  /** Planned indices are exactly the smallest unused ones, as many as asked for, in order. */
  lemma {:induction false} FreeIndicesSmallest(used: set<int>, idx: int, n: int)
    ensures SmallestUnused(used, idx, FreeIndices(used, idx, n))
    decreases n
  {
    if n > 0 {
      var k := NextFree(used, idx);
      FreeIndicesSmallest(used + {k}, k + 1, n - 1);
      PrependSmallest(used, idx, k, FreeIndices(used + {k}, k + 1, n - 1));
    }
  }

  lemma PrependSmallest(used: set<int>, idx: int, k: int, rest: seq<int>)
    requires idx <= k && k !in used && forall j :: idx <= j < k ==> j in used
    requires SmallestUnused(used + {k}, k + 1, rest)
    ensures SmallestUnused(used, idx, [k] + rest)
  {
    var r := [k] + rest;
    assert forall i :: 0 < i < |r| ==> r[i] == rest[i - 1];
    forall i, j | 0 <= i < |r| && idx <= j < r[i] && j !in used ensures j in r {
      if j > k {
        assert j in rest;
      } else {
        assert r[0] == j;
      }
    }
  }

  function Creates(c: ServiceConfig, indices: seq<int>): (r: seq<Action>)
    ensures |r| == |indices| && forall i :: 0 <= i < |r| ==> r[i] == Create(c, indices[i])
  {
    if indices == [] then [] else [Create(c, indices[0])] + Creates(c, indices[1..])
  }

  function InsertDescending(r: ManagedReplica, s: seq<ManagedReplica>): (t: seq<ManagedReplica>)
    ensures multiset(t) == multiset(s) + multiset{r}
  {
    if s == [] || s[0].index < r.index then [r] + s
    else
      assert s == [s[0]] + s[1..];
      [s[0]] + InsertDescending(r, s[1..])
  }

  /** Highest indices first; replicas of one index keep their order. */
  function SortDescending(s: seq<ManagedReplica>): (t: seq<ManagedReplica>)
    ensures multiset(t) == multiset(s) && |t| == |s|
  {
    if s == [] then []
    else
      assert s == s[..|s| - 1] + [s[|s| - 1]];
      var t := InsertDescending(s[|s| - 1], SortDescending(s[..|s| - 1]));
      assert |multiset(t)| == |multiset(s)|;
      t
  }

  /** The replicas beyond the wanted count; wanting fewer than none removes them all. */
  function Extras(have: seq<ManagedReplica>, replicas: int): seq<ManagedReplica>
    requires |have| > replicas
  {
    SortDescending(have)[..Min(|have| - replicas, |have|)]
  }

  /** Grow, shrink, or note that nothing is missing. */
  function PlanCount(c: ServiceConfig, have: seq<ManagedReplica>): seq<Action> {
    if |have| < c.replicas then Creates(c, FreeIndices(Indices(have), 0, c.replicas - |have|))
    else if |have| > c.replicas then [ScaleDown(c, Extras(have, c.replicas))]
    else if Stopped(have) == [] && c.backup.None? then [Noop(c)]
    else []
  }

  /** A converged database stays visible as a noop when no backup is due. */
  function PlanBackupOrNoop(c: ServiceConfig, have: seq<ManagedReplica>, ctx: Option<CronPlanContext>): seq<Action> {
    if c.backup.None? then []
    else
      var backup := PlanBackup(c, have, ctx);
      if backup == [] && Stopped(have) == [] && |have| == c.replicas then [Noop(c)] else backup
  }

  /** Everything planned for one desired service. */
  function PlanService(c: ServiceConfig, have: seq<ManagedReplica>, ctx: Option<CronPlanContext>): seq<Action> {
    if c.jobRun.Some? then PlanJob(c, have)
    else if c.cron.Some? then PlanCron(c, have, ctx)
    else if Drifted(have, c) != [] then [RollOut(c, have)]
    else Starts(c, Stopped(have)) + PlanCount(c, have) + PlanBackupOrNoop(c, have, ctx)
  }

  function PlanServices(services: seq<ServiceConfig>, actual: seq<Group>, ctx: Option<CronPlanContext>): seq<Action> {
    if services == [] then []
    else
      var c := services[|services| - 1];
      PlanServices(services[..|services| - 1], actual, ctx) + PlanService(c, Lookup(actual, KeyOf(c)), ctx)
  }

  function DesiredKeys(services: seq<ServiceConfig>): set<string> { set c | c in services :: KeyOf(c) }

  /** Containers of services no longer desired go last. */
  function PlanRemovals(actual: seq<Group>, desiredKeys: set<string>): seq<Action> {
    if actual == [] then []
    else
      var g := actual[|actual| - 1];
      PlanRemovals(actual[..|actual| - 1], desiredKeys)
      + (if g.key !in desiredKeys then [Remove(g.key, g.replicas)] else [])
  }

  function Plan(services: seq<ServiceConfig>, actual: seq<Group>, ctx: Option<CronPlanContext>): seq<Action> {
    PlanServices(services, actual, ctx) + PlanRemovals(actual, DesiredKeys(services))
  }

  // ---- the imperative planner ----

  /** Append the creations for the missing replicas, advancing over used indices. */
  method PushCreates(c: ServiceConfig, have: seq<ManagedReplica>, actions: seq<Action>) returns (out: seq<Action>)
    ensures out == actions + Creates(c, FreeIndices(Indices(have), 0, c.replicas - |have|))
  {
    hide *;
    out := actions;
    var used := Indices(have);
    var idx := 0;
    var left := c.replicas - |have|;
    ghost var all := Creates(c, FreeIndices(used, 0, left));
    ghost var done := [];
    while left > 0
      invariant out == actions + done
      invariant done + Creates(c, FreeIndices(used, idx, left)) == all
      decreases left
    {
      ghost var start, k := idx, NextFree(used, idx);
      while idx in used
        invariant start <= idx <= k
        decreases k - idx
      {
        idx := idx + 1;
      }
      assert idx == k;
      FreeIndicesStep(c, used, start, left, done);
      used := used + {idx};
      out := out + [Create(c, idx)];
      done := done + [Create(c, idx)];
      idx := idx + 1;
      left := left - 1;
    }
    NoCreates(c, used, idx, left);
    assert done + [] == done;
  }

  lemma FreeIndicesStep(c: ServiceConfig, used: set<int>, idx: int, n: int, done: seq<Action>)
    requires n > 0
    ensures var k := NextFree(used, idx);
            done + Creates(c, FreeIndices(used, idx, n))
            == (done + [Create(c, k)]) + Creates(c, FreeIndices(used + {k}, k + 1, n - 1))
  {
    hide *;
    var k := NextFree(used, idx);
    var rest := FreeIndices(used + {k}, k + 1, n - 1);
    FreeIndicesCons(used, idx, n);
    CreatesCons(c, k, rest);
    assert done + ([Create(c, k)] + Creates(c, rest)) == (done + [Create(c, k)]) + Creates(c, rest);
  }

  lemma FreeIndicesCons(used: set<int>, idx: int, n: int)
    requires n > 0
    ensures var k := NextFree(used, idx);
            FreeIndices(used, idx, n) == [k] + FreeIndices(used + {k}, k + 1, n - 1)
  {
  }

  lemma CreatesCons(c: ServiceConfig, k: int, rest: seq<int>)
    ensures Creates(c, [k] + rest) == [Create(c, k)] + Creates(c, rest)
  {
    assert ([k] + rest)[1..] == rest;
  }

  lemma NoCreates(c: ServiceConfig, used: set<int>, idx: int, n: int)
    requires n <= 0
    ensures Creates(c, FreeIndices(used, idx, n)) == []
  {
  }

  method PlanReconcile(services: seq<ServiceConfig>, actual: seq<Group>, ctx: Option<CronPlanContext>)
    returns (actions: seq<Action>)
    ensures actions == Plan(services, actual, ctx)
  {
    hide PlanService;
    actions := [];
    var desiredKeys: set<string> := {};
    assert DesiredKeys(services[..0]) == {};
    for i := 0 to |services|
      invariant actions == PlanServices(services[..i], actual, ctx)
      invariant desiredKeys == DesiredKeys(services[..i])
    {
      var c := services[i];
      assert services[..i + 1][..i] == services[..i];
      DesiredKeysStep(services, i);
      desiredKeys := desiredKeys + {KeyOf(c)};
      actions := PushService(c, Lookup(actual, KeyOf(c)), ctx, actions);
    }
    assert services[..|services|] == services;
    ghost var planned := actions;
    for i := 0 to |actual|
      invariant actions == planned + PlanRemovals(actual[..i], desiredKeys)
    {
      assert actual[..i + 1][..i] == actual[..i];
      if actual[i].key !in desiredKeys {
        actions := actions + [Remove(actual[i].key, actual[i].replicas)];
      }
    }
    assert actual[..|actual|] == actual;
  }

  lemma DesiredKeysStep(services: seq<ServiceConfig>, i: nat)
    requires i < |services|
    ensures DesiredKeys(services[..i + 1]) == DesiredKeys(services[..i]) + {KeyOf(services[i])}
  {
    assert services[..i + 1] == services[..i] + [services[i]];
  }

  method PushStarts(c: ServiceConfig, stopped: seq<ManagedReplica>, actions: seq<Action>) returns (out: seq<Action>)
    ensures out == actions + Starts(c, stopped)
  {
    out := actions;
    for i := 0 to |stopped|
      invariant out == actions + Starts(c, stopped[..i])
    {
      assert stopped[..i + 1][..i] == stopped[..i];
      out := out + [Start(c, stopped[i].index, stopped[i].id)];
    }
    assert stopped[..|stopped|] == stopped;
  }

  method PushCount(c: ServiceConfig, have: seq<ManagedReplica>, actions: seq<Action>) returns (out: seq<Action>)
    ensures out == actions + PlanCount(c, have)
  {
    hide Extras, FreeIndices, Indices, Creates, Stopped;
    if |have| < c.replicas {
      out := PushCreates(c, have, actions);
    } else if |have| > c.replicas {
      out := actions + [ScaleDown(c, Extras(have, c.replicas))];
    } else if Stopped(have) == [] && c.backup.None? {
      out := actions + [Noop(c)];
    } else {
      out := actions;
    }
  }

  /** One pass of the planner's loop body. */
  method PushService(c: ServiceConfig, have: seq<ManagedReplica>, ctx: Option<CronPlanContext>, actions: seq<Action>)
    returns (out: seq<Action>)
    ensures out == actions + PlanService(c, have, ctx)
  {
    hide PlanJob, PlanCron, PlanBackup, PlanCount, Drifted, Stopped, Starts;
    if c.jobRun.Some? {
      return actions + PlanJob(c, have);
    }
    if c.cron.Some? {
      return actions + PlanCron(c, have, ctx);
    }
    if Drifted(have, c) != [] {
      return actions + [RollOut(c, have)];
    }
    var stopped := Stopped(have);
    out := PushStarts(c, stopped, actions);
    out := PushCount(c, have, out);
    var last := [];
    if c.backup.Some? {
      last := PlanBackup(c, have, ctx);
      if last == [] && stopped == [] && |have| == c.replicas {
        last := [Noop(c)];
      }
      out := out + last;
    }
    assert last == PlanBackupOrNoop(c, have, ctx);
    Regroup(actions, Starts(c, stopped), PlanCount(c, have), last);
    assert out == actions + Starts(c, stopped) + PlanCount(c, have) + last;
  }

  lemma Regroup(a: seq<Action>, b: seq<Action>, c: seq<Action>, d: seq<Action>)
    ensures a + b + c + d == a + (b + c + d)
  {
  }
}
