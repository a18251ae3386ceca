/**
 Applying one planned action through the agent's effects (`apply_one` in `reconcile.rs`).
 Every action performs its effects in a fixed order, stopping at the first failure, and
 touches only its own service's containers.
 */
module Apply {
  import opened Common
  import opened Text
  import opened Types
  import opened Lists
  import opened Containers
  import opened Host
  import opened Planner
  import opened Docker
  import opened RolloutShape
  import opened Agent

  function ActionKey(a: Action): string {
    if a.Remove? then a.key else KeyOf(a.config)
  }

  /** The health check of the action's service, if it has one. */
  function CheckOf(c: Option<ServiceConfig>): (hc: Option<HealthCheck>)
    ensures c.Some? ==> hc == c.value.healthCheck
  {
    if c.Some? then c.value.healthCheck else None
  }

  // ---- the effects of an action, in order ----

  function Deletes(replicas: Live): (r: seq<Effect>)
    ensures |r| == |replicas|
  {
    if replicas == [] then [] else Deletes(replicas[..|replicas| - 1]) + [Delete(replicas[|replicas| - 1].id)]
  }

  function DeletesAndReleases(key: string, replicas: Live): seq<Effect> {
    if replicas == [] then []
    else
      var r := replicas[|replicas| - 1];
      DeletesAndReleases(key, replicas[..|replicas| - 1]) + [Delete(r.id), Release(PortSlot(key, r.index))]
  }

  /** Every action but a rollout has a fixed script. */
  function Script(a: Action): seq<Effect>
    requires !a.RollOut?
  {
    match a
    case Noop(_) => []
    case Remove(_, replicas) => Deletes(replicas)
    case ScaleDown(c, remove) => DeletesAndReleases(KeyOf(c), remove)
    case Start(_, _, id) => [StartIt(id)]
    case Create(c, index) =>
      [Pull(c.image)] + (if c.ingress.Some? then [Allocate(PortSlot(KeyOf(c), index))] else []) + [Run(c, index, None, None)]
    case CronRun(c, fireMs, previous) =>
      [Pull(c.image)] + Deletes(previous) + [RecordFire(KeyOf(c), fireMs), Run(c, 0, Some(fireMs), None)]
    case JobRun(c, previous) =>
      if c.jobRun.None? then []
      else [Pull(c.image)] + Deletes(previous) + [Run(c, 0, None, Some(c.jobRun.value.id))]
    case CronSkip(c, fireMs) => [RecordFire(KeyOf(c), fireMs)]
    case BackupRun(c, fireMs) => [Backup(KeyOf(c), fireMs)]
  }

  // ---- what an action may touch ----

  /** The identifiers listed belong to the service. */
  ghost predicate OwnIds(live: Live, replicas: Live, key: string) {
    forall r :: r in live && r.id in Ids(replicas) ==> ReplicaKey(r) == key
  }

  /** Every container of the service is listed. */
  ghost predicate Covers(live: Live, replicas: Live, key: string) {
    forall r :: r in live && ReplicaKey(r) == key ==> r.id in Ids(replicas)
  }

  /** The action was planned from the service's containers as they are now. */
  ghost predicate Applicable(a: Action, live: Live) {
    && (!a.Remove? ==> IsNamePart(a.config.project) && IsNamePart(a.config.service))
    && match a
       case Remove(key, replicas) => OwnIds(live, replicas, key)
       case ScaleDown(c, remove) => OwnIds(live, remove, KeyOf(c))
       case Start(c, _, id) => forall r :: r in live && r.id == id ==> ReplicaKey(r) == KeyOf(c)
       case Create(c, index) => forall r :: r in live && ReplicaKey(r) == KeyOf(c) ==> r.index != index
       case RollOut(c, replicas) => multiset(replicas) == multiset(Mine(live, KeyOf(c)))
       case CronRun(c, _, previous) => OwnIds(live, previous, KeyOf(c)) && Covers(live, previous, KeyOf(c))
       case JobRun(c, previous) => OwnIds(live, previous, KeyOf(c)) && Covers(live, previous, KeyOf(c))
       case _ => true
  }

  /** The most containers of the service at any point of the action. */
  function Top(a: Action, n: nat): int {
    match a
    case Create(_, _) => n + 1
    case CronRun(_, _, _) => Max(n, 1)
    case JobRun(_, _) => Max(n, 1)
    case RollOut(c, current) =>
      Min(Max(n, c.replicas + c.rollout.maxSurge), |Drifted(current, c)| + Max(c.replicas, |Matching(current, c)|))
    case _ => n
  }

  /** Whose containers may change, from which world on, and what is promised about the change. */
  datatype Scope = Scope(
    web: set<Route>, careful: bool, serving: bool, key: string, begin: Host, c: Option<ServiceConfig>, top: int)

  /** At every effect: only this service changes, within `top`, with its sizes, under a free name, and routing is kept. */
  ghost predicate Contained(s: Scope, h: Host) {
    && Others(h.live, s.key) == Others(s.begin.live, s.key)
    && |Mine(h.live, s.key)| <= s.top
    && h.clashes == s.begin.clashes
    && (s.c.Some? && Sized(Mine(s.begin.live, s.key), s.c.value) ==> Sized(Mine(h.live, s.key), s.c.value))
    && RoutesKept(s.web, s.key, s.careful, s.serving, s.begin, h)
  }

  /** The start of a rollout, its ports aside. */
  function BeginOn(c: ServiceConfig, current: Live, h: Host, web: set<Route>): Begin { Begin(c, current, h, map[], web) }

  /** Whether the action never removes a container the edge can still route to. */
  ghost predicate ActsCarefully(a: Action, h: Host, web: set<Route>) {
    match a
    case RollOut(c, current) => Careful(BeginOn(c, current, h, web))
    case Remove(_, _) => false
    case ScaleDown(_, _) => false
    case CronRun(_, _, _) => false
    case JobRun(_, _) => false
    case _ => true
  }

  /** Whether a reachable service stays reachable throughout the action. */
  ghost predicate ActsServing(a: Action, h: Host, web: set<Route>) {
    match a
    case RollOut(c, current) => Serving(BeginOn(c, current, h, web))
    case _ => ActsCarefully(a, h, web)
  }

  ghost function ScopeOf(a: Action, h: Host, c: Option<ServiceConfig>, web: set<Route>): Scope {
    Scope(web, ActsCarefully(a, h, web), ActsServing(a, h, web), ActionKey(a), h, c, Top(a, |Mine(h.live, ActionKey(a))|))
  }

  /** What an action may do to the durable record of fires. */
  ghost predicate Recorded(a: Action, before: map<string, int>, after: map<string, int>, ok: bool) {
    match a
    case CronRun(c, fireMs, _) =>
      (after == before && !ok) || after == before[KeyOf(c) := fireMs]
    case CronSkip(c, fireMs) => after == if ok then before[KeyOf(c) := fireMs] else before
    case BackupRun(c, fireMs) => after == if ok then before[BackupStateKey(KeyOf(c)) := fireMs] else before
    case _ => after == before
  }

  // ---- facts about single changes ----

  lemma ContainedSame(s: Scope, h: Host, h': Host)
    requires Contained(s, h)
    requires h'.live == h.live && h'.clashes == h.clashes && h'.now >= h.now
    requires h'.pubs == h.pubs && h'.cached == h.cached && h'.unsure == h.unsure && h'.cut == h.cut
    requires h'.edge == h.edge && h'.nextId >= h.nextId && h'.passed == h.passed
    ensures Contained(s, h')
  {
    hide Keep, ReplicaKey, RoutesKept, Routed;
    if Routed(h, s.web, s.key) { RoutedCarries(h, h', s.web, s.key); }
    RoutesCarry(s.web, s.key, s.careful, s.serving, s.begin, h, h');
  }

  lemma ContainedRemoval(s: Scope, h: Host, ids: set<nat>, t: int)
    requires Contained(s, h) && !s.careful && !s.serving && t >= h.now
    requires forall r :: r in h.live && r.id in ids ==> ReplicaKey(r) == s.key
    ensures Contained(s, AfterRemoval(h, IdNotIn(ids), t))
  {
    hide Keep, ReplicaKey, RoutesKept, Routed, CutBy;
    OthersWithout(h.live, ids, s.key);
    MineWithout(h.live, ids, s.key);
    CutOwn(h, IdNotIn(ids), s.key);
    RoutesCarry(s.web, s.key, s.careful, s.serving, s.begin, h, AfterRemoval(h, IdNotIn(ids), t));
  }

  lemma ContainedAdd(s: Scope, h: Host, h': Host, r: ManagedReplica)
    requires Contained(s, h) && |Mine(h.live, s.key)| < s.top
    requires ReplicaKey(r) == s.key && s.c.Some? && r.cpu == s.c.value.cpu && r.memory == s.c.value.memory
    requires h'.live == h.live + [r] && h'.clashes == h.clashes && h'.now >= h.now
    requires h'.pubs == h.pubs && h'.cached == h.cached && h'.unsure == h.unsure && h'.cut == h.cut
    requires h'.edge == h.edge && h'.nextId >= h.nextId && h'.passed == h.passed
    ensures Contained(s, h')
  {
    hide Keep, ReplicaKey, RoutesKept, Routed;
    MineAppend(h.live, [r], s.key);
    OneOfKey(r, s.key);
    if Routed(h, s.web, s.key) { RoutedCarries(h, h', s.web, s.key); }
    RoutesCarry(s.web, s.key, s.careful, s.serving, s.begin, h, h');
  }

  lemma {:induction false} StartingKeeps(live: Live, id: nat, key: string)
    requires forall r :: r in live && r.id == id ==> ReplicaKey(r) == key
    ensures Others(SetRunning(live, id), key) == Others(live, key)
    ensures Mine(SetRunning(live, id), key) == SetRunning(Mine(live, key), id)
    decreases |live|
  {
    hide Keep, ReplicaKey, SetRunning;
    if live == [] {
      KeepNone(OfKey(key));
      KeepNone(NotOfKey(key));
      StartNone(id);
    } else {
      var f, r := live[..|live| - 1], live[|live| - 1];
      SplitLast(live);
      StartingKeeps(f, id, key);
      StartLast(f, r, id);
      KeepLast(f, r, OfKey(key));
      KeepLast(f, r, NotOfKey(key));
      var s := if r.id == id then r.(state := "running") else r;
      SameKey(r);
      KeepLast(SetRunning(f, id), s, OfKey(key));
      KeepLast(SetRunning(f, id), s, NotOfKey(key));
      StartLast(Mine(f, key), r, id);
    }
  }

  lemma SameKey(r: ManagedReplica)
    ensures ReplicaKey(r.(state := "running")) == ReplicaKey(r)
  {
  }

  lemma StartNone(id: nat)
    ensures SetRunning([], id) == []
  {
  }

  lemma StartLast(f: Live, r: ManagedReplica, id: nat)
    ensures SetRunning(f + [r], id) == SetRunning(f, id) + [if r.id == id then r.(state := "running") else r]
  {
    var s := f + [r];
    assert s[..|s| - 1] == f;
  }

  lemma ContainedStarting(s: Scope, h: Host, id: nat, t: int)
    requires Contained(s, h) && t >= h.now
    requires forall r :: r in h.live && r.id == id ==> ReplicaKey(r) == s.key
    ensures Contained(s, h.(now := t, live := SetRunning(h.live, id)))
  {
    hide Keep, ReplicaKey, SetRunning, RoutesKept, Routed;
    var h' := h.(now := t, live := SetRunning(h.live, id));
    StartingKeeps(h.live, id, s.key);
    var mine := SetRunning(Mine(h.live, s.key), id);
    if s.c.Some? && Sized(Mine(s.begin.live, s.key), s.c.value) {
      forall r | r in mine ensures r.cpu == s.c.value.cpu && r.memory == s.c.value.memory {
        var i :| 0 <= i < |mine| && mine[i] == r;
        assert Mine(h.live, s.key)[i] in Mine(h.live, s.key);
      }
    }
    StartSurvives(h.live, id, s.key);
    if Routed(h, s.web, s.key) { RoutedCarries(h, h', s.web, s.key); }
    RoutesCarry(s.web, s.key, s.careful, s.serving, s.begin, h, h');
  }

  /** Starting a container changes none that runs. */
  lemma StartSurvives(live: Live, id: nat, key: string)
    ensures Survive(live, SetRunning(live, id), key)
  {
    hide ReplicaKey;
    var s := SetRunning(live, id);
    forall r | r in live && ReplicaKey(r) == key && Running(r) ensures r in s {
      var i :| 0 <= i < |live| && live[i] == r;
      assert s[i] == r;
    }
  }

  /** Running a container under a free name, in any outcome. */
  lemma ContainedRun(s: Scope, h: Host, v: Verdict, t: int, r: ManagedReplica)
    requires Contained(s, h) && |Mine(h.live, s.key)| < s.top && t >= h.now
    requires ReplicaKey(r) == s.key && s.c.Some? && r.cpu == s.c.value.cpu && r.memory == s.c.value.memory
    requires !NameTaken(h.live, NameOf(r))
    ensures Contained(s, AfterRun(h, v, t, r))
    ensures v.Done? ==> AfterRun(h, v, t, r).live == h.live + [r]
  {
    hide Keep, ReplicaKey, NameOf, Contained;
    var h' := AfterRun(h, v, t, r);
    if v.Done? {
      ContainedAdd(s, h, h', r);
    } else if v.FailedAfter? {
      CreatedKey(r);
      ContainedAdd(s, h, h', r.(state := "created"));
    } else {
      ContainedSame(s, h, h');
    }
  }

  lemma CreatedKey(r: ManagedReplica)
    ensures ReplicaKey(r.(state := "created")) == ReplicaKey(r)
  {
  }

  /** A new replica's name is free when its service has no container of that index. */
  lemma NameFree(h: Host, c: ServiceConfig, index: int)
    requires WellFormed(h) && IsNamePart(c.project) && IsNamePart(c.service)
    requires forall r :: r in h.live && ReplicaKey(r) == KeyOf(c) ==> r.index != index
    ensures !NameTaken(h.live, ContainerName(c.project, c.service, index))
  {
    hide ContainerName, ServiceKey;
    forall r | r in h.live ensures NameOf(r) != ContainerName(c.project, c.service, index) {
      if NameOf(r) == ContainerName(c.project, c.service, index) {
        ContainerNameInjective(r.project, r.service, r.index, c.project, c.service, index);
      }
    }
  }

  lemma NewReplicaFacts(c: ServiceConfig, id: nat, index: int, hostPort: Option<int>, fireMs: Option<int>,
            jobRunId: Option<string>)
    ensures var r := NewReplica(c, id, index, "running", hostPort, fireMs, jobRunId);
            && ReplicaKey(r) == KeyOf(c) && r.cpu == c.cpu && r.memory == c.memory && r.index == index && r.id == id
            && NameOf(r) == ContainerName(c.project, c.service, index) && !NeedsReplace(r, c) && Running(r)
  {
  }

  // ---- applying ----

  /** Nothing was added. */
  ghost predicate Fewer(live: Live, before: Live) { forall r :: r in live ==> r in before }

  /** Remove each listed container. */
  method RemoveEach(agent: AppAgent, replicas: Live, ghost s: Scope)
    requires agent.Valid() && OwnIds(agent.host.live, replicas, s.key) && !s.careful && !s.serving
    requires Contained(s, agent.host)
    modifies agent`host, agent`step, agent`history, agent`effects
    ensures agent.Valid() && Contained(s, agent.host)
    ensures agent.host.live == Without(old(agent.host.live), Ids(replicas)) && agent.host.nextId == old(agent.host).nextId
    ensures agent.effects == old(agent.effects) + Deletes(replicas) && old(agent.history) <= agent.history
    ensures agent.step >= old(agent.step)
    ensures forall i :: |old(agent.history)| <= i < |agent.history| ==>
              Contained(s, agent.history[i]) && Fewer(agent.history[i].live, old(agent.host).live)
  {
    hide *;
    NoIdsRemoved(agent.host.live, replicas);
    assert agent.effects + [] == agent.effects;
    for i := 0 to |replicas|
      invariant agent.Valid() && Contained(s, agent.host)
      invariant OwnIds(agent.host.live, replicas, s.key)
      invariant agent.host.live == Without(old(agent.host.live), Ids(replicas[..i])) && agent.host.nextId == old(agent.host).nextId
      invariant agent.effects == old(agent.effects) + Deletes(replicas[..i]) && old(agent.history) <= agent.history
      invariant agent.step >= old(agent.step)
      invariant forall k :: |old(agent.history)| <= k < |agent.history| ==>
                  Contained(s, agent.history[k]) && Fewer(agent.history[k].live, old(agent.host).live)
    {
      var id := replicas[i].id;
      NextDelete(old(agent.host.live), replicas, i);
      OwnOne(agent.host.live, replicas, i, s.key);
      ContainedRemoval(s, agent.host, {id}, agent.Later());
      RemovalFacts(agent.host, IdNotIn({id}), agent.Later());
      WithoutIs(agent.host.live, {id});
      WithoutIsFewer(old(agent.host).live, Ids(replicas[..i + 1]));
      agent.RemoveContainer(id);
    }
    assert replicas[..|replicas|] == replicas;
  }

  lemma WithoutIs(live: Live, ids: set<nat>)
    ensures Without(live, ids) == Keep(live, IdNotIn(ids))
  {
  }

  /** One more removal, in the bookkeeping of both lists. */
  lemma NextDelete(live: Live, replicas: Live, i: nat)
    requires i < |replicas|
    ensures Without(Without(live, Ids(replicas[..i])), {replicas[i].id}) == Without(live, Ids(replicas[..i + 1]))
    ensures Deletes(replicas[..i + 1]) == Deletes(replicas[..i]) + [Delete(replicas[i].id)]
  {
    hide Keep;
    var s := replicas[..i + 1];
    assert s == replicas[..i] + [replicas[i]];
    IdsAppend(replicas[..i], replicas[i]);
    WithoutTwice(live, Ids(replicas[..i]), {replicas[i].id});
    assert s[..|s| - 1] == replicas[..i];
  }

  lemma WithoutIsFewer(live: Live, ids: set<nat>)
    ensures Fewer(Without(live, ids), live)
  {
  }

  lemma NoIdsRemoved(live: Live, replicas: Live)
    ensures Without(live, Ids(replicas[..0])) == live
    ensures Deletes(replicas[..0]) == []
  {
    hide Keep;
    assert Ids(replicas[..0]) == {};
    KeepAll(live, IdNotIn({}));
  }

  /** Remove each listed container and free its port. */
  method RemoveAndReleaseEach(agent: AppAgent, replicas: Live, c: ServiceConfig, ghost s: Scope)
    requires agent.Valid() && OwnIds(agent.host.live, replicas, s.key) && !s.careful && !s.serving && s.key == KeyOf(c)
    requires Contained(s, agent.host)
    modifies agent`host, agent`step, agent`history, agent`effects, agent`ports
    ensures agent.Valid() && Contained(s, agent.host)
    ensures agent.host.live == Without(old(agent.host.live), Ids(replicas))
    ensures agent.ports == old(agent.ports) - Slots(KeyOf(c), replicas)
    ensures agent.effects == old(agent.effects) + DeletesAndReleases(KeyOf(c), replicas) && old(agent.history) <= agent.history
    ensures agent.step >= old(agent.step)
    ensures forall i :: |old(agent.history)| <= i < |agent.history| ==> Contained(s, agent.history[i])
  {
    hide *;
    var key := KeyOf(c);
    NoIdsRemoved(agent.host.live, replicas);
    NoSlots(key, replicas, agent.ports);
    assert agent.effects + [] == agent.effects;
    for i := 0 to |replicas|
      invariant agent.Valid() && Contained(s, agent.host)
      invariant OwnIds(agent.host.live, replicas, key)
      invariant agent.host.live == Without(old(agent.host.live), Ids(replicas[..i]))
      invariant agent.ports == old(agent.ports) - Slots(key, replicas[..i])
      invariant agent.effects == old(agent.effects) + DeletesAndReleases(key, replicas[..i]) && old(agent.history) <= agent.history
      invariant agent.step >= old(agent.step)
      invariant forall k :: |old(agent.history)| <= k < |agent.history| ==> Contained(s, agent.history[k])
    {
      var r := replicas[i];
      NextRemoval(old(agent.host.live), replicas, i, key);
      OwnOne(agent.host.live, replicas, i, key);
      ContainedRemoval(s, agent.host, {r.id}, agent.Later());
      RemovalFacts(agent.host, IdNotIn({r.id}), agent.Later());
      WithoutIs(agent.host.live, {r.id});
      agent.RemoveContainer(r.id);
      agent.ReleasePort(key, r.index);
    }
    assert replicas[..|replicas|] == replicas;
  }

  lemma NoSlots(key: string, replicas: Live, ports: map<string, int>)
    ensures ports == ports - Slots(key, replicas[..0]) && DeletesAndReleases(key, replicas[..0]) == []
  {
    assert Slots(key, replicas[..0]) == {};
  }

  /** One more removal and release, in the bookkeeping of both lists. */
  lemma NextRemoval(live: Live, replicas: Live, i: nat, key: string)
    requires i < |replicas|
    ensures Without(Without(live, Ids(replicas[..i])), {replicas[i].id}) == Without(live, Ids(replicas[..i + 1]))
    ensures Slots(key, replicas[..i + 1]) == Slots(key, replicas[..i]) + {PortSlot(key, replicas[i].index)}
    ensures DeletesAndReleases(key, replicas[..i + 1])
         == DeletesAndReleases(key, replicas[..i]) + [Delete(replicas[i].id), Release(PortSlot(key, replicas[i].index))]
  {
    hide Keep, PortSlot;
    var s := replicas[..i + 1];
    assert s == replicas[..i] + [replicas[i]];
    IdsAppend(replicas[..i], replicas[i]);
    WithoutTwice(live, Ids(replicas[..i]), {replicas[i].id});
    assert s[..|s| - 1] == replicas[..i];
  }

  lemma OwnOne(live: Live, replicas: Live, i: nat, key: string)
    requires OwnIds(live, replicas, key) && i < |replicas|
    ensures forall r :: r in live && r.id in {replicas[i].id} ==> ReplicaKey(r) == key
    ensures OwnIds(Without(live, {replicas[i].id}), replicas, key)
  {
    hide ReplicaKey;
    assert IdOf(replicas[i]) in Ids(replicas);
  }

  // ---- one action ----

  /** The start state of a rollout, as far as its containers are concerned. */
  function BeginAt(c: ServiceConfig, current: Live, h: Host): Begin { Begin(c, current, h, map[], {}) }

  /** A completed rollout: the drifted replicas gone, the missing ones surged. */
  ghost predicate RolledOut(c: ServiceConfig, current: Live, before: Host, live: Live, surged: Live) {
    var b := BeginAt(c, current, before);
    Shape(b, live, |Old(b)|, surged) && (c.rollout.maxSurge >= 1 ==> |surged| == Max(0, c.replicas - Kept(b)))
  }

  ghost predicate Created(c: ServiceConfig, index: int, before: Host, live: Live, hostPort: Option<int>) {
    live == before.live + [NewReplica(c, before.nextId, index, "running", hostPort, None, None)]
  }

  /** What a fully successful action leaves behind. */
  ghost predicate Did(a: Action, before: Host, live: Live) {
    match a
    case Remove(_, replicas) => live == Without(before.live, Ids(replicas))
    case ScaleDown(_, remove) => live == Without(before.live, Ids(remove))
    case Start(_, _, id) => live == SetRunning(before.live, id)
    case Create(c, index) => exists hostPort :: Created(c, index, before, live, hostPort)
    case RollOut(c, current) => exists surged :: RolledOut(c, current, before, live, surged)
    case CronRun(c, fireMs, previous) =>
      live == Without(before.live, Ids(previous)) + [NewReplica(c, before.nextId, 0, "running", None, Some(fireMs), None)]
    case JobRun(c, previous) =>
      c.jobRun.Some?
      && live == Without(before.live, Ids(previous))
               + [NewReplica(c, before.nextId, 0, "running", None, None, Some(c.jobRun.value.id))]
    case _ => live == before.live
  }

  /** At most one container was added, of this index and matching the configuration. */
  ghost predicate GrewBy(c: ServiceConfig, index: int, before: Live, live: Live) {
    live == before || exists r :: live == before + [r] && ReplicaKey(r) == KeyOf(c) && r.index == index && !NeedsReplace(r, c)
  }

  lemma RunGrows(c: ServiceConfig, index: int, h: Host, v: Verdict, t: int, hostPort: Option<int>)
    ensures GrewBy(c, index, h.live, AfterRun(h, v, t, NewReplica(c, h.nextId, index, "running", hostPort, None, None)).live)
  {
    hide ServiceKey, ContainerName, NameTaken;
    var r := NewReplica(c, h.nextId, index, "running", hostPort, None, None);
    var h' := AfterRun(h, v, t, r);
    if h'.live != h.live {
      var made := h'.live[|h.live|];
      assert h'.live == h.live + [made];
    }
  }

  method ApplyCreate(agent: AppAgent, c: ServiceConfig, index: int) returns (ok: bool, ghost n: nat)
    requires agent.Valid() && Applicable(Create(c, index), agent.host.live)
    modifies agent`host, agent`step, agent`history, agent`effects, agent`ports
    ensures agent.Valid() && old(agent.history) <= agent.history
    ensures n <= |Script(Create(c, index))| && agent.effects == old(agent.effects) + Script(Create(c, index))[..n]
    ensures ok ==> n == |Script(Create(c, index))| && Did(Create(c, index), old(agent.host), agent.host.live)
    ensures GrewBy(c, index, old(agent.host).live, agent.host.live)
    ensures agent.step >= old(agent.step) && (Smooth(agent.env, c.healthCheck, old(agent.step), agent.step) ==> ok)
    ensures Contained(ScopeOf(Create(c, index), old(agent.host), Some(c), WebRoutes(agent.desired, agent.edge)), agent.host)
    ensures forall i :: |old(agent.history)| <= i < |agent.history| ==>
              Contained(ScopeOf(Create(c, index), old(agent.host), Some(c), WebRoutes(agent.desired, agent.edge)), agent.history[i])
  {
    hide *;
    ghost var begin, script := agent.host, Script(Create(c, index));
    ghost var s := ScopeOf(Create(c, index), begin, Some(c), WebRoutes(agent.desired, agent.edge));
    CreateScope(c, index, begin, WebRoutes(agent.desired, agent.edge));
    CreateScript(c, index);
    CreateApplicable(c, index, begin.live);
    GrewNot(c, index, begin.live);
    var pulled := agent.PullImage(c.image);
    SmoothAt(agent.env, c.healthCheck, old(agent.step), agent.step, old(agent.step));
    n := 1;
    ContainedAlive(s, agent.host);
    if !pulled {
      return false, n;
    }
    var hostPort: Option<int> := None;
    if c.ingress.Some? {
      var port := agent.AllocatePort(KeyOf(c), index);
      hostPort := Some(port);
      n := 2;
    }
    NewReplicaFacts(c, agent.host.nextId, index, hostPort, None, None);
    agent.ValidHost();
    NameFree(agent.host, c, index);
    ghost var r := NewReplica(c, agent.host.nextId, index, "running", hostPort, None, None);
    ContainedRun(s, agent.host, agent.env.verdict(agent.step), agent.Later(), r);
    RunGrows(c, index, agent.host, agent.env.verdict(agent.step), agent.Later(), hostPort);
    ghost var k := agent.step;
    ok := agent.RunContainer(c, index, hostPort, None, None);
    SmoothAt(agent.env, c.healthCheck, old(agent.step), agent.step, k);
    n := |script|;
    if ok { CreateDid(c, index, begin, agent.host.live, hostPort); }
  }

  lemma CreateScript(c: ServiceConfig, index: int)
    ensures var script := Script(Create(c, index));
            && script[..1] == [Pull(c.image)] && script[..|script|] == script
            && (c.ingress.None? ==> script == [Pull(c.image), Run(c, index, None, None)])
            && (c.ingress.Some? ==> script[..2] == [Pull(c.image), Allocate(PortSlot(KeyOf(c), index))])
            && (c.ingress.Some? ==> script == script[..2] + [Run(c, index, None, None)])
  {
  }

  lemma CreateScope(c: ServiceConfig, index: int, h: Host, web: set<Route>)
    ensures var s := ScopeOf(Create(c, index), h, Some(c), web);
            s.key == KeyOf(c) && s.begin == h && s.c == Some(c) && s.top == |Mine(h.live, s.key)| + 1
  {
  }

  lemma CreateApplicable(c: ServiceConfig, index: int, live: Live)
    requires Applicable(Create(c, index), live)
    ensures IsNamePart(c.project) && IsNamePart(c.service)
    ensures forall r :: r in live && ReplicaKey(r) == KeyOf(c) ==> r.index != index
  {
  }

  lemma GrewNot(c: ServiceConfig, index: int, live: Live)
    ensures GrewBy(c, index, live, live)
  {
  }

  lemma CreateDid(c: ServiceConfig, index: int, before: Host, live: Live, hostPort: Option<int>)
    requires live == before.live + [NewReplica(c, before.nextId, index, "running", hostPort, None, None)]
    ensures Did(Create(c, index), before, live)
  {
    hide NewReplica;
    assert Created(c, index, before, live, hostPort);
  }

  lemma ContainedAlive(s: Scope, h: Host)
    requires h.live == s.begin.live && h.clashes == s.begin.clashes && |Mine(h.live, s.key)| <= s.top && h.now >= s.begin.now
    requires h.pubs == s.begin.pubs && h.cached == s.begin.cached && h.unsure == s.begin.unsure && h.cut == s.begin.cut
    requires h.edge == s.begin.edge && h.nextId == s.begin.nextId && h.passed == s.begin.passed
    ensures Contained(s, h)
  {
    hide Keep, ReplicaKey, Routed;
    assert Contained(s, s.begin);
    ContainedSame(s, s.begin, h);
  }

  /** Pull the image and clear the previous runs. */
  method ClearPrevious(agent: AppAgent, c: ServiceConfig, previous: Live, ghost s: Scope) returns (ok: bool, ghost n: nat)
    requires agent.Valid() && OwnIds(agent.host.live, previous, s.key) && !s.careful && !s.serving
    requires Contained(s, agent.host)
    modifies agent`host, agent`step, agent`history, agent`effects
    ensures agent.Valid() && old(agent.history) <= agent.history
    ensures n <= 1 + |previous| && agent.effects == old(agent.effects) + ([Pull(c.image)] + Deletes(previous))[..n]
    ensures ok ==> n == 1 + |previous| && agent.host.live == Without(old(agent.host).live, Ids(previous))
    ensures agent.host.nextId == old(agent.host).nextId
    ensures agent.step >= old(agent.step) && (Smooth(agent.env, c.healthCheck, old(agent.step), agent.step) ==> ok)
    ensures Contained(s, agent.host)
    ensures forall i :: |old(agent.history)| <= i < |agent.history| ==> Contained(s, agent.history[i])
  {
    hide Keep, ReplicaKey, Contained, WellFormed, KeyOf, Deletes, OwnIds;
    ghost var script := [Pull(c.image)] + Deletes(previous);
    ContainedSame(s, agent.host, agent.host.(now := agent.Later()));
    ok := agent.PullImage(c.image);
    SmoothAt(agent.env, c.healthCheck, old(agent.step), agent.step, old(agent.step));
    assert script[..1] == [Pull(c.image)];
    n := 1;
    if ok {
      RemoveEach(agent, previous, s);
      n := 1 + |previous|;
      assert script[..n] == script;
    }
  }

  /** What follows the clearing of the previous runs. */
  function RunScript(c: ServiceConfig, fireMs: Option<int>, jobRunId: Option<string>): seq<Effect> {
    (if fireMs.Some? then [RecordFire(KeyOf(c), fireMs.value)] else []) + [Run(c, 0, fireMs, jobRunId)]
  }

  /** Record the fire, if this is a scheduled run, then start the container as index 0. */
  method StartRun(agent: AppAgent, c: ServiceConfig, fireMs: Option<int>, jobRunId: Option<string>, ghost s: Scope)
    returns (ok: bool, ghost n: nat)
    requires agent.Valid() && IsNamePart(c.project) && IsNamePart(c.service)
    requires forall r :: r in agent.host.live ==> ReplicaKey(r) != KeyOf(c)
    requires Contained(s, agent.host) && s.top >= 1 && s.key == KeyOf(c) && s.c == Some(c)
    modifies agent`host, agent`step, agent`history, agent`effects, agent`fires
    ensures agent.Valid() && old(agent.history) <= agent.history
    ensures n <= |RunScript(c, fireMs, jobRunId)| && agent.effects == old(agent.effects) + RunScript(c, fireMs, jobRunId)[..n]
    ensures ok ==> n == |RunScript(c, fireMs, jobRunId)|
    ensures ok ==> agent.host.live
                   == old(agent.host).live + [NewReplica(c, old(agent.host).nextId, 0, "running", None, fireMs, jobRunId)]
    ensures (agent.fires == old(agent.fires) && (ok ==> fireMs.None?))
         || (fireMs.Some? && agent.fires == old(agent.fires)[KeyOf(c) := fireMs.value])
    ensures agent.step >= old(agent.step) && (Smooth(agent.env, c.healthCheck, old(agent.step), agent.step) ==> ok)
    ensures Contained(s, agent.host)
    ensures forall i :: |old(agent.history)| <= i < |agent.history| ==> Contained(s, agent.history[i])
  {
    hide *;
    ghost var script, key := RunScript(c, fireMs, jobRunId), KeyOf(c);
    RunScriptParts(c, fireMs, jobRunId);
    n := 0;
    if fireMs.Some? {
      ContainedSame(s, agent.host, agent.host.(now := agent.Later()));
      var recorded := agent.RecordCronFire(KeyOf(c), fireMs.value);
      SmoothAt(agent.env, c.healthCheck, old(agent.step), agent.step, old(agent.step));
      n := 1;
      if !recorded {
        return false, n;
      }
    }
    NoneMine(agent.host.live, key);
    NewReplicaFacts(c, agent.host.nextId, 0, None, fireMs, jobRunId);
    NameFree(agent.host, c, 0) by { agent.ValidHost(); }
    ghost var r := NewReplica(c, agent.host.nextId, 0, "running", None, fireMs, jobRunId);
    ContainedRun(s, agent.host, agent.env.verdict(agent.step), agent.Later(), r);
    ghost var k := agent.step;
    ok := agent.RunContainer(c, 0, None, fireMs, jobRunId);
    SmoothAt(agent.env, c.healthCheck, old(agent.step), agent.step, k);
    n := |script|;
    assert script[..n] == script;
  }

  lemma RunScriptParts(c: ServiceConfig, fireMs: Option<int>, jobRunId: Option<string>)
    ensures var script := RunScript(c, fireMs, jobRunId);
            && (fireMs.None? ==> script == [Run(c, 0, fireMs, jobRunId)])
            && (fireMs.Some? ==> script == [RecordFire(KeyOf(c), fireMs.value), Run(c, 0, fireMs, jobRunId)]
                                 && script[..1] == [RecordFire(KeyOf(c), fireMs.value)])
  {
  }

  lemma NoneMine(live: Live, key: string)
    requires forall r :: r in live ==> ReplicaKey(r) != key
    ensures Mine(live, key) == []
  {
    hide ReplicaKey;
    KeepsNothing(live, OfKey(key));
  }

  /** Clear the previous runs, then start one container as index 0; a fire is recorded first. */
  method ApplyRun(agent: AppAgent, a: Action, c: ServiceConfig, previous: Live, fireMs: Option<int>, jobRunId: Option<string>)
    returns (ok: bool, ghost n: nat)
    requires agent.Valid() && Applicable(a, agent.host.live)
    requires (a == JobRun(c, previous) && c.jobRun.Some? && fireMs.None? && jobRunId == Some(c.jobRun.value.id))
          || (fireMs.Some? && jobRunId.None? && a == CronRun(c, fireMs.value, previous))
    modifies agent`host, agent`step, agent`history, agent`effects, agent`fires
    ensures agent.Valid() && old(agent.history) <= agent.history
    ensures n <= |Script(a)| && agent.effects == old(agent.effects) + Script(a)[..n]
    ensures ok ==> n == |Script(a)| && Did(a, old(agent.host), agent.host.live)
    ensures Recorded(a, old(agent.fires), agent.fires, ok)
    ensures agent.step >= old(agent.step) && (Smooth(agent.env, c.healthCheck, old(agent.step), agent.step) ==> ok)
    ensures Contained(ScopeOf(a, old(agent.host), Some(c), WebRoutes(agent.desired, agent.edge)), agent.host)
    ensures forall i :: |old(agent.history)| <= i < |agent.history| ==>
              Contained(ScopeOf(a, old(agent.host), Some(c), WebRoutes(agent.desired, agent.edge)), agent.history[i])
  {
    hide *;
    ApplicableRun(a, agent.host.live, c, previous, fireMs);
    ghost var begin, s := agent.host, ScopeOf(a, agent.host, Some(c), WebRoutes(agent.desired, agent.edge));
    MaxAtLeast(|Mine(begin.live, KeyOf(c))|, 1);
    RunScope(a, c, previous, fireMs, begin, WebRoutes(agent.desired, agent.edge));
    ContainedAlive(s, begin);
    ghost var first, rest := [Pull(c.image)] + Deletes(previous), RunScript(c, fireMs, jobRunId);
    RunScripts(a, c, previous, fireMs, jobRunId);
    RunRecords(a, c, previous, fireMs, agent.fires);
    ghost var k: nat;
    ok, n := ClearPrevious(agent, c, previous, s);
    ghost var middle := agent.step;
    assert (first + rest)[..n] == first[..n];
    if !ok {
      return;
    }
    Cleared(begin.live, previous, KeyOf(c));
    ok, k := StartRun(agent, c, fireMs, jobRunId, s);
    SmoothSplit(agent.env, c.healthCheck, old(agent.step), middle, agent.step);
    assert first[..n] == first;
    assert (first + rest)[..n + k] == first + rest[..k];
    n := n + k;
    if ok { RunDid(a, c, previous, fireMs, jobRunId, begin, agent.host.live); }
  }

  lemma RunScope(a: Action, c: ServiceConfig, previous: Live, fireMs: Option<int>, h: Host, web: set<Route>)
    requires a == JobRun(c, previous) || (fireMs.Some? && a == CronRun(c, fireMs.value, previous))
    ensures var s := ScopeOf(a, h, Some(c), web);
            && s.key == KeyOf(c) && s.begin == h && s.c == Some(c) && !s.careful && !s.serving
            && s.top == Max(|Mine(h.live, KeyOf(c))|, 1)
  {
  }

  lemma RunRecords(a: Action, c: ServiceConfig, previous: Live, fireMs: Option<int>, fires: map<string, int>)
    requires a == JobRun(c, previous) || (fireMs.Some? && a == CronRun(c, fireMs.value, previous))
    ensures Recorded(a, fires, fires, false)
    ensures fireMs.Some? && a.CronRun? ==> Recorded(a, fires, fires[KeyOf(c) := fireMs.value], true)
    ensures fireMs.Some? && a.CronRun? ==> Recorded(a, fires, fires[KeyOf(c) := fireMs.value], false)
    ensures a.JobRun? ==> Recorded(a, fires, fires, true)
  {
  }

  lemma RunScripts(a: Action, c: ServiceConfig, previous: Live, fireMs: Option<int>, jobRunId: Option<string>)
    requires (a == JobRun(c, previous) && c.jobRun.Some? && fireMs.None? && jobRunId == Some(c.jobRun.value.id))
          || (fireMs.Some? && jobRunId.None? && a == CronRun(c, fireMs.value, previous))
    ensures Script(a) == [Pull(c.image)] + Deletes(previous) + RunScript(c, fireMs, jobRunId)
    ensures |[Pull(c.image)] + Deletes(previous)| == 1 + |previous|
  {
  }

  lemma RunDid(a: Action, c: ServiceConfig, previous: Live, fireMs: Option<int>, jobRunId: Option<string>, before: Host,
            live: Live)
    requires (a == JobRun(c, previous) && c.jobRun.Some? && fireMs.None? && jobRunId == Some(c.jobRun.value.id))
          || (fireMs.Some? && jobRunId.None? && a == CronRun(c, fireMs.value, previous))
    requires live == Without(before.live, Ids(previous)) + [NewReplica(c, before.nextId, 0, "running", None, fireMs, jobRunId)]
    ensures Did(a, before, live)
  {
    hide NewReplica, Without;
  }

  lemma MaxAtLeast(a: int, b: int)
    ensures Max(a, b) >= a && Max(a, b) >= b
  {
  }

  lemma ApplicableRun(a: Action, live: Live, c: ServiceConfig, previous: Live, fireMs: Option<int>)
    requires a == JobRun(c, previous) || (fireMs.Some? && a == CronRun(c, fireMs.value, previous))
    requires Applicable(a, live)
    ensures OwnIds(live, previous, KeyOf(c)) && Covers(live, previous, KeyOf(c))
    ensures IsNamePart(c.project) && IsNamePart(c.service)
  {
  }

  /** Removing all of a service's containers leaves none. */
  lemma Cleared(live: Live, replicas: Live, key: string)
    requires Covers(live, replicas, key)
    ensures Mine(Without(live, Ids(replicas)), key) == []
    ensures forall r :: r in Without(live, Ids(replicas)) ==> ReplicaKey(r) != key
  {
    hide ReplicaKey;
    NoneMine(Without(live, Ids(replicas)), key);
  }

  lemma StepContained(b: Begin, h: Host)
    requires Begins(b) && StepOk(b, h)
    ensures Contained(ScopeOf(RollOut(b.c, b.current), b.host, Some(b.c), b.web), h)
  {
    hide Keep, ReplicaKey, NeedsReplace, WellFormed, RoutesKept, RouteOf, InStep;
    OldFacts(b);
    if Sized(Mine(b.host.live, Key(b)), b.c) { assert Sized(b.current, b.c); }
  }

  method ApplyRollout(agent: AppAgent, c: ServiceConfig, current: Live) returns (ok: bool, ghost done: bool)
    requires agent.Valid() && Applicable(RollOut(c, current), agent.host.live)
    modifies agent`host, agent`step, agent`history, agent`effects, agent`ports, agent`errors
    ensures agent.Valid() && old(agent.history) <= agent.history
    ensures done ==> ok && Did(RollOut(c, current), old(agent.host), agent.host.live)
    ensures done && c.ingress.Some? ==> Announced(agent.host, WebRoutes(agent.desired, agent.edge), {})
    ensures done ==> GatesExact(BeginOn(c, current, old(agent.host), WebRoutes(agent.desired, agent.edge)), agent.host)
    ensures old(agent.errors) <= agent.errors <= old(agent.errors) + {KeyOf(c)}
    ensures ok && !done ==> KeyOf(c) in agent.errors
    ensures agent.step >= old(agent.step) && (Smooth(agent.env, c.healthCheck, old(agent.step), agent.step) ==> ok && done)
    ensures Contained(ScopeOf(RollOut(c, current), old(agent.host), Some(c), WebRoutes(agent.desired, agent.edge)), agent.host)
    ensures forall i :: |old(agent.history)| <= i < |agent.history| ==>
              Contained(ScopeOf(RollOut(c, current), old(agent.host), Some(c), WebRoutes(agent.desired, agent.edge)), agent.history[i])
  {
    hide *;
    agent.ValidHost();
    ghost var b := Begin(c, current, agent.host, agent.ports, WebRoutes(agent.desired, agent.edge));
    RolloutBegins(b, agent.host.live);
    var end, drained, surged := agent.RolloutService(c, current);
    ok := !end.Errored?;
    done := end.Completed?;
    forall h | StepOk(b, h)
      ensures Contained(ScopeOf(RollOut(c, current), b.host, Some(c), b.web), h)
    {
      StepContained(b, h);
    }
    if done {
      RolledOutIs(b, agent.host.live, surged);
      GatesOn(b, agent.host);
    }
  }

  lemma GatesOn(b: Begin, h: Host)
    requires GatesExact(b, h)
    ensures GatesExact(BeginOn(b.c, b.current, b.host, b.web), h)
  {
    hide GatedNow, KeptGated, LinesGated, RouteOf;
  }

  lemma RolloutBegins(b: Begin, live: Live)
    requires Applicable(RollOut(b.c, b.current), live) && live == b.host.live && WellFormed(b.host)
    ensures Begins(b) && Key(b) == KeyOf(b.c)
    ensures IsNamePart(b.c.project) && IsNamePart(b.c.service)
    ensures multiset(b.current) == multiset(Mine(live, KeyOf(b.c)))
  {
    hide WellFormed, Keep;
  }

  lemma RolledOutIs(b: Begin, live: Live, surged: Live)
    requires Shape(b, live, |Old(b)|, surged)
    requires b.c.rollout.maxSurge >= 1 ==> |surged| == Max(0, b.c.replicas - Kept(b))
    ensures Did(RollOut(b.c, b.current), b.host, live)
  {
    hide Keep, NeedsReplace, NextIndex, NewReplica;
    var b' := BeginAt(b.c, b.current, b.host);
    assert forall i :: 0 <= i < |surged| ==> IsSurged(b, surged[i], i) ==> IsSurged(b', surged[i], i);
    assert RolledOut(b.c, b.current, b.host, live, surged);
  }

  lemma ScriptAll(a: Action)
    requires !a.RollOut?
    ensures Script(a)[..|Script(a)|] == Script(a) && Script(a)[..0] == []
    ensures a.Noop? || (a.JobRun? && a.config.jobRun.None?) ==> Script(a) == []
    ensures a.Remove? ==> Script(a) == Deletes(a.replicas)
    ensures a.ScaleDown? ==> Script(a) == DeletesAndReleases(KeyOf(a.config), a.remove)
    ensures a.Start? ==> Script(a) == [StartIt(a.id)]
    ensures a.CronSkip? ==> Script(a) == [RecordFire(KeyOf(a.config), a.fireMs)]
    ensures a.BackupRun? ==> Script(a) == [Backup(KeyOf(a.config), a.fireMs)]
  {
  }

  lemma ApplicableParts(a: Action, live: Live)
    requires Applicable(a, live)
    ensures a.Remove? ==> ActionKey(a) == a.key && OwnIds(live, a.replicas, a.key)
    ensures !a.Remove? ==> ActionKey(a) == KeyOf(a.config)
    ensures a.ScaleDown? ==> OwnIds(live, a.remove, KeyOf(a.config))
    ensures a.Start? ==> forall r :: r in live && r.id == a.id ==> ReplicaKey(r) == KeyOf(a.config)
    ensures var n := |Mine(live, ActionKey(a))|;
            && (a.Create? ==> Top(a, n) == n + 1)
            && (a.CronRun? || a.JobRun? ==> Top(a, n) == Max(n, 1) >= n)
            && (!a.Create? && !a.CronRun? && !a.JobRun? && !a.RollOut? ==> Top(a, n) == n)
    ensures forall h: Host, c, web :: h.live == live ==>
              var s := ScopeOf(a, h, c, web);
              && s.key == ActionKey(a) && s.begin == h && s.c == c && s.top == Top(a, |Mine(live, s.key)|)
              && (a.Remove? || a.ScaleDown? ==> !s.careful && !s.serving)
  {
  }

  lemma DidPlain(a: Action, before: Host, live: Live)
    ensures a.Remove? && live == Without(before.live, Ids(a.replicas)) ==> Did(a, before, live)
    ensures a.ScaleDown? && live == Without(before.live, Ids(a.remove)) ==> Did(a, before, live)
    ensures a.Start? && live == SetRunning(before.live, a.id) ==> Did(a, before, live)
    ensures (a.Noop? || a.CronSkip? || a.BackupRun?) && live == before.live ==> Did(a, before, live)
  {
  }

  /** The actions with at most one kind of effect. */
  method ApplyPlain(agent: AppAgent, a: Action, ghost c: Option<ServiceConfig>) returns (ok: bool, ghost n: nat)
    requires !a.Remove? ==> c == Some(a.config)
    requires agent.Valid() && Applicable(a, agent.host.live)
    requires a.Noop? || a.Remove? || a.ScaleDown? || a.Start? || a.CronSkip? || a.BackupRun?
    modifies agent`host, agent`step, agent`history, agent`effects, agent`ports, agent`fires
    ensures agent.Valid() && old(agent.history) <= agent.history
    ensures n <= |Script(a)| && agent.effects == old(agent.effects) + Script(a)[..n]
    ensures ok ==> n == |Script(a)| && Did(a, old(agent.host), agent.host.live)
    ensures Recorded(a, old(agent.fires), agent.fires, ok)
    ensures agent.step >= old(agent.step) && (Smooth(agent.env, CheckOf(c), old(agent.step), agent.step) ==> ok)
    ensures a.Start? ==> agent.host.live == old(agent.host).live || agent.host.live == SetRunning(old(agent.host).live, a.id)
    ensures a.Remove? ==> ok && agent.host.live == Without(old(agent.host).live, Ids(a.replicas))
    ensures a.Noop? || a.CronSkip? || a.BackupRun? ==> agent.host.live == old(agent.host).live
    ensures Contained(ScopeOf(a, old(agent.host), c, WebRoutes(agent.desired, agent.edge)), agent.host)
    ensures forall i :: |old(agent.history)| <= i < |agent.history| ==>
              Contained(ScopeOf(a, old(agent.host), c, WebRoutes(agent.desired, agent.edge)), agent.history[i])
  {
    hide *;
    ghost var begin, s := agent.host, ScopeOf(a, agent.host, c, WebRoutes(agent.desired, agent.edge));
    ApplicableParts(a, begin.live);
    ScriptAll(a);
    ContainedAlive(s, begin);
    ContainedAlive(s, begin.(now := agent.Later()));
    n := |Script(a)|;
    ok := true;
    if a.Noop? {
      assert agent.effects + [] == agent.effects;
    } else if a.Remove? {
      RemoveEach(agent, a.replicas, s);
    } else if a.ScaleDown? {
      RemoveAndReleaseEach(agent, a.remove, a.config, s);
    } else if a.Start? {
      ContainedStarting(s, begin, a.id, agent.Later());
      ok := agent.StartContainer(a.id);
      SmoothAt(agent.env, CheckOf(c), old(agent.step), agent.step, old(agent.step));
    } else if a.CronSkip? {
      ok := agent.RecordCronFire(KeyOf(a.config), a.fireMs);
      SmoothAt(agent.env, CheckOf(c), old(agent.step), agent.step, old(agent.step));
    } else {
      ok := agent.RunBackup(a.config, a.fireMs);
      SmoothAt(agent.env, CheckOf(c), old(agent.step), agent.step, old(agent.step));
    }
    DidPlain(a, begin, agent.host.live);
    RecordsPlain(a, old(agent.fires), ok);
  }

  lemma RecordsPlain(a: Action, before: map<string, int>, ok: bool)
    ensures a.CronSkip? ==> Recorded(a, before, if ok then before[KeyOf(a.config) := a.fireMs] else before, ok)
    ensures a.BackupRun? ==> Recorded(a, before, if ok then before[BackupStateKey(KeyOf(a.config)) := a.fireMs] else before, ok)
    ensures !a.CronRun? && !a.CronSkip? && !a.BackupRun? ==> Recorded(a, before, before, ok)
  {
  }

  /**
   One action. Whatever fails, only the action's service is touched and its container count
   stays within `Top` at every effect; a scripted action performs a prefix of its script,
   all of it when it succeeds.
   */
  method ApplyOne(agent: AppAgent, a: Action, ghost c: Option<ServiceConfig>) returns (ok: bool, ghost done: bool, ghost n: nat)
    requires !a.Remove? ==> c == Some(a.config)
    requires agent.Valid() && Applicable(a, agent.host.live)
    modifies agent`host, agent`step, agent`history, agent`effects, agent`ports, agent`fires, agent`errors
    ensures agent.Valid() && old(agent.history) <= agent.history
    ensures Contained(ScopeOf(a, old(agent.host), c, WebRoutes(agent.desired, agent.edge)), agent.host)
    ensures forall i :: |old(agent.history)| <= i < |agent.history| ==>
              Contained(ScopeOf(a, old(agent.host), c, WebRoutes(agent.desired, agent.edge)), agent.history[i])
    ensures !a.RollOut? ==> n <= |Script(a)| && agent.effects == old(agent.effects) + Script(a)[..n]
    ensures !a.RollOut? && ok ==> n == |Script(a)|
    ensures done ==> ok && Did(a, old(agent.host), agent.host.live)
    ensures done && a.RollOut? ==>
              GatesExact(BeginOn(a.config, a.replicas, old(agent.host), WebRoutes(agent.desired, agent.edge)), agent.host)
    ensures a.Start? ==> agent.host.live == old(agent.host).live || agent.host.live == SetRunning(old(agent.host).live, a.id)
    ensures a.Create? ==> GrewBy(a.config, a.index, old(agent.host).live, agent.host.live)
    ensures a.Remove? ==> ok && agent.host.live == Without(old(agent.host).live, Ids(a.replicas))
    ensures a.Noop? || a.CronSkip? || a.BackupRun? ==> agent.host.live == old(agent.host).live
    ensures agent.step >= old(agent.step)
    ensures (Smooth(agent.env, CheckOf(c), old(agent.step), agent.step) && (a.JobRun? ==> a.config.jobRun.Some?))
         ==> done
    ensures !a.RollOut? ==> done == ok && agent.errors == old(agent.errors)
    ensures old(agent.errors) <= agent.errors <= old(agent.errors) + {ActionKey(a)}
    ensures ok && !done ==> ActionKey(a) in agent.errors
    ensures Recorded(a, old(agent.fires), agent.fires, ok)
  {
    hide *;
    ApplicableParts(a, agent.host.live);
    RecordsPlain(a, agent.fires, true);
    RecordsPlain(a, agent.fires, false);
    n := 0;
    if a.Create? {
      assert a == Create(a.config, a.index);
      ok, n := ApplyCreate(agent, a.config, a.index);
      done := ok;
    } else if a.RollOut? {
      assert a == RollOut(a.config, a.replicas);
      ok, done := ApplyRollout(agent, a.config, a.replicas);
    } else if a.CronRun? {
      ok, n := ApplyRun(agent, a, a.config, a.previous, Some(a.fireMs), None);
      done := ok;
    } else if a.JobRun? {
      if a.config.jobRun.None? {
        ScriptAll(a);
        assert agent.effects + [] == agent.effects;
        ContainedAlive(ScopeOf(a, agent.host, c, WebRoutes(agent.desired, agent.edge)), agent.host);
        ok, done := false, false;
      } else {
        ok, n := ApplyRun(agent, a, a.config, a.previous, None, Some(a.config.jobRun.value.id));
        done := ok;
      }
    } else {
      ok, n := ApplyPlain(agent, a, c);
      done := ok;
    }
  }
}
