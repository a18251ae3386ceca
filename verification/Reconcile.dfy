/**
 One reconcile pass: inspect, plan, apply each action in order, isolating failures
 (`apply_actions` in `reconcile.rs`).
 */
module Reconcile {
  import opened Common
  import opened Text
  import opened Types
  import opened Lists
  import opened Containers
  import opened Host
  import opened Planner
  import opened Docker
  import opened Stamp
  import opened RolloutShape
  import opened Agent
  import opened Apply
  import opened Inspect

  /** A service that is neither scheduled nor a one-off job. */
  predicate LongLived(c: ServiceConfig) { c.cron.None? && c.jobRun.None? }

  /** What the service wants is what runs. */
  ghost predicate ServiceConverged(c: ServiceConfig, mine: Live) {
    |mine| == c.replicas && forall r :: r in mine ==> Running(r) && !NeedsReplace(r, c)
  }

  /** The most containers of the service at any effect of its share of a pass. */
  function ShareTop(c: ServiceConfig, have: Live): int {
    if !LongLived(c) then Max(|have|, 1)
    else if Drifted(have, c) != [] then Top(RollOut(c, have), |have|)
    else Max(|have|, c.replicas)
  }

  /** Each container of the service matches, and those not running are still to be started. */
  ghost predicate Matched(live: Live, c: ServiceConfig, pending: Live) {
    forall r :: r in live && ReplicaKey(r) == KeyOf(c) ==> !NeedsReplace(r, c) && (Running(r) || r in pending)
  }

  ghost predicate NoDrift(live: Live, c: ServiceConfig) {
    forall r :: r in live && ReplicaKey(r) == KeyOf(c) ==> !NeedsReplace(r, c)
  }

  ghost predicate IndicesIn(live: Live, key: string, allowed: set<int>) {
    forall r :: r in live && ReplicaKey(r) == key ==> r.index in allowed
  }

  ghost predicate IdsExactly(live: Live, key: string, ids: set<nat>) {
    && (forall r :: r in live && ReplicaKey(r) == key ==> r.id in ids)
    && (forall r :: r in live && r.id in ids ==> ReplicaKey(r) == key)
    && |Mine(live, key)| == |ids|
  }

  // ---- starting what is stopped ----

  lemma StartMembers(live: Live, id: nat)
    ensures forall r :: r in SetRunning(live, id) ==>
              exists q :: q in live && (r == q || r == q.(state := "running")) && (q.id == id ==> Running(r)) && (q.id != id ==> r == q)
  {
    var s := SetRunning(live, id);
    forall r | r in s
      ensures exists q :: q in live && (r == q || r == q.(state := "running")) && (q.id == id ==> Running(r)) && (q.id != id ==>
          r == q)
    {
      var i :| 0 <= i < |s| && s[i] == r;
      assert live[i] in live;
    }
  }

  lemma StartKeepsFacts(live: Live, c: ServiceConfig, id: nat, allowed: set<int>, ids: set<nat>)
    requires IndicesIn(live, KeyOf(c), allowed) && IdsExactly(live, KeyOf(c), ids) && NoDrift(live, c)
    requires forall r :: r in live && r.id == id ==> ReplicaKey(r) == KeyOf(c)
    ensures var s := SetRunning(live, id);
            IndicesIn(s, KeyOf(c), allowed) && IdsExactly(s, KeyOf(c), ids) && NoDrift(s, c)
  {
    hide Keep, ServiceKey, SetRunning, ServiceConfigStamp;
    StartMembers(live, id);
    StartingKeeps(live, id, KeyOf(c));
    StartLength(Mine(live, KeyOf(c)), id);
  }

  lemma StartLength(live: Live, id: nat)
    ensures |SetRunning(live, id)| == |live|
  {
  }

  lemma StartMatches(live: Live, c: ServiceConfig, pending: Live)
    requires Matched(live, c, pending) && pending != []
    ensures Matched(SetRunning(live, pending[0].id), c, pending[1..])
  {
    hide ServiceKey, SetRunning, ServiceConfigStamp;
    var id := pending[0].id;
    StartMembers(live, id);
    assert pending == [pending[0]] + pending[1..];
  }

  /** Planned from a node that wants no fewer of the service than there are, or that rolls it out knowing what is stored. */
  ghost predicate ShareCareful(web: set<Route>, c: ServiceConfig, have: Live, h: Host) {
    LongLived(c) && if Drifted(have, c) == [] then |have| <= c.replicas else Careful(BeginOn(c, have, h, web))
  }

  /** In addition, a service that is rolled out serves with all its replicas. */
  ghost predicate ShareServing(web: set<Route>, c: ServiceConfig, have: Live, h: Host) {
    LongLived(c) && if Drifted(have, c) == [] then |have| <= c.replicas else Serving(BeginOn(c, have, h, web))
  }

  /** What one service's share of a pass may do. */
  ghost function ShareScope(web: set<Route>, c: ServiceConfig, have: Live, h: Host): Scope {
    Scope(web, ShareCareful(web, c, have, h), ShareServing(web, c, have, h), KeyOf(c), h, Some(c), ShareTop(c, have))
  }

  /** One attempt: an error is noted against the service and the pass goes on. */
  method Attempt(agent: AppAgent, a: Action, ghost c: ServiceConfig, ghost s: Scope) returns (ghost done: bool)
    requires agent.Valid() && Applicable(a, agent.host.live) && ActionKey(a) == KeyOf(c)
    requires !a.RollOut? && (!a.Remove? ==> a.config == c)
    requires s.key == KeyOf(c) && s.c == Some(c) && s.web == WebRoutes(agent.desired, agent.edge)
    requires Contained(s, agent.host)
    requires Top(a, |Mine(agent.host.live, KeyOf(c))|) <= s.top
    requires s.careful || s.serving ==> !a.Remove? && !a.ScaleDown? && !a.CronRun? && !a.JobRun?
    modifies agent`host, agent`step, agent`history, agent`effects, agent`ports, agent`fires, agent`errors
    ensures agent.step >= old(agent.step) && old(agent.errors) <= agent.errors
    ensures agent.Valid() && old(agent.history) <= agent.history && Contained(s, agent.host)
    ensures forall i :: |old(agent.history)| <= i < |agent.history| ==> Contained(s, agent.history[i])
    ensures exists n :: 0 <= n <= |Script(a)| && agent.effects == old(agent.effects) + Script(a)[..n]
    ensures a.Remove? ==> agent.effects == old(agent.effects) + Script(a)
    ensures done ==> Did(a, old(agent.host), agent.host.live)
    ensures a.Start? ==> agent.host.live == old(agent.host).live || agent.host.live == SetRunning(old(agent.host).live, a.id)
    ensures a.Create? ==> GrewBy(a.config, a.index, old(agent.host).live, agent.host.live)
    ensures a.Remove? ==> agent.host.live == Without(old(agent.host).live, Ids(a.replicas))
    ensures a.Noop? || a.CronSkip? || a.BackupRun? ==> agent.host.live == old(agent.host).live
    ensures Smooth(agent.env, c.healthCheck, old(agent.step), agent.step) && (a.JobRun? ==> a.config.jobRun.Some?) ==> done
    ensures agent.errors == if done || a.Remove? then old(agent.errors) else old(agent.errors) + {KeyOf(c)}
  {
    hide *;
    ghost var before := agent.host;
    ghost var n: nat;
    var ok: bool;
    ok, done, n := ApplyOne(agent, a, Some(c));
    if !ok && !a.Remove? {
      agent.errors := agent.errors + {KeyOf(a.config)};
    }
    ScriptFlags(a, before, s.web);
    ScriptAll(a);
    ScopeFrom(s, a, c, before, agent.host);
    forall i | |old(agent.history)| <= i < |agent.history| ensures Contained(s, agent.history[i]) {
      ScopeFrom(s, a, c, before, agent.history[i]);
    }
  }

  lemma ScriptFlags(a: Action, h: Host, web: set<Route>)
    requires !a.RollOut?
    ensures !a.Remove? && !a.ScaleDown? && !a.CronRun? && !a.JobRun? ==> ActsCarefully(a, h, web) && ActsServing(a, h, web)
  {
  }

  /** An action within its own scope is within the scope of a share that asks no more of it. */
  lemma ScopeFrom(s: Scope, a: Action, c: ServiceConfig, before: Host, h: Host)
    requires s.key == KeyOf(c) && s.c == Some(c) && Contained(s, before) && ActionKey(a) == KeyOf(c) && (!a.Remove? ==> a.config == c)
    requires Top(a, |Mine(before.live, KeyOf(c))|) <= s.top
    requires (s.careful ==> ActsCarefully(a, before, s.web)) && (s.serving ==> ActsServing(a, before, s.web))
    requires Contained(ScopeOf(a, before, Some(c), s.web), h)
    ensures Contained(s, h)
  {
    hide Keep, ServiceKey, Top, RoutesKept, ActsCarefully, ActsServing;
    RoutesJoin(s.web, s.key, s.careful, s.serving, ActsCarefully(a, before, s.web), ActsServing(a, before, s.web), s.begin, before, h);
  }

  lemma CanStart(live: Live, c: ServiceConfig, ids: set<nat>, r: ManagedReplica)
    requires IdsExactly(live, KeyOf(c), ids) && r.id in ids && IsNamePart(c.project) && IsNamePart(c.service)
    ensures Applicable(Start(c, r.index, r.id), live) && ActionKey(Start(c, r.index, r.id)) == KeyOf(c)
    ensures forall q :: q in live && q.id == r.id ==> ReplicaKey(q) == KeyOf(c)
    ensures Top(Start(c, r.index, r.id), |Mine(live, KeyOf(c))|) == |Mine(live, KeyOf(c))|
  {
    hide Keep, ServiceKey;
  }

  lemma ScopeCount(s: Scope, h: Host)
    requires Contained(s, h)
    ensures |Mine(h.live, s.key)| <= s.top
  {
    hide Keep, ServiceKey;
  }

  /** Everything known about the service's containers while they match. */
  ghost predicate Facts(live: Live, c: ServiceConfig, allowed: set<int>, ids: set<nat>) {
    IndicesIn(live, KeyOf(c), allowed) && IdsExactly(live, KeyOf(c), ids) && NoDrift(live, c)
  }

  /** Start each stopped replica. */
  method ApplyStarts(agent: AppAgent, actions: seq<Action>, ghost c: ServiceConfig, ghost stopped: Live, ghost s: Scope,
                     ghost allowed: set<int>, ghost ids: set<nat>)
    requires actions == Starts(c, stopped)
    requires agent.Valid() && s.key == KeyOf(c) && s.c == Some(c) && s.web == WebRoutes(agent.desired, agent.edge)
    requires Contained(s, agent.host) && IsNamePart(c.project) && IsNamePart(c.service)
    requires Facts(agent.host.live, c, allowed, ids) && Matched(agent.host.live, c, stopped)
    requires forall r :: r in stopped ==> r.id in ids
    modifies agent`host, agent`step, agent`history, agent`effects, agent`ports, agent`fires, agent`errors
    ensures agent.step >= old(agent.step) && old(agent.errors) <= agent.errors
    ensures agent.Valid() && old(agent.history) <= agent.history && Contained(s, agent.host)
    ensures forall i :: |old(agent.history)| <= i < |agent.history| ==> Contained(s, agent.history[i])
    ensures Facts(agent.host.live, c, allowed, ids)
    ensures Smooth(agent.env, c.healthCheck, old(agent.step), agent.step) ==> Matched(agent.host.live, c, [])
  {
    hide *;
    assert stopped[0..] == stopped;
    for i := 0 to |actions|
      invariant agent.Valid() && old(agent.history) <= agent.history && Contained(s, agent.host)
      invariant forall k :: |old(agent.history)| <= k < |agent.history| ==> Contained(s, agent.history[k])
      invariant Facts(agent.host.live, c, allowed, ids)
      invariant agent.step >= old(agent.step) && old(agent.errors) <= agent.errors
      invariant Smooth(agent.env, c.healthCheck, old(agent.step), agent.step) ==> Matched(agent.host.live, c, stopped[i..])
    {
      ghost var r := stopped[i];
      FactsParts(agent.host.live, c, allowed, ids);
      CanStart(agent.host.live, c, ids, r);
      ScopeCount(s, agent.host);
      StartKeepsFacts(agent.host.live, c, r.id, allowed, ids);
      FactsWhole(SetRunning(agent.host.live, r.id), c, allowed, ids);
      assert stopped[i..][0] == r && stopped[i..][1..] == stopped[i + 1..];
      if Smooth(agent.env, c.healthCheck, old(agent.step), agent.step) { StartMatches(agent.host.live, c, stopped[i..]); }
      ghost var before, k := agent.host, agent.step;
      ghost var done := Attempt(agent, actions[i], c, s);
      SmoothSplit(agent.env, c.healthCheck, old(agent.step), k, agent.step);
      if done { StartDid(c, r, before, agent.host.live); }
    }
    assert stopped[|stopped|..] == [];
  }

  lemma FactsParts(live: Live, c: ServiceConfig, allowed: set<int>, ids: set<nat>)
    requires Facts(live, c, allowed, ids)
    ensures IndicesIn(live, KeyOf(c), allowed) && IdsExactly(live, KeyOf(c), ids) && NoDrift(live, c)
  {
  }

  lemma FactsWhole(live: Live, c: ServiceConfig, allowed: set<int>, ids: set<nat>)
    requires IndicesIn(live, KeyOf(c), allowed) && IdsExactly(live, KeyOf(c), ids) && NoDrift(live, c)
    ensures Facts(live, c, allowed, ids)
  {
  }

  lemma StartDid(c: ServiceConfig, r: ManagedReplica, before: Host, live: Live)
    requires Did(Start(c, r.index, r.id), before, live)
    ensures live == SetRunning(before.live, r.id)
  {
  }

  // ---- creating what is missing ----

  function IndexSet(indices: seq<int>): set<int> { set k | k in indices }

  lemma CanCreate(live: Live, c: ServiceConfig, allowed: set<int>, index: int)
    requires IndicesIn(live, KeyOf(c), allowed) && index !in allowed && IsNamePart(c.project) && IsNamePart(c.service)
    ensures Applicable(Create(c, index), live) && ActionKey(Create(c, index)) == KeyOf(c)
    ensures Top(Create(c, index), |Mine(live, KeyOf(c))|) == |Mine(live, KeyOf(c))| + 1
  {
    hide Keep, ServiceKey;
  }

  lemma GrowthKeeps(live: Live, grown: Live, c: ServiceConfig, index: int, allowed: set<int>)
    requires GrewBy(c, index, live, grown) && IndicesIn(live, KeyOf(c), allowed) && NoDrift(live, c)
    ensures IndicesIn(grown, KeyOf(c), allowed + {index}) && NoDrift(grown, c)
    ensures |Mine(grown, KeyOf(c))| <= |Mine(live, KeyOf(c))| + 1
  {
    hide Keep, ServiceKey, NeedsReplace;
    if grown != live {
      var r :| grown == live + [r] && ReplicaKey(r) == KeyOf(c) && r.index == index && !NeedsReplace(r, c);
      MineAppend(live, [r], KeyOf(c));
      OneOfKey(r, KeyOf(c));
    }
  }

  lemma CreateDone(before: Host, live: Live, c: ServiceConfig, index: int)
    requires Did(Create(c, index), before, live)
    ensures |Mine(live, KeyOf(c))| == |Mine(before.live, KeyOf(c))| + 1
    ensures Matched(before.live, c, []) ==> Matched(live, c, [])
  {
    hide Keep, ServiceKey, NeedsReplace, NewReplica, ReplicaKey;
    var hostPort :| Created(c, index, before, live, hostPort);
    var r := NewReplica(c, before.nextId, index, "running", hostPort, None, None);
    NewReplicaFacts(c, before.nextId, index, hostPort, None, None);
    MineAppend(before.live, [r], KeyOf(c));
    OneOfKey(r, KeyOf(c));
  }

  method ApplyCreates(agent: AppAgent, actions: seq<Action>, ghost c: ServiceConfig, ghost indices: seq<int>, ghost s: Scope,
                      ghost allowed: set<int>)
    requires actions == Creates(c, indices)
    requires agent.Valid() && s.key == KeyOf(c) && s.c == Some(c) && s.web == WebRoutes(agent.desired, agent.edge)
    requires Contained(s, agent.host) && IsNamePart(c.project) && IsNamePart(c.service)
    requires IndicesIn(agent.host.live, KeyOf(c), allowed) && NoDrift(agent.host.live, c)
    requires SmallestUnused(allowed, 0, indices)
    requires |Mine(agent.host.live, KeyOf(c))| + |indices| <= s.top
    modifies agent`host, agent`step, agent`history, agent`effects, agent`ports, agent`fires, agent`errors
    ensures agent.step >= old(agent.step) && old(agent.errors) <= agent.errors
    ensures agent.Valid() && old(agent.history) <= agent.history && Contained(s, agent.host)
    ensures forall i :: |old(agent.history)| <= i < |agent.history| ==> Contained(s, agent.history[i])
    ensures NoDrift(agent.host.live, c)
    ensures |Mine(agent.host.live, KeyOf(c))| <= |Mine(old(agent.host.live), KeyOf(c))| + |indices|
    ensures Smooth(agent.env, c.healthCheck, old(agent.step), agent.step) ==>
        |Mine(agent.host.live, KeyOf(c))| == |Mine(old(agent.host.live), KeyOf(c))| + |indices|
    ensures Smooth(agent.env, c.healthCheck, old(agent.step), agent.step) && Matched(old(agent.host.live), c, []) ==>
        Matched(agent.host.live, c, [])
  {
    hide *;
    NoIndices(allowed, indices);
    for i := 0 to |actions|
      invariant agent.Valid() && old(agent.history) <= agent.history && Contained(s, agent.host)
      invariant forall k :: |old(agent.history)| <= k < |agent.history| ==> Contained(s, agent.history[k])
      invariant IndicesIn(agent.host.live, KeyOf(c), allowed + IndexSet(indices[..i])) && NoDrift(agent.host.live, c)
      invariant |Mine(agent.host.live, KeyOf(c))| <= |Mine(old(agent.host.live), KeyOf(c))| + i
      invariant agent.step >= old(agent.step) && old(agent.errors) <= agent.errors
      invariant Smooth(agent.env, c.healthCheck, old(agent.step), agent.step) ==>
          |Mine(agent.host.live, KeyOf(c))| == |Mine(old(agent.host.live), KeyOf(c))| + i
      invariant Smooth(agent.env, c.healthCheck, old(agent.step), agent.step) && Matched(old(agent.host.live), c, []) ==>
          Matched(agent.host.live, c, [])
    {
      NextIndexFree(allowed, indices, i);
      CanCreate(agent.host.live, c, allowed + IndexSet(indices[..i]), indices[i]);
      ghost var before, k := agent.host, agent.step;
      ghost var done := Attempt(agent, actions[i], c, s);
      SmoothSplit(agent.env, c.healthCheck, old(agent.step), k, agent.step);
      GrowthKeeps(before.live, agent.host.live, c, indices[i], allowed + IndexSet(indices[..i]));
      if done { CreateDone(before, agent.host.live, c, indices[i]); }
    }
  }

  lemma NoIndices(allowed: set<int>, indices: seq<int>)
    ensures allowed + IndexSet(indices[..0]) == allowed
  {
  }

  lemma NextIndexFree(allowed: set<int>, indices: seq<int>, i: nat)
    requires SmallestUnused(allowed, 0, indices) && i < |indices|
    ensures indices[i] !in allowed + IndexSet(indices[..i])
    ensures allowed + IndexSet(indices[..i]) + {indices[i]} == allowed + IndexSet(indices[..i + 1])
  {
    assert indices[..i + 1] == indices[..i] + [indices[i]];
  }

  // ---- shrinking ----

  ghost predicate Descending(s: Live) {
    forall i, j :: 0 <= i < j < |s| ==> s[i].index >= s[j].index
  }

  lemma {:induction false} InsertDescendingSorted(r: ManagedReplica, s: Live)
    requires Descending(s)
    ensures Descending(InsertDescending(r, s))
    decreases |s|
  {
    if s != [] && s[0].index >= r.index {
      InsertDescendingSorted(r, s[1..]);
      var t := InsertDescending(r, s[1..]);
      forall i | 0 <= i < |t| ensures t[i].index <= s[0].index {
        assert t[i] in multiset(t);
        assert t[i] == r || t[i] in multiset(s[1..]);
      }
    }
  }

  lemma {:induction false} SortDescendingSorted(s: Live)
    ensures Descending(SortDescending(s))
    decreases |s|
  {
    if s != [] {
      SortDescendingSorted(s[..|s| - 1]);
      InsertDescendingSorted(s[|s| - 1], SortDescending(s[..|s| - 1]));
    }
  }

  /** Scaling down removes as many as are too many, and those of the highest indices. */
  lemma ExtrasAreHighest(have: Live, replicas: int)
    requires 0 <= replicas < |have|
    ensures |Extras(have, replicas)| == |have| - replicas
    ensures multiset(Extras(have, replicas)) <= multiset(have)
    ensures forall kept, removed ::
              (removed in Extras(have, replicas) && kept in multiset(have) - multiset(Extras(have, replicas)))
              ==> removed.index >= kept.index
  {
    hide SortDescending;
    SortDescendingSorted(have);
    var t, n := SortDescending(have), |have| - replicas;
    assert t == t[..n] + t[n..];
    assert multiset(have) - multiset(t[..n]) == multiset(t[n..]);
    forall kept, removed | removed in t[..n] && kept in multiset(t[n..]) ensures removed.index >= kept.index {
      CutDescends(t, n, kept, removed);
    }
  }

  lemma CutDescends(t: Live, n: nat, kept: ManagedReplica, removed: ManagedReplica)
    requires Descending(t) && n <= |t| && removed in t[..n] && kept in t[n..]
    ensures removed.index >= kept.index
  {
    var i :| 0 <= i < n && t[i] == removed;
    var j :| 0 <= j < |t| - n && t[n..][j] == kept;
    assert t[n + j] == kept;
  }

  lemma ExtrasIds(have: Live, replicas: int)
    requires |have| > replicas && DistinctIds(have)
    ensures Ids(Extras(have, replicas)) <= Ids(have)
    ensures replicas >= 0 ==> |Ids(Extras(have, replicas))| == |have| - replicas
  {
    var t, n := SortDescending(have), Min(|have| - replicas, |have|);
    RearrangedDistinct(t, have, IdOf);
    Rearranged(t, have);
    assert forall i :: 0 <= i < n ==> t[..n][i] == t[i];
    DistinctCount(t[..n], IdOf);
    forall r | r in t[..n] ensures IdOf(r) in Ids(have) { assert r in t; }
  }

  lemma ScaleDownDone(live: Live, c: ServiceConfig, have: Live)
    requires DistinctIds(live) && DistinctIds(have) && |have| > c.replicas >= 0
    requires IdsExactly(live, KeyOf(c), Ids(have))
    ensures var left := Without(live, Ids(Extras(have, c.replicas)));
            |Mine(left, KeyOf(c))| == c.replicas
            && (Matched(live, c, []) ==> Matched(left, c, []))
  {
    hide Keep, ServiceKey, NeedsReplace, Extras;
    var mine, gone := Mine(live, KeyOf(c)), Ids(Extras(have, c.replicas));
    ExtrasIds(have, c.replicas);
    MineWithout(live, gone, KeyOf(c));
    DistinctKeep(live, OfKey(KeyOf(c)), IdOf);
    DistinctCount(mine, IdOf);
    DistinctCount(have, IdOf);
    assert Ids(mine) <= Ids(have);
    SubsetEqual(Ids(mine), Ids(have));
    WithoutCount(mine, gone);
  }

  lemma SubsetEqual<T>(a: set<T>, b: set<T>)
    requires a <= b && |a| == |b|
    ensures a == b
  {
    assert |b - a| == |b| - |a|;
  }

  lemma CanScaleDown(live: Live, c: ServiceConfig, have: Live)
    requires IdsExactly(live, KeyOf(c), Ids(have)) && DistinctIds(have) && |have| > c.replicas
    requires IsNamePart(c.project) && IsNamePart(c.service)
    ensures var a := ScaleDown(c, Extras(have, c.replicas));
            Applicable(a, live) && ActionKey(a) == KeyOf(c) && Top(a, |Mine(live, KeyOf(c))|) == |Mine(live, KeyOf(c))|
  {
    hide Keep, ServiceKey, Extras;
    ExtrasIds(have, c.replicas);
  }

  // ---- one service's share of a pass ----

  /** The planner saw the service's own containers. */
  ghost predicate Saw(c: ServiceConfig, have: Live, h: Host) {
    WellFormed(h) && multiset(have) == multiset(Mine(h.live, KeyOf(c)))
  }

  lemma HaveFacts(c: ServiceConfig, have: Live, h: Host)
    requires Saw(c, have, h)
    ensures DistinctIds(have) && |have| == |Mine(h.live, KeyOf(c))|
    ensures IdsExactly(h.live, KeyOf(c), Ids(have)) && IndicesIn(h.live, KeyOf(c), Indices(have))
    ensures forall r :: r in have <==> r in h.live && ReplicaKey(r) == KeyOf(c)
    ensures Drifted(have, c) == [] ==> NoDrift(h.live, c) && Matched(h.live, c, Stopped(have))
    ensures forall r :: r in Stopped(have) ==> r.id in Ids(have)
  {
    hide Keep, ServiceKey, NeedsReplace, ReplicaKey;
    var mine := Mine(h.live, KeyOf(c));
    DistinctKeep(h.live, OfKey(KeyOf(c)), IdOf);
    Rearranged(have, mine);
    RearrangedDistinct(have, mine, IdOf);
    DistinctCount(mine, IdOf);
    forall r | r in h.live && r.id in Ids(have) ensures ReplicaKey(r) == KeyOf(c) {
      var q :| q in have && IdOf(q) == r.id;
      DistinctInjective(h.live, IdOf, r, q);
    }
    forall r | r in have ensures IdOf(r) in Ids(have) { }
    if Drifted(have, c) == [] {
      forall r | r in h.live && ReplicaKey(r) == KeyOf(c)
        ensures !NeedsReplace(r, c) && (Running(r) || r in Stopped(have))
      {
        assert r in have;
        assert r !in Drifted(have, c);
      }
    }
  }

  lemma ConvergedWhen(live: Live, c: ServiceConfig)
    requires Matched(live, c, []) && |Mine(live, KeyOf(c))| == c.replicas
    ensures ServiceConverged(c, Mine(live, KeyOf(c))) && NoDrift(live, c)
  {
    hide Keep, ServiceKey, NeedsReplace, ReplicaKey;
  }

  /** What a share of a pass promises about the containers it leaves. */
  ghost predicate ShareLeft(c: ServiceConfig, have: Live, live: Live, aborted: bool, good: bool) {
    && (!aborted && c.rollout.maxSurge >= 1 && c.replicas >= 1 ==> |Mine(live, KeyOf(c))| <= Max(|have|, c.replicas))
    && (good && LongLived(c) && c.rollout.maxSurge >= 1 && c.replicas >= 0 ==>
         && !aborted && NoDrift(live, c)
         && (Drifted(have, c) == [] ==> ServiceConverged(c, Mine(live, KeyOf(c)))))
  }

  /** The share's running bound holds at the start. */
  lemma ShareBegins(web: set<Route>, c: ServiceConfig, have: Live, h: Host)
    requires Saw(c, have, h)
    ensures Contained(ShareScope(web, c, have, h), h)
    ensures var s := ShareScope(web, c, have, h);
            s.key == KeyOf(c) && s.c == Some(c) && s.web == web && s.begin == h && s.top == ShareTop(c, have)
    ensures !LongLived(c) || (Drifted(have, c) == [] && |have| > c.replicas)
            ==> !ShareScope(web, c, have, h).careful && !ShareScope(web, c, have, h).serving
    ensures |have| == |Mine(h.live, KeyOf(c))| <= ShareTop(c, have)
    ensures LongLived(c) && Drifted(have, c) == [] ==> ShareTop(c, have) >= c.replicas
    ensures !LongLived(c) ==> ShareTop(c, have) == Max(|have|, 1)
  {
    hide ServiceKey, NeedsReplace, ReplicaKey, Keep, ShareTop, Drifted;
    HaveFacts(c, have, h);
    ShareTopFacts(c, have);
    ContainedAlive(ShareScope(web, c, have, h), h);
  }

  lemma ShareTopFacts(c: ServiceConfig, have: Live)
    ensures |have| <= ShareTop(c, have)
    ensures LongLived(c) && Drifted(have, c) == [] ==> ShareTop(c, have) >= c.replicas
    ensures !LongLived(c) ==> ShareTop(c, have) == Max(|have|, 1)
    ensures LongLived(c) && Drifted(have, c) != [] ==> ShareTop(c, have) == Top(RollOut(c, have), |have|)
  {
    hide NeedsReplace, Keep;
    KeepCount(have, DriftsFrom(c), Matches(c));
  }

  /** A long-lived service without drift: start, then grow or shrink, then back up. */
  method ApplySteadyShare(agent: AppAgent, actions: seq<Action>, c: ServiceConfig, have: Live, ctx: Option<CronPlanContext>)
    requires agent.Valid() && Saw(c, have, agent.host) && IsNamePart(c.project) && IsNamePart(c.service)
    requires LongLived(c) && Drifted(have, c) == [] && actions == PlanService(c, have, ctx)
    modifies agent`host, agent`step, agent`history, agent`effects, agent`ports, agent`fires, agent`errors
    ensures agent.step >= old(agent.step) && old(agent.errors) <= agent.errors
    ensures agent.Valid() && old(agent.history) <= agent.history
    ensures Contained(ShareScope(WebRoutes(agent.desired, agent.edge), c, have, old(agent.host)), agent.host)
    ensures forall i :: |old(agent.history)| <= i < |agent.history| ==>
              Contained(ShareScope(WebRoutes(agent.desired, agent.edge), c, have, old(agent.host)), agent.history[i])
    ensures ShareLeft(c, have, agent.host.live, false, Smooth(agent.env, c.healthCheck, old(agent.step), agent.step))
  {
    hide *;
    ghost var begin := agent.host;
    ghost var s := ShareScope(WebRoutes(agent.desired, agent.edge), c, have, begin);
    ShareBegins(WebRoutes(agent.desired, agent.edge), c, have, begin);
    HaveFacts(c, have, begin);
    FactsWhole(begin.live, c, Indices(have), Ids(have));
    SteadyPlan(c, have, ctx);
    var n := |Stopped(have)|;
    var k := n + |PlanCount(c, have)|;
    ApplyStarts(agent, actions[..n], c, Stopped(have), s, Indices(have), Ids(have));
    ghost var started := agent.step;
    FactsParts(agent.host.live, c, Indices(have), Ids(have));
    DistinctCountOf(have);
    if |have| < c.replicas {
      GrowPlan(c, have);
      ApplyCreates(agent, actions[n..k], c, FreeIndices(Indices(have), 0, c.replicas - |have|), s, Indices(have));
    } else {
      LevelPlan(c, have);
      ApplyLevel(agent, actions[n..k], c, have, s);
    }
    ghost var live, counted := agent.host.live, agent.step;
    ApplyHarmless(agent, actions[k..], c, s);
    SmoothSplit(agent.env, c.healthCheck, old(agent.step), started, agent.step);
    SmoothSplit(agent.env, c.healthCheck, started, counted, agent.step);
    SteadyShareLeft(c, have, begin, live, Smooth(agent.env, c.healthCheck, old(agent.step), agent.step));
  }

  lemma DistinctCountOf(have: Live)
    requires DistinctIds(have)
    ensures |Ids(have)| == |have|
  {
    DistinctCount(have, IdOf);
  }

  lemma SteadyPlan(c: ServiceConfig, have: Live, ctx: Option<CronPlanContext>)
    requires LongLived(c) && Drifted(have, c) == []
    ensures var a, n := PlanService(c, have, ctx), |Stopped(have)|;
            var k := n + |PlanCount(c, have)|;
            && |a| >= k && a[..n] == Starts(c, Stopped(have)) && a[n..k] == PlanCount(c, have)
            && Harmless(c, a[k..])
  {
    hide Drifted, Stopped, Starts, PlanCount, PlanBackupOrNoop, Harmless;
    var x, y, z := Starts(c, Stopped(have)), PlanCount(c, have), PlanBackupOrNoop(c, have, ctx);
    BackupIsHarmless(c, have, ctx);
    assert PlanService(c, have, ctx) == x + y + z;
    assert (x + y + z)[..|x|] == x && (x + y + z)[|x|..|x| + |y|] == y && (x + y + z)[|x| + |y|..] == z;
  }

  lemma BackupIsHarmless(c: ServiceConfig, have: Live, ctx: Option<CronPlanContext>)
    ensures Harmless(c, PlanBackupOrNoop(c, have, ctx))
  {
  }

  /** Actions that leave the containers alone. */
  ghost predicate Harmless(c: ServiceConfig, actions: seq<Action>) {
    forall a :: a in actions ==> a == Noop(c) || (exists f :: a == BackupRun(c, f))
  }

  lemma GrowPlan(c: ServiceConfig, have: Live)
    requires |have| < c.replicas
    ensures var indices := FreeIndices(Indices(have), 0, c.replicas - |have|);
            && PlanCount(c, have) == Creates(c, indices) && SmallestUnused(Indices(have), 0, indices)
            && |indices| == c.replicas - |have|
  {
    hide Indices, SmallestUnused;
    FreeIndicesSmallest(Indices(have), 0, c.replicas - |have|);
  }

  lemma LevelPlan(c: ServiceConfig, have: Live)
    requires |have| >= c.replicas
    ensures |have| > c.replicas ==> PlanCount(c, have) == [ScaleDown(c, Extras(have, c.replicas))]
    ensures |have| == c.replicas ==> Harmless(c, PlanCount(c, have))
  {
    hide Keep, Extras;
  }

  method ApplyHarmless(agent: AppAgent, actions: seq<Action>, ghost c: ServiceConfig, ghost s: Scope)
    requires agent.Valid() && s.key == KeyOf(c) && s.c == Some(c) && s.web == WebRoutes(agent.desired, agent.edge)
    requires Contained(s, agent.host) && Harmless(c, actions)
    requires IsNamePart(c.project) && IsNamePart(c.service)
    modifies agent`host, agent`step, agent`history, agent`effects, agent`ports, agent`fires, agent`errors
    ensures agent.step >= old(agent.step) && old(agent.errors) <= agent.errors
    ensures agent.Valid() && old(agent.history) <= agent.history && Contained(s, agent.host)
    ensures forall i :: |old(agent.history)| <= i < |agent.history| ==> Contained(s, agent.history[i])
    ensures agent.host.live == old(agent.host).live
  {
    hide *;
    for i := 0 to |actions|
      invariant agent.Valid() && old(agent.history) <= agent.history && Contained(s, agent.host)
      invariant forall k :: |old(agent.history)| <= k < |agent.history| ==> Contained(s, agent.history[k])
      invariant agent.step >= old(agent.step) && old(agent.errors) <= agent.errors
      invariant agent.host.live == old(agent.host).live
    {
      HarmlessAction(c, actions, i, agent.host.live);
      ScopeCount(s, agent.host);
      ghost var before := agent.host;
      ghost var done := Attempt(agent, actions[i], c, s);
    }
  }

  lemma HarmlessAction(c: ServiceConfig, actions: seq<Action>, i: nat, live: Live)
    requires Harmless(c, actions) && i < |actions| && IsNamePart(c.project) && IsNamePart(c.service)
    ensures var a := actions[i];
            && (a.Noop? || a.BackupRun?) && a.config == c
            && Applicable(a, live) && ActionKey(a) == KeyOf(c)
            && Top(a, |Mine(live, KeyOf(c))|) == |Mine(live, KeyOf(c))|
  {
    hide ServiceKey;
    assert actions[i] in actions;
  }

  /** At or above the wanted count: shrink, or do nothing. */
  method ApplyLevel(agent: AppAgent, actions: seq<Action>, c: ServiceConfig, have: Live, ghost s: Scope)
    requires agent.Valid() && s.key == KeyOf(c) && s.c == Some(c) && s.web == WebRoutes(agent.desired, agent.edge)
    requires Contained(s, agent.host) && IsNamePart(c.project) && IsNamePart(c.service)
    requires |have| >= c.replicas && DistinctIds(have) && IdsExactly(agent.host.live, KeyOf(c), Ids(have))
    requires |have| > c.replicas ==> actions == [ScaleDown(c, Extras(have, c.replicas))]
    requires |have| == c.replicas ==> Harmless(c, actions)
    requires |have| > c.replicas ==> !s.careful && !s.serving
    requires NoDrift(agent.host.live, c)
    modifies agent`host, agent`step, agent`history, agent`effects, agent`ports, agent`fires, agent`errors
    ensures agent.step >= old(agent.step) && old(agent.errors) <= agent.errors
    ensures agent.Valid() && old(agent.history) <= agent.history && Contained(s, agent.host)
    ensures forall i :: |old(agent.history)| <= i < |agent.history| ==> Contained(s, agent.history[i])
    ensures |Mine(agent.host.live, KeyOf(c))| <= |have|
    ensures Smooth(agent.env, c.healthCheck, old(agent.step), agent.step) && c.replicas >= 0 ==>
        |Mine(agent.host.live, KeyOf(c))| == c.replicas
    ensures (Smooth(agent.env, c.healthCheck, old(agent.step), agent.step) && c.replicas >= 0
             && Matched(old(agent.host).live, c, []))
         ==> Matched(agent.host.live, c, [])
    ensures Smooth(agent.env, c.healthCheck, old(agent.step), agent.step) && c.replicas >= 0 ==> NoDrift(agent.host.live, c)
  {
    hide *;
    IdsCount(agent.host.live, c, have);
    if |have| == c.replicas {
      ApplyHarmless(agent, actions, c, s);
      return;
    }
    ghost var before := agent.host;
    agent.ValidHost();
    HostDistinct(before);
    CanScaleDown(before.live, c, have);
    ScopeCount(s, before);
    ghost var done, n;
    var ok;
    TopDown(c, have, before);
    ok, done, n := ApplyOne(agent, actions[0], Some(c));
    if !ok { agent.errors := agent.errors + {KeyOf(actions[0].config)}; }
    forall i | |old(agent.history)| <= i < |agent.history| ensures Contained(s, agent.history[i]) {
      ScopeFrom(s, actions[0], c, before, agent.history[i]);
    }
    ScopeFrom(s, actions[0], c, before, agent.host);
    DownLeft(c, have, before, agent.host);
    if c.replicas >= 0 && done {
      ScaleDownDone(before.live, c, have);
      DownDid(c, have, before, agent.host.live);
      RemovalKeepsNoDrift(before.live, c, Ids(Extras(have, c.replicas)));
    }
  }

  lemma IdsCount(live: Live, c: ServiceConfig, have: Live)
    requires IdsExactly(live, KeyOf(c), Ids(have)) && DistinctIds(have)
    ensures |Mine(live, KeyOf(c))| == |have|
  {
    DistinctCount(have, IdOf);
  }

  lemma HostDistinct(h: Host)
    requires WellFormed(h)
    ensures DistinctIds(h.live)
  {
  }

  lemma TopDown(c: ServiceConfig, have: Live, h: Host)
    requires |have| > c.replicas
    ensures var a := ScaleDown(c, Extras(have, c.replicas)); a.config == c && !a.Remove? && !a.RollOut? && !a.JobRun?
  {
  }

  lemma DownLeft(c: ServiceConfig, have: Live, before: Host, h: Host)
    requires |have| > c.replicas && |Mine(before.live, KeyOf(c))| == |have|
    requires var a := ScaleDown(c, Extras(have, c.replicas));
             exists web :: Contained(ScopeOf(a, before, Some(c), web), h)
    ensures |Mine(h.live, KeyOf(c))| <= |have|
  {
    hide Keep, ServiceKey, Extras;
  }

  lemma DownDid(c: ServiceConfig, have: Live, before: Host, live: Live)
    requires |have| > c.replicas && Did(ScaleDown(c, Extras(have, c.replicas)), before, live)
    ensures live == Without(before.live, Ids(Extras(have, c.replicas)))
  {
  }

  lemma RemovalKeepsNoDrift(live: Live, c: ServiceConfig, ids: set<nat>)
    requires NoDrift(live, c)
    ensures NoDrift(Without(live, ids), c)
  {
    hide ServiceKey, NeedsReplace;
  }

  lemma SteadyShareLeft(c: ServiceConfig, have: Live, begin: Host, live: Live, good: bool)
    requires |Mine(live, KeyOf(c))| <= |have| || |Mine(live, KeyOf(c))| <= c.replicas
    requires good && c.replicas >= 0 ==> NoDrift(live, c) && |Mine(live, KeyOf(c))| == c.replicas && Matched(live, c, [])
    ensures ShareLeft(c, have, live, false, good)
  {
    hide Keep, ServiceKey, NeedsReplace, ReplicaKey;
    if good && c.replicas >= 0 { ConvergedWhen(live, c); }
  }

  // ---- a drifted service ----

  /** A rollout that was not given up routes to gated replicas exactly as far as those it kept were gated. */
  ghost predicate ShareGated(web: set<Route>, c: ServiceConfig, have: Live, begin: Host, h: Host, aborted: bool) {
    !aborted && LongLived(c) && Drifted(have, c) != [] ==> GatesExact(BeginOn(c, have, begin, web), h)
  }

  /** Drift collapses to one rollout; an unhealthy replica or a failed effect aborts it. */
  method ApplyDriftShare(agent: AppAgent, actions: seq<Action>, c: ServiceConfig, have: Live) returns (ghost aborted: bool)
    requires agent.Valid() && Saw(c, have, agent.host) && IsNamePart(c.project) && IsNamePart(c.service)
    requires LongLived(c) && Drifted(have, c) != [] && actions == [RollOut(c, have)]
    modifies agent`host, agent`step, agent`history, agent`effects, agent`ports, agent`fires, agent`errors
    ensures agent.step >= old(agent.step) && old(agent.errors) <= agent.errors
    ensures agent.Valid() && old(agent.history) <= agent.history
    ensures Contained(ShareScope(WebRoutes(agent.desired, agent.edge), c, have, old(agent.host)), agent.host)
    ensures forall i :: |old(agent.history)| <= i < |agent.history| ==>
              Contained(ShareScope(WebRoutes(agent.desired, agent.edge), c, have, old(agent.host)), agent.history[i])
    ensures ShareLeft(c, have, agent.host.live, aborted, Smooth(agent.env, c.healthCheck, old(agent.step), agent.step))
    ensures aborted ==> KeyOf(c) in agent.errors
    ensures ShareGated(WebRoutes(agent.desired, agent.edge), c, have, old(agent.host), agent.host, aborted)
  {
    hide *;
    ghost var begin := agent.host;
    ghost var s := ShareScope(WebRoutes(agent.desired, agent.edge), c, have, begin);
    ShareBegins(WebRoutes(agent.desired, agent.edge), c, have, begin);
    ShareTopFacts(c, have);
    RollOutFacts(c, have, begin);
    RollOutFlags(WebRoutes(agent.desired, agent.edge), c, have, begin);
    ghost var done, n;
    var ok;
    ok, done, n := ApplyOne(agent, actions[0], Some(c));
    if !ok { agent.errors := agent.errors + {KeyOf(c)}; }
    forall i | |old(agent.history)| <= i < |agent.history| ensures Contained(s, agent.history[i]) {
      ScopeFrom(s, actions[0], c, begin, agent.history[i]);
    }
    ScopeFrom(s, actions[0], c, begin, agent.host);
    aborted := !done;
    SharesGates(WebRoutes(agent.desired, agent.edge), c, have, begin, agent.host, aborted);
    if done { RolledOutLeft(c, have, begin, agent.host.live, Smooth(agent.env, c.healthCheck, old(agent.step), agent.step)); }
    else { AbortedLeft(c, have, agent.host.live); }
  }

  lemma RollOutFlags(web: set<Route>, c: ServiceConfig, have: Live, h: Host)
    requires Drifted(have, c) != []
    ensures ShareScope(web, c, have, h).careful ==> ActsCarefully(RollOut(c, have), h, web)
    ensures ShareScope(web, c, have, h).serving ==> ActsServing(RollOut(c, have), h, web)
  {
    hide Careful, Serving, Drifted;
  }

  lemma RollOutFacts(c: ServiceConfig, have: Live, h: Host)
    requires Saw(c, have, h) && IsNamePart(c.project) && IsNamePart(c.service)
    ensures var a := RollOut(c, have);
            Applicable(a, h.live) && ActionKey(a) == KeyOf(c) && a.config == c && !a.Remove? && !a.JobRun?
  {
    hide ServiceKey;
  }

  lemma SharesGates(web: set<Route>, c: ServiceConfig, have: Live, begin: Host, h: Host, aborted: bool)
    ensures aborted || !LongLived(c) || Drifted(have, c) == [] || GatesExact(BeginOn(c, have, begin, web), h)
        ==> ShareGated(web, c, have, begin, h, aborted)
  {
    hide Drifted, GatesExact;
  }

  lemma AbortedLeft(c: ServiceConfig, have: Live, live: Live)
    ensures ShareLeft(c, have, live, true, false)
  {
  }

  /** A completed rollout leaves no drift and exactly max(wanted, already matching) replicas. */
  lemma RolledOutLeft(c: ServiceConfig, have: Live, before: Host, live: Live, good: bool)
    requires Saw(c, have, before) && IsNamePart(c.project) && IsNamePart(c.service)
    requires Drifted(have, c) != [] && Did(RollOut(c, have), before, live)
    ensures ShareLeft(c, have, live, false, good)
    ensures NoDrift(live, c)
    ensures c.rollout.maxSurge >= 1 ==> |Mine(live, KeyOf(c))| == Max(c.replicas, |Matching(have, c)|)
  {
    hide Keep, ServiceKey, NeedsReplace, ReplicaKey, WellFormed, NextIndex, IsSurged;
    var surged :| RolledOut(c, have, before, live, surged);
    var b := BeginAt(c, have, before);
    assert Begins(b) && Key(b) == KeyOf(c);
    OldFacts(b);
    ShapeCounts(b, live, |Old(b)|, surged);
    ShapeMembers(b, live, |Old(b)|, surged);
    assert Old(b)[..|Old(b)|] == Old(b);
    forall r | r in live && ReplicaKey(r) == KeyOf(c) ensures !NeedsReplace(r, c) {
      if r in surged {
        SurgedMatches(b, surged, r);
      } else {
        assert r in have && IdOf(r) !in Ids(Old(b));
        assert r !in Drifted(have, c);
      }
    }
  }

  lemma SurgedMatches(b: Begin, surged: Live, r: ManagedReplica)
    requires Surged(b, surged) && r in surged
    ensures !NeedsReplace(r, b.c)
  {
    var i :| 0 <= i < |surged| && surged[i] == r;
    assert IsSurged(b, surged[i], i);
  }

  // ---- scheduled services and one-off jobs ----

  lemma RunShareIsLeft(c: ServiceConfig, have: Live, live: Live, good: bool)
    requires |Mine(live, KeyOf(c))| <= Max(|have|, 1) && !LongLived(c)
    ensures ShareLeft(c, have, live, false, good)
  {
    hide Keep, ServiceKey, NeedsReplace, ReplicaKey;
  }

  /** How the plan of a scheduled service or a job ends. */
  ghost predicate RunDecision(c: ServiceConfig, a: Action, previous: Live) {
    || a == Noop(c) || (exists f :: a == CronSkip(c, f)) || (exists f :: a == CronRun(c, f, previous))
    || (c.jobRun.Some? && a == JobRun(c, previous))
  }

  /** The containers listed are exactly the service's. */
  ghost predicate Takes(live: Live, previous: Live, key: string) {
    OwnIds(live, previous, key) && Covers(live, previous, key)
  }

  lemma RunPlan(c: ServiceConfig, have: Live, ctx: Option<CronPlanContext>)
    requires !LongLived(c)
    ensures var actions := PlanService(c, have, ctx);
            && actions != []
            && RunDecision(c, actions[|actions| - 1], if c.jobRun.Some? then have else CronRuns(have))
            && (c.jobRun.Some? || LongRunning(have) == [] ==> |actions| == 1)
            && (c.jobRun.None? && LongRunning(have) != [] ==> |actions| == 2 && actions[0] == Remove(KeyOf(c), LongRunning(have)))
  {
    hide Keep, ServiceKey, LabelFire;
  }

  lemma OwnSubset(live: Live, key: string, have: Live, some: Live)
    requires forall r :: r in live && r.id in Ids(have) ==> ReplicaKey(r) == key
    requires forall r :: r in some ==> r in have
    ensures OwnIds(live, some, key)
  {
    hide ReplicaKey;
    forall r | r in live && r.id in Ids(some) ensures ReplicaKey(r) == key {
      var q :| q in some && IdOf(q) == r.id;
      assert IdOf(q) in Ids(have);
    }
  }

  lemma CoversRest(live: Live, key: string, have: Live, gone: Live, rest: Live)
    requires forall r :: r in live && ReplicaKey(r) == key ==> r in have
    requires forall r :: r in have ==> r in gone || r in rest
    ensures Covers(Without(live, Ids(gone)), rest, key)
  {
    hide ReplicaKey;
    forall r | r in Without(live, Ids(gone)) && ReplicaKey(r) == key ensures IdOf(r) in Ids(rest) {
      assert r in gone ==> IdOf(r) in Ids(gone);
    }
  }

  lemma NoneGone(live: Live)
    ensures Without(live, Ids([])) == live
  {
    NoIdsRemoved(live, []);
  }

  /** Removing the leftovers leaves exactly the scheduled runs. */
  lemma RunsTaken(c: ServiceConfig, have: Live, h: Host)
    requires Saw(c, have, h)
    ensures Takes(h.live, have, KeyOf(c)) && OwnIds(h.live, LongRunning(have), KeyOf(c))
    ensures Takes(Without(h.live, Ids(LongRunning(have))), CronRuns(have), KeyOf(c))
    ensures LongRunning(have) == [] ==> Takes(h.live, CronRuns(have), KeyOf(c))
  {
    hide ServiceKey, NeedsReplace, ReplicaKey, Ids, Saw;
    HaveFacts(c, have, h);
    var stale, runs := LongRunning(have), CronRuns(have);
    OwnSubset(h.live, KeyOf(c), have, have);
    OwnSubset(h.live, KeyOf(c), have, stale);
    OwnSubset(h.live, KeyOf(c), have, runs);
    CoversRest(h.live, KeyOf(c), have, stale, runs);
    CoversRest(h.live, KeyOf(c), have, [], have);
    NoneGone(h.live);
  }

  lemma CanDecide(c: ServiceConfig, a: Action, previous: Live, live: Live)
    requires RunDecision(c, a, previous) && Takes(live, previous, KeyOf(c)) && IsNamePart(c.project) && IsNamePart(c.service)
    ensures Applicable(a, live) && ActionKey(a) == KeyOf(c) && !a.RollOut? && !a.Remove? && a.config == c
    ensures Top(a, |Mine(live, KeyOf(c))|) <= Max(|Mine(live, KeyOf(c))|, 1)
  {
    hide Keep, ServiceKey;
  }

  /** The last action of a scheduled service or a job. */
  method ApplyDecision(agent: AppAgent, a: Action, ghost c: ServiceConfig, ghost previous: Live, ghost s: Scope)
    requires agent.Valid() && s.key == KeyOf(c) && s.c == Some(c) && s.web == WebRoutes(agent.desired, agent.edge)
    requires Contained(s, agent.host) && s.top >= 1 && IsNamePart(c.project) && IsNamePart(c.service)
    requires RunDecision(c, a, previous) && Takes(agent.host.live, previous, KeyOf(c)) && !s.careful && !s.serving
    modifies agent`host, agent`step, agent`history, agent`effects, agent`ports, agent`fires, agent`errors
    ensures !a.RollOut? && exists n :: 0 <= n <= |Script(a)| && agent.effects == old(agent.effects) + Script(a)[..n]
    ensures agent.step >= old(agent.step) && old(agent.errors) <= agent.errors
    ensures agent.Valid() && old(agent.history) <= agent.history && Contained(s, agent.host)
    ensures forall i :: |old(agent.history)| <= i < |agent.history| ==> Contained(s, agent.history[i])
  {
    hide *;
    CanDecide(c, a, previous, agent.host.live);
    ScopeCount(s, agent.host);
    MaxWithin(|Mine(agent.host.live, KeyOf(c))|, 1, s.top);
    ghost var done := Attempt(agent, a, c, s);
  }

  lemma MaxWithin(a: int, b: int, top: int)
    requires a <= top && b <= top
    ensures Max(a, b) <= top
  {
  }

  /** What a schedule or a job leaves of its service's former life. */
  function Leftovers(c: ServiceConfig, have: Live): Live { if c.jobRun.Some? then [] else LongRunning(have) }

  /** A scheduled service or a job: leftovers go first, then at most one run is attempted. */
  method ApplyRunShare(agent: AppAgent, actions: seq<Action>, c: ServiceConfig, have: Live, ctx: Option<CronPlanContext>)
    requires agent.Valid() && Saw(c, have, agent.host) && IsNamePart(c.project) && IsNamePart(c.service)
    requires !LongLived(c) && actions == PlanService(c, have, ctx)
    modifies agent`host, agent`step, agent`history, agent`effects, agent`ports, agent`fires, agent`errors
    ensures agent.step >= old(agent.step) && old(agent.errors) <= agent.errors
    ensures agent.Valid() && old(agent.history) <= agent.history
    ensures var a := actions[|actions| - 1];
            && RunDecision(c, a, if c.jobRun.Some? then have else CronRuns(have)) && !a.RollOut?
            && exists n :: 0 <= n <= |Script(a)| && agent.effects == old(agent.effects) + Deletes(Leftovers(c, have)) + Script(a)[..n]
    ensures Contained(ShareScope(WebRoutes(agent.desired, agent.edge), c, have, old(agent.host)), agent.host)
    ensures forall i :: |old(agent.history)| <= i < |agent.history| ==>
              Contained(ShareScope(WebRoutes(agent.desired, agent.edge), c, have, old(agent.host)), agent.history[i])
  {
    hide *;
    ghost var begin := agent.host;
    ghost var s := ShareScope(WebRoutes(agent.desired, agent.edge), c, have, begin);
    ShareBegins(WebRoutes(agent.desired, agent.edge), c, have, begin);
    MaxAtLeast(|have|, 1);
    RunPlan(c, have, ctx);
    LeftoversAre(c, have);
    RunsTaken(c, have, begin);
    assert agent.effects + [] == agent.effects;
    if |actions| == 2 {
      CanRemove(KeyOf(c), LongRunning(have), begin.live);
      ghost var done := Attempt(agent, actions[0], c, s);
    }
    ApplyDecision(agent, actions[|actions| - 1], c, if c.jobRun.Some? then have else CronRuns(have), s);
  }

  lemma LeftoversAre(c: ServiceConfig, have: Live)
    ensures Leftovers(c, have) == (if c.jobRun.Some? then [] else LongRunning(have)) && Deletes([]) == []
    ensures Script(Remove(KeyOf(c), LongRunning(have))) == Deletes(LongRunning(have))
  {
  }

  lemma CanRemove(key: string, replicas: Live, live: Live)
    requires OwnIds(live, replicas, key)
    ensures var a := Remove(key, replicas);
            Applicable(a, live) && ActionKey(a) == key && Top(a, |Mine(live, key)|) == |Mine(live, key)|
  {
  }

  /** One service's share of a pass. */
  method ApplyShare(agent: AppAgent, actions: seq<Action>, c: ServiceConfig, have: Live, ctx: Option<CronPlanContext>)
    returns (ghost aborted: bool)
    requires agent.Valid() && Saw(c, have, agent.host) && IsNamePart(c.project) && IsNamePart(c.service)
    requires actions == PlanService(c, have, ctx)
    modifies agent`host, agent`step, agent`history, agent`effects, agent`ports, agent`fires, agent`errors
    ensures agent.step >= old(agent.step) && old(agent.errors) <= agent.errors
    ensures agent.Valid() && old(agent.history) <= agent.history
    ensures Contained(ShareScope(WebRoutes(agent.desired, agent.edge), c, have, old(agent.host)), agent.host)
    ensures forall i :: |old(agent.history)| <= i < |agent.history| ==>
              Contained(ShareScope(WebRoutes(agent.desired, agent.edge), c, have, old(agent.host)), agent.history[i])
    ensures ShareLeft(c, have, agent.host.live, aborted, Smooth(agent.env, c.healthCheck, old(agent.step), agent.step))
    ensures aborted ==> LongLived(c) && Drifted(have, c) != [] && KeyOf(c) in agent.errors
    ensures ShareGated(WebRoutes(agent.desired, agent.edge), c, have, old(agent.host), agent.host, aborted)
  {
    hide *;
    LongLivedIs(c);
    ShareTopFacts(c, have);
    aborted := false;
    ghost var begin, web := agent.host, WebRoutes(agent.desired, agent.edge);
    if c.jobRun.Some? || c.cron.Some? {
      ApplyRunShare(agent, actions, c, have, ctx);
      ShareBegins(WebRoutes(agent.desired, agent.edge), c, have, old(agent.host));
      ScopeCount(ShareScope(WebRoutes(agent.desired, agent.edge), c, have, old(agent.host)), agent.host);
      RunShareIsLeft(c, have, agent.host.live, Smooth(agent.env, c.healthCheck, old(agent.step), agent.step));
      SharesGates(web, c, have, begin, agent.host, false);
    } else if Drifted(have, c) == [] {
      ApplySteadyShare(agent, actions, c, have, ctx);
      SharesGates(web, c, have, begin, agent.host, false);
    } else {
      DriftPlan(c, have, ctx);
      aborted := ApplyDriftShare(agent, actions, c, have);
    }
  }

  lemma LongLivedIs(c: ServiceConfig)
    ensures LongLived(c) <==> !(c.jobRun.Some? || c.cron.Some?)
  {
  }

  lemma DriftPlan(c: ServiceConfig, have: Live, ctx: Option<CronPlanContext>)
    requires LongLived(c) && Drifted(have, c) != []
    ensures PlanService(c, have, ctx) == [RollOut(c, have)]
  {
    hide Drifted;
  }
}
