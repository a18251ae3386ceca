/**
 The agent at work (`reconcile.rs`): its own state, the effects it drives one at a time,
 and the rollout loop. `history` records the outside world after every effect, so a
 property of every entry holds at every point where the agent could crash.
 */
module Agent {
  import opened Common
  import opened Text
  import opened Types
  import opened Lists
  import opened Containers
  import opened Health
  import opened Host
  import opened Planner
  import opened Stamp
  import opened Docker
  import opened RolloutShape

  /** The effects an agent asks of its host. */
  datatype Effect =
    | Pull(image: string)
    | Run(c: ServiceConfig, index: int, fire: Option<int>, jobRunId: Option<string>)
    | StartIt(id: nat)
    | Stop(id: nat)
    | StopName(name: string)
    | Delete(id: nat)
    | Allocate(slot: string)
    | Release(slot: string)
    | PublishRoutes(excluded: set<nat>)
    | Heartbeat
    | Sleep(ms: int)
    | Await(ceilingMs: int)
    | RecordFire(key: string, fireMs: int)
    | Backup(key: string, fireMs: int)

  /** How a rollout ended: converged, gave up on an unhealthy replica, or an effect failed. */
  datatype RolloutEnd = Completed | HealthAborted | Errored

  datatype StepEnd = Stepped | Abandoned | Broke

  /** The effect numbered `s` succeeds; if it waits for this health check, the gate opens. */
  ghost predicate Succeeds(env: Env, hc: Option<HealthCheck>, s: nat) {
    && env.verdict(s).Done? && env.others(s)
    && (hc.Some? ==> PassesGate(hc.value, RolloutHealthCeilingMs(hc.value), env.probe(s), env.clock(s)))
  }

  /** Every effect from number `a` up to, but not including, `b` succeeds, for a service with this health check. */
  ghost predicate Smooth(env: Env, hc: Option<HealthCheck>, a: nat, b: nat) {
    forall s: nat :: a <= s < b ==> Succeeds(env, hc, s)
  }

  lemma SmoothAt(env: Env, hc: Option<HealthCheck>, a: nat, b: nat, s: nat)
    requires a <= s < b
    ensures Smooth(env, hc, a, b) ==> env.verdict(s).Done? && env.others(s)
    ensures hc.Some? && Smooth(env, hc, a, b) ==>
        PassesGate(hc.value, RolloutHealthCeilingMs(hc.value), env.probe(s), env.clock(s))
  {
    hide PassesGate;
    assert Smooth(env, hc, a, b) ==> Succeeds(env, hc, s);
  }

  lemma SmoothSplit(env: Env, hc: Option<HealthCheck>, a: nat, m: nat, b: nat)
    requires a <= m <= b
    ensures Smooth(env, hc, a, b) <==> Smooth(env, hc, a, m) && Smooth(env, hc, m, b)
  {
    hide Succeeds;
  }

  /** A clock that stands still until it has been read `first` times. */
  function PatientClock(first: nat): nat -> int { (k: nat) => if k < first then 0 else k }

  /** Probes that are good from the start open a gate whose clock waits for them. */
  lemma PatientGateOpens(threshold: int, ceilingMs: int)
    requires ceilingMs > 0
    ensures OpensAt((k: nat) => true, PatientClock(Max(1, threshold)), threshold, ceilingMs, Max(1, threshold) - 1)
  {
    var first := Max(1, threshold);
    var clock := PatientClock(first);
    var deadline := clock(0) + ceilingMs;
    forall k: nat | k < first - 1 ensures !Reaches(clock, deadline, k) { assert clock(k + 1) == clock(0) == 0; }
  }

  lemma PatientClockAdvances(first: nat)
    ensures Advances(PatientClock(first))
  {
    forall bound: int ensures EventuallyReaches(PatientClock(first), bound) {
      assert Reaches(PatientClock(first), bound, Max(first, Max(0, bound)));
    }
  }

  /** Smooth runs exist for every health check. */
  lemma SmoothIsPossible(hc: HealthCheck, n: nat)
    ensures exists env: Env :: Smooth(env, Some(hc), 0, n) && forall s: nat :: Advances(env.clock(s))
  {
    hide OpensAt, Advances, PatientClock, RolloutHealthCeilingMs;
    var first := Max(1, hc.healthyThreshold);
    var good, clock := (k: nat) => true, PatientClock(first);
    var env := Env((s: nat) => Done, (s: nat) => true, (s: nat) => 0, (s: nat) => 0, (s: nat) => good, (s: nat) => clock);
    CeilingIsPositive(hc);
    PatientGateOpens(hc.healthyThreshold, RolloutHealthCeilingMs(hc));
    PatientClockAdvances(first);
    assert PassesGate(hc, RolloutHealthCeilingMs(hc), good, clock) by {
      assert OpensAt(good, clock, hc.healthyThreshold, RolloutHealthCeilingMs(hc), first - 1);
    }
    forall s: nat | s < n ensures Succeeds(env, Some(hc), s) { }
  }

  lemma CeilingIsPositive(hc: HealthCheck)
    ensures RolloutHealthCeilingMs(hc) > 0
  {
  }

  predicate NameTaken(live: Live, name: string) { exists r :: r in live && NameOf(r) == name }

  /** What a run leaves behind: a refused name leaves nothing, a late failure a created container. */
  function AfterRun(h: Host, v: Verdict, t: int, r: ManagedReplica): Host {
    if NameTaken(h.live, NameOf(r)) then h.(now := t, clashes := h.clashes + 1)
    else match v
      case Done => h.(now := t, live := h.live + [r], nextId := h.nextId + 1)
      case FailedAfter => h.(now := t, live := h.live + [r.(state := "created")], nextId := h.nextId + 1)
      case FailedBefore => h.(now := t)
  }

  function SetRunning(live: Live, id: nat): (r: Live)
    ensures |r| == |live|
    ensures forall i :: 0 <= i < |live| ==> r[i] == if live[i].id == id then live[i].(state := "running") else live[i]
  {
    if live == [] then []
    else
      var last := live[|live| - 1];
      SetRunning(live[..|live| - 1], id) + [if last.id == id then last.(state := "running") else last]
  }

  function HasName(name: string): ManagedReplica -> bool { (r: ManagedReplica) => NameOf(r) != name }

  function WithoutName(live: Live, name: string): Live { Keep(live, HasName(name)) }

  // ---- what every step of a rollout keeps ----

  /** Every container has the configured cpu and memory. */
  ghost predicate Sized(s: Live, c: ServiceConfig) {
    forall r :: r in s ==> r.cpu == c.cpu && r.memory == c.memory
  }

  function IsRunning(): ManagedReplica -> bool { (r: ManagedReplica) => Running(r) }

  function RunningOf(live: Live): Live { Keep(live, IsRunning()) }

  ghost predicate AllRunning(live: Live) { forall r :: r in live ==> Running(r) }

  /** Bounds on the service's containers; everyone else's are untouched and no name clashed. */
  ghost predicate Bounded(b: Begin, h: Host) {
    var n, want, surge := |Mine(h.live, Key(b))|, b.c.replicas, b.c.rollout.maxSurge;
    && Others(h.live, Key(b)) == Others(b.host.live, Key(b))
    && n <= Max(|b.current|, want + surge)
    && n <= |Old(b)| + Max(want, Kept(b))
    && (surge >= 1 ==> n >= Min(|b.current|, want))
    && (surge >= 1 && AllRunning(b.current) ==> |RunningOf(Mine(h.live, Key(b)))| >= Min(|b.current|, want))
    && h.clashes == b.host.clashes
    && (Sized(b.current, b.c) ==> Sized(Mine(h.live, Key(b)), b.c))
  }

  /** The service has a route, and the agent knows which shard is stored. */
  ghost predicate Careful(b: Begin) {
    b.c.ingress.Some? && RouteOf(b.c) in b.web && InStep(b.host)
  }

  /** Every replica serves, and the policy leaves room to replace one. */
  ghost predicate Serving(b: Begin) {
    && Careful(b) && b.c.rollout.maxSurge >= 1 && b.c.replicas >= 1
    && b.current != [] && (forall r :: r in b.current ==> Running(r) && r.hostPort.Some?)
  }

  predicate GateNeeded(c: ServiceConfig) { c.ingress.Some? && c.healthCheck.Some? }

  /** The agent has been told that the node's shards are stored as they should be now. */
  ghost predicate Announced(h: Host, web: set<Route>, excluded: set<nat>) {
    web != {} ==> h.cached == Some(Backends(h.live, web, excluded))
  }

  /** Every surged container named by a shard published since has passed its health gate. */
  ghost predicate Gated(b: Begin, h: Host) {
    GateNeeded(b.c) ==>
      forall i, e :: |b.host.pubs| <= i < |h.pubs| && e in h.pubs[i].table && e.id >= b.host.nextId ==> e.id in h.passed
  }

  /** Every replica of the service that the next shard would name has passed its health gate. */
  ghost predicate GatedNow(h: Host, key: string) {
    forall r :: r in h.live && ReplicaKey(r) == key && Running(r) && r.hostPort.Some? ==> r.id in h.passed
  }

  /** So had every such replica that already matches the configuration. */
  ghost predicate KeptGated(c: ServiceConfig, current: Live, passed: set<nat>) {
    forall r :: r in Matching(current, c) && Running(r) && r.hostPort.Some? ==> r.id in passed
  }

  /** Every container the table names for the service has passed its health gate. */
  ghost predicate LinesGated(table: set<Backend>, key: string, passed: set<nat>) {
    forall e :: e in table && e.route.key == key ==> e.id in passed
  }

  /**
   With a gate, all replicas the service is routed to have passed one, in truth and in the
   shard announced, if and only if those that matched from the start had.
   */
  ghost predicate GatesExact(b: Begin, h: Host) {
    GateNeeded(b.c) ==>
      && (GatedNow(h, Key(b)) <==> KeptGated(b.c, b.current, b.host.passed))
      && (RouteOf(b.c) in b.web ==>
           h.cached.Some? && (LinesGated(h.cached.value, Key(b), h.passed) <==> KeptGated(b.c, b.current, b.host.passed)))
  }

  ghost predicate RoutingKept(b: Begin, h: Host) {
    RoutesKept(b.web, Key(b), Careful(b), Serving(b), b.host, h)
  }

  ghost predicate StepOk(b: Begin, h: Host) { Bounded(b, h) && Gated(b, h) && RoutingKept(b, h) }

  /** The containers stand at a point of the rollout, and every promise holds there. */
  ghost predicate HostPoint(b: Begin, h: Host, drained: nat, surged: Live) {
    && Begins(b) && WellFormed(h)
    && Shape(b, h.live, drained, surged)
    && h.nextId >= b.host.nextId + |surged|
    && |h.pubs| >= |b.host.pubs|
    && (|surged| > 0 ==> Kept(b) + |surged| <= b.c.replicas)
    && StepOk(b, h)
  }

  ghost predicate AllGated(b: Begin, h: Host, surged: Live) {
    GateNeeded(b.c) ==> forall r :: r in surged ==> r.id in h.passed
  }

  /** A point between two turns of the rollout loop. */
  ghost predicate AtPoint(b: Begin, h: Host, ports: map<string, int>, drained: nat, surged: Live) {
    && HostPoint(b, h, drained, surged)
    && h.nextId == b.host.nextId + |surged| && h.unsure == b.host.unsure
    && PortShape(b, ports, drained, surged)
    && AllGated(b, h, surged)
  }

  class AppAgent {
    const env: Env
    /** the edge under watch, any edge */
    const edge: string
    var step: nat
    var desired: seq<ServiceConfig>
    var host: Host
    var ports: map<string, int>
    /** the durable record of the last fire, by key */
    var fires: map<string, int>
    var errors: set<string>
    ghost var history: seq<Host>
    ghost var effects: seq<Effect>

    ghost predicate Valid()
      reads `host
    {
      WellFormed(host) && host.edge == edge && forall s: nat :: Advances(env.clock(s))
    }

    lemma ValidHost()
      requires Valid()
      ensures WellFormed(host) && host.edge == edge
    {
    }

    constructor (env: Env, desired: seq<ServiceConfig>, host: Host, ports: map<string, int>, fires: map<string, int>)
      requires WellFormed(host) && forall s: nat :: Advances(env.clock(s))
      ensures Valid()
      ensures this.env == env && this.desired == desired && this.host == host && this.edge == host.edge
      ensures this.ports == ports && this.fires == fires && this.errors == {}
      ensures history == [host] && effects == [] && step == 0
    {
      this.env, this.edge, this.desired, this.host := env, host.edge, desired, host;
      this.ports, this.fires, this.errors := ports, fires, {};
      history, effects, step := [host], [], 0;
    }

    // ---- effects ----

    /** The world moves on: one effect done, one entry of history. */
    method Settle(h: Host, ghost e: Effect)
      requires Valid() && WellFormed(h) && h.edge == host.edge
      modifies `host, `step, `history, `effects
      ensures Valid() && host == h && step == old(step) + 1
      ensures history == old(history) + [h] && effects == old(effects) + [e]
    {
      host, step := h, step + 1;
      history, effects := history + [h], effects + [e];
    }

    function Later(): (t: int)
      reads this
      ensures t >= host.now
    {
      host.now + env.delay(step)
    }

    method PullImage(image: string) returns (ok: bool)
      requires Valid()
      modifies `host, `step, `history, `effects
      ensures Valid() && host == old(host).(now := old(Later())) && ok == env.verdict(old(step)).Done?
      ensures history == old(history) + [host] && effects == old(effects) + [Pull(image)] && step == old(step) + 1
    {
      ok := env.verdict(step).Done?;
      Settle(host.(now := Later()), Pull(image));
    }

    method RunContainer(c: ServiceConfig, index: int, hostPort: Option<int>, fireMs: Option<int>, jobRunId: Option<string>)
      returns (ok: bool)
      requires Valid() && IsNamePart(c.project) && IsNamePart(c.service)
      modifies `host, `step, `history, `effects
      ensures Valid()
      ensures host == AfterRun(old(host), env.verdict(old(step)), old(Later()),
                               NewReplica(c, old(host).nextId, index, "running", hostPort, fireMs, jobRunId))
      ensures ok == (env.verdict(old(step)).Done? && !NameTaken(old(host).live, ContainerName(c.project, c.service, index)))
      ensures history == old(history) + [host] && step == old(step) + 1
      ensures effects == old(effects) + [Run(c, index, fireMs, jobRunId)]
    {
      hide ReplicaKey, ContainerName;
      var r := NewReplica(c, host.nextId, index, "running", hostPort, fireMs, jobRunId);
      ok := env.verdict(step).Done? && !NameTaken(host.live, ContainerName(c.project, c.service, index));
      RunKeepsWellFormed(host, env.verdict(step), Later(), r);
      Settle(AfterRun(host, env.verdict(step), Later(), r), Run(c, index, fireMs, jobRunId));
    }

    method StartContainer(id: nat) returns (ok: bool)
      requires Valid()
      modifies `host, `step, `history, `effects
      ensures Valid() && ok == env.verdict(old(step)).Done?
      ensures host == old(host).(now := old(Later()),
                                 live := if env.verdict(old(step)).FailedBefore? then old(host).live else SetRunning(old(host).live, id))
      ensures history == old(history) + [host] && effects == old(effects) + [StartIt(id)] && step == old(step) + 1
    {
      var v := env.verdict(step);
      ok := v.Done?;
      var live := if v.FailedBefore? then host.live else SetRunning(host.live, id);
      StartKeepsWellFormed(host, id, Later());
      Settle(host.(now := Later(), live := live), StartIt(id));
    }

    /** Graceful stop and removal; the container runtime's errors are swallowed. */
    method StopContainer(id: nat, graceSeconds: int)
      requires Valid()
      modifies `host, `step, `history, `effects
      ensures Valid() && host == AfterRemoval(old(host), IdNotIn({id}), old(Later()))
      ensures history == old(history) + [host] && effects == old(effects) + [Stop(id)] && step == old(step) + 1
    {
      RemovalKeepsWellFormed(host, IdNotIn({id}), Later());
      Settle(AfterRemoval(host, IdNotIn({id}), Later()), Stop(id));
    }

    method StopContainerNamed(name: string, graceSeconds: int)
      requires Valid()
      modifies `host, `step, `history, `effects
      ensures Valid() && host == AfterRemoval(old(host), HasName(name), old(Later()))
      ensures history == old(history) + [host] && effects == old(effects) + [StopName(name)] && step == old(step) + 1
    {
      RemovalKeepsWellFormed(host, HasName(name), Later());
      Settle(AfterRemoval(host, HasName(name), Later()), StopName(name));
    }

    method RemoveContainer(id: nat)
      requires Valid()
      modifies `host, `step, `history, `effects
      ensures Valid() && host == AfterRemoval(old(host), IdNotIn({id}), old(Later()))
      ensures history == old(history) + [host] && effects == old(effects) + [Delete(id)] && step == old(step) + 1
    {
      RemovalKeepsWellFormed(host, IdNotIn({id}), Later());
      Settle(AfterRemoval(host, IdNotIn({id}), Later()), Delete(id));
    }

    /** An allocation is stable until released; which free port is chosen is the port table's affair. */
    method AllocatePort(key: string, index: int) returns (port: int)
      requires Valid()
      modifies `ports, `step, `effects
      ensures Valid() && ports == old(ports)[PortSlot(key, index) := port] && step == old(step) + 1
      ensures port == if PortSlot(key, index) in old(ports) then old(ports)[PortSlot(key, index)] else env.port(old(step))
      ensures effects == old(effects) + [Allocate(PortSlot(key, index))]
    {
      var slot := PortSlot(key, index);
      port := if slot in ports then ports[slot] else env.port(step);
      ports, step := ports[slot := port], step + 1;
      effects := effects + [Allocate(slot)];
    }

    method ReleasePort(key: string, index: int)
      requires Valid()
      modifies `ports, `step, `effects
      ensures Valid() && ports == old(ports) - {PortSlot(key, index)} && step == old(step) + 1
      ensures effects == old(effects) + [Release(PortSlot(key, index))]
    {
      ports, step := ports - {PortSlot(key, index)}, step + 1;
      effects := effects + [Release(PortSlot(key, index))];
    }

    /**
     Rebuild the routing shards, leaving out draining containers, and store each that has
     changed; with no ingress anywhere nothing is done. The call fails if any edge's put does.
     */
    method RefreshRouting(excluded: set<nat>) returns (ok: bool)
      requires Valid()
      modifies `host, `step, `history, `effects
      ensures Valid() && step == old(step) + 1
      ensures ok == (!HasWeb(desired) || (env.verdict(old(step)).Done? && env.others(old(step))))
      ensures WebRoutes(desired, edge) == {} ==> host == old(host).(now := old(Later()))
      ensures WebRoutes(desired, edge) != {} ==>
                && (ok ==> env.verdict(old(step)).Done?)
                && host == AfterPublish(old(host), env.verdict(old(step)), old(Later()),
                                        Backends(old(host).live, WebRoutes(desired, edge), excluded))
      ensures history == old(history) + [host] && effects == old(effects) + [PublishRoutes(excluded)]
    {
      var v, web := env.verdict(step), WebRoutes(desired, edge);
      ok := !HasWeb(desired) || (v.Done? && env.others(step));
      RoutesMeanWeb(desired, edge);
      if web == {} {
        Settle(host.(now := Later()), PublishRoutes(excluded));
      } else {
        var table := Backends(host.live, web, excluded);
        BackendsLive(host.live, web, excluded);
        PublishKeepsWellFormed(host, v, Later(), table);
        Settle(AfterPublish(host, v, Later(), table), PublishRoutes(excluded));
      }
    }

    method BeatHeart()
      requires Valid()
      modifies `host, `step, `history, `effects
      ensures Valid() && host == old(host).(now := old(Later()))
      ensures history == old(history) + [host] && effects == old(effects) + [Heartbeat] && step == old(step) + 1
    {
      Settle(host.(now := Later()), Heartbeat);
    }

    method SleepMs(ms: int)
      requires Valid()
      modifies `host, `step, `history, `effects
      ensures Valid() && host == old(host).(now := old(Later()) + Max(0, ms))
      ensures history == old(history) + [host] && effects == old(effects) + [Sleep(ms)] && step == old(step) + 1
    {
      Settle(host.(now := Later() + Max(0, ms)), Sleep(ms));
    }

    /** Wait for the container behind a port; `passed` remembers that its gate opened. */
    method AwaitHealthy(hc: HealthCheck, ceilingMs: int, id: nat) returns (ok: bool)
      requires Valid()
      modifies `host, `step, `history, `effects
      ensures Valid() && step == old(step) + 1
      ensures ok <==> PassesGate(hc, ceilingMs, env.probe(old(step)), env.clock(old(step)))
      ensures host == old(host).(now := old(Later()), passed := old(host).passed + if ok then {id} else {})
      ensures history == old(history) + [host] && effects == old(effects) + [Await(ceilingMs)]
    {
      ok := WaitHealthy(hc, ceilingMs, env.probe(step), env.clock(step));
      Settle(host.(now := Later(), passed := host.passed + if ok then {id} else {}), Await(ceilingMs));
    }

    /** The fire is durable before this returns true; otherwise the record is as before. */
    method RecordCronFire(key: string, fireMs: int) returns (ok: bool)
      requires Valid()
      modifies `host, `step, `history, `effects, `fires
      ensures Valid() && ok == env.verdict(old(step)).Done? && host == old(host).(now := old(Later()))
      ensures fires == if ok then old(fires)[key := fireMs] else old(fires)
      ensures history == old(history) + [host] && effects == old(effects) + [RecordFire(key, fireMs)] && step == old(step) + 1
    {
      ok := env.verdict(step).Done?;
      if ok { fires := fires[key := fireMs]; }
      Settle(host.(now := Later()), RecordFire(key, fireMs));
    }

    /** Dump, upload and prune, then record the fire under the backup's own key. */
    method RunBackup(c: ServiceConfig, fireMs: int) returns (ok: bool)
      requires Valid()
      modifies `host, `step, `history, `effects, `fires
      ensures Valid() && ok == env.verdict(old(step)).Done? && host == old(host).(now := old(Later()))
      ensures fires == if ok then old(fires)[BackupStateKey(KeyOf(c)) := fireMs] else old(fires)
      ensures history == old(history) + [host] && effects == old(effects) + [Backup(KeyOf(c), fireMs)] && step == old(step) + 1
    {
      ok := env.verdict(step).Done?;
      if ok { fires := fires[BackupStateKey(KeyOf(c)) := fireMs]; }
      Settle(host.(now := Later()), Backup(KeyOf(c), fireMs));
    }

    // ---- the rollout ----

    /** Branch 1 of the loop: surge one new replica, gate it on health, route to it. */
    method SurgeOne(c: ServiceConfig, idx: int, draining: set<nat>, ghost b: Begin, ghost drained: nat, ghost surged: Live)
      returns (end: StepEnd, ghost grown: Live)
      requires Valid() && c == b.c && b.web == WebRoutes(desired, edge)
      requires AtPoint(b, host, ports, drained, surged)
      requires draining == {} && idx == NextIndex(b.current) + |surged|
      requires Kept(b) + |surged| < c.replicas
      requires |Old(b)| - drained + Kept(b) + |surged| < c.replicas + c.rollout.maxSurge
      modifies `host, `step, `history, `effects, `ports, `errors
      ensures Valid() && StepOk(b, host) && old(history) <= history
      ensures forall i :: |old(history)| <= i < |history| ==> StepOk(b, history[i])
      ensures end.Stepped? ==> AtPoint(b, host, ports, drained, grown) && |grown| == |surged| + 1
      ensures end.Stepped? && c.ingress.Some? ==> Announced(host, b.web, draining)
      ensures end.Abandoned? ==> HostPoint(b, host, drained, surged) && KeyOf(c) in errors
      ensures end.Abandoned? ==> PortSlot(KeyOf(c), idx) !in ports
      ensures old(errors) <= errors <= old(errors) + {KeyOf(c)}
      ensures step >= old(step) && old(effects) <= effects
      ensures Smooth(env, c.healthCheck, old(step), step) ==> end.Stepped?
    {
      hide *;
      AtPointParts(b, host, ports, drained, surged);
      var key := KeyOf(c);
      var hostPort: Option<int> := None;
      ghost var ports0 := ports;
      if c.ingress.Some? {
        var port := AllocatePort(key, idx);
        hostPort := Some(port);
      }
      ghost var r := NewReplica(c, host.nextId, idx, "running", hostPort, None, None);
      grown := surged + [r];
      SurgedReplica(b, r, |surged|, hostPort);
      RunStep(b, host, drained, surged, env.verdict(step), Later(), r);
      ghost var before, v, t, k := host, env.verdict(step), Later(), step;
      var ran := RunContainer(c, idx, hostPort, None, None);
      SmoothAt(env, c.healthCheck, old(step), step, k);
      if !ran {
        return Broke, grown;
      }
      PointParts(b, host, drained, grown);
      RanFacts(before, v, t, r);
      PortStep(b, ports0, drained, surged, r, hostPort);
      if c.healthCheck.Some? && hostPort.Some? {
        k := step;
        var healthy := GateSurged(c, idx, draining, b, drained, surged, before, r);
        SmoothSplit(env, c.healthCheck, old(step), k, step);
        if healthy.Some? {
          return healthy.value, grown;
        }
      } else {
        NoGate(b, host, grown);
      }
      if c.ingress.Some? {
        k := step;
        var published := RouteToSurged(draining, b, drained, grown);
        SmoothSplit(env, c.healthCheck, old(step), k, step);
        if !published {
          return Broke, grown;
        }
      }
      MakeAtPoint(b, host, ports, drained, grown);
      return Stepped, grown;
    }

    /** Republish with the surged replica, and write a heartbeat. */
    method RouteToSurged(draining: set<nat>, ghost b: Begin, ghost drained: nat, ghost surged: Live) returns (ok: bool)
      requires Valid() && b.web == WebRoutes(desired, edge) && draining == {}
      requires HostPoint(b, host, drained, surged) && AllGated(b, host, surged)
      modifies `host, `step, `history, `effects
      ensures ok ==> host.unsure == old(host).unsure && Announced(host, b.web, draining)
      ensures Valid() && HostPoint(b, host, drained, surged) && AllGated(b, host, surged) && StepOk(b, host)
      ensures old(history) <= history && forall i :: |old(history)| <= i < |history| ==> StepOk(b, history[i])
      ensures host.nextId == old(host).nextId && step >= old(step) && old(effects) <= effects
      ensures Smooth(env, b.c.healthCheck, old(step), step) ==> ok
    {
      hide *;
      ok := PublishSurged(draining, b, drained, surged);
      if !ok {
        return;
      }
      LaterKeepsPoint(b, host, drained, surged, Later());
      GatedCarries(b, host, host.(now := Later()), surged);
      AnnouncedLater(host, Later(), b.web, draining);
      BeatHeart();
      PointParts(b, host, drained, surged);
    }

    /** Wait for the surged replica; on failure undo it, note the error and republish. */
    method GateSurged(c: ServiceConfig, idx: int, draining: set<nat>, ghost b: Begin, ghost drained: nat, ghost surged: Live,
                      ghost before: Host, ghost r: ManagedReplica)
      returns (end: Option<StepEnd>)
      requires Valid() && c == b.c && b.web == WebRoutes(desired, edge) && c.healthCheck.Some?
      requires HostPoint(b, before, drained, surged) && before.nextId == b.host.nextId + |surged| && AllGated(b, before, surged)
      requires HostPoint(b, host, drained, surged + [r]) && IsSurged(b, r, |surged|) && host.nextId == r.id + 1
      requires host.live == before.live + [r] && host.pubs == before.pubs && before.passed <= host.passed
      requires draining == {} && idx == NextIndex(b.current) + |surged|
      modifies `host, `step, `history, `effects, `ports, `errors
      ensures Valid() && StepOk(b, host) && old(history) <= history
      ensures forall i :: |old(history)| <= i < |history| ==> StepOk(b, history[i])
      ensures end.None? ==> HostPoint(b, host, drained, surged + [r]) && AllGated(b, host, surged + [r])
      ensures end.None? ==> host.nextId == old(host).nextId && ports == old(ports) && host.unsure == old(host).unsure
      ensures end.Some? ==> !end.value.Stepped?
      ensures end == Some(Abandoned) ==> HostPoint(b, host, drained, surged) && KeyOf(c) in errors
      ensures end.Some? ==> ports == old(ports) - {PortSlot(KeyOf(c), idx)}
      ensures old(errors) <= errors <= old(errors) + {KeyOf(c)}
      ensures step >= old(step) && old(effects) <= effects
      ensures Smooth(env, c.healthCheck, old(step), step) ==> end.None?
    {
      hide *;
      PointParts(b, host, drained, surged + [r]);
      var hc := c.healthCheck.value;
      ghost var waiting := host;
      var healthy := AwaitHealthy(hc, RolloutHealthCeilingMs(hc), host.nextId - 1);
      SmoothAt(env, c.healthCheck, old(step), step, old(step));
      SurgedId(b, r, |surged|);
      PassesKeepPoint(b, waiting, host, drained, surged + [r]);
      PointParts(b, host, drained, surged + [r]);
      if healthy {
        OneMoreGated(b, before, host, surged, r);
        return None;
      }
      AbandonStep(b, before, host, drained, surged, r, Later());
      StopContainerNamed(ContainerName(c.project, c.service, idx), GraceSeconds(c));
      PointParts(b, host, drained, surged);
      ReleasePort(KeyOf(c), idx);
      errors := errors + {KeyOf(c)};
      if c.ingress.Some? {
        var published := PublishSurged(draining, b, drained, surged);
        SmoothSplit(env, c.healthCheck, old(step), old(step) + 1, step);
        if !published {
          return Some(Broke);
        }
      }
      SmoothSplit(env, c.healthCheck, old(step), old(step) + 1, step);
      return Some(Abandoned);
    }

    /** Republish routing with nothing newly drained. */
    method PublishSurged(draining: set<nat>, ghost b: Begin, ghost drained: nat, ghost surged: Live) returns (ok: bool)
      requires Valid() && b.web == WebRoutes(desired, edge) && draining == {}
      requires HostPoint(b, host, drained, surged) && AllGated(b, host, surged)
      modifies `host, `step, `history, `effects
      ensures Valid() && HostPoint(b, host, drained, surged) && AllGated(b, host, surged) && StepOk(b, host)
      ensures history == old(history) + [host] && host.nextId == old(host).nextId
      ensures step == old(step) + 1 && old(effects) <= effects
      ensures Smooth(env, b.c.healthCheck, old(step), step) ==> ok
      ensures host.live == old(host).live
      ensures ok ==> host.unsure == old(host).unsure && Announced(host, b.web, draining)
    {
      hide *;
      PublishStep(b, host, drained, surged, env.verdict(step), Later(), draining);
      LaterKeepsPoint(b, host, drained, surged, Later());
      ghost var h, v, t := host, env.verdict(step), Later();
      PublishFacts(h, v, t, Backends(h.live, b.web, draining));
      Announces(h, v, t, b.web, draining);
      ok := RefreshRouting(draining);
      SmoothAt(env, b.c.healthCheck, old(step), step, old(step));
      GatedCarries(b, h, host, surged);
      PointParts(b, host, drained, surged);
    }

    /** Branch 2 of the loop: stop routing to one old replica, wait for the edge, stop it. */
    method DrainOne(c: ServiceConfig, retiring: ManagedReplica, draining: set<nat>,
                    ghost b: Begin, ghost drained: nat, ghost surged: Live)
      returns (end: StepEnd, left: set<nat>)
      requires Valid() && c == b.c && b.web == WebRoutes(desired, edge)
      requires AtPoint(b, host, ports, drained, surged)
      requires drained < |Old(b)| && retiring == Old(b)[drained] && draining == {}
      requires Kept(b) + |surged| >= c.replicas
            || |Old(b)| - drained + Kept(b) + |surged| >= c.replicas + c.rollout.maxSurge
      modifies `host, `step, `history, `effects, `ports
      ensures Valid() && StepOk(b, host) && old(history) <= history
      ensures forall i :: |old(history)| <= i < |history| ==> StepOk(b, history[i])
      ensures end.Stepped? ==> AtPoint(b, host, ports, drained + 1, surged) && left == {}
      ensures end.Stepped? ==> effects == old(effects) + DrainScript(c, retiring)
      ensures end.Stepped? && c.ingress.Some? ==>
                |history| == |old(history)| + 5 && host.now >= history[|old(history)| + 1].now + WaitMs(c)
      ensures step >= old(step) && old(effects) <= effects
      ensures Smooth(env, c.healthCheck, old(step), step) ==> end.Stepped?
      ensures !end.Abandoned?
    {
      hide *;
      AtPointParts(b, host, ports, drained, surged);
      left := draining;
      if c.ingress.Some? {
        left := left + {retiring.id};
        var routed := StopRoutingTo(c, retiring.id, left, b, drained, surged);
        if !routed {
          return Broke, left;
        }
      } else {
        NotCareful(b);
      }
      DrainStep(b, host, drained, surged, Later());
      RemovalFacts(host, IdNotIn({retiring.id}), Later());
      DrainEffects(c, retiring);
      GatedCarries(b, host, AfterRemoval(host, IdNotIn({retiring.id}), Later()), surged);
      StopContainer(retiring.id, GraceSeconds(c));
      PointParts(b, host, drained + 1, surged);
      left := left - {retiring.id};
      PortDrain(b, ports, drained, surged);
      ReleasePort(KeyOf(c), retiring.index);
      LaterKeepsPoint(b, host, drained + 1, surged, Later());
      GatedCarries(b, host, host.(now := Later()), surged);
      BeatHeart();
      PointParts(b, host, drained + 1, surged);
      MakeAtPoint(b, host, ports, drained + 1, surged);
      return Stepped, left;
    }

    /** Publish without the draining replica and outwait the edge's propagation delay. */
    method StopRoutingTo(c: ServiceConfig, id: nat, draining: set<nat>, ghost b: Begin, ghost drained: nat, ghost surged: Live)
      returns (ok: bool)
      requires Valid() && c == b.c && b.web == WebRoutes(desired, edge) && c.ingress.Some?
      requires HostPoint(b, host, drained, surged) && AllGated(b, host, surged) && host.unsure == b.host.unsure
      requires drained < |Old(b)| && draining == {id} && id == Old(b)[drained].id
      requires Kept(b) + |surged| >= c.replicas
            || |Old(b)| - drained + Kept(b) + |surged| >= c.replicas + c.rollout.maxSurge
      modifies `host, `step, `history, `effects
      ensures Valid() && StepOk(b, host) && old(history) <= history
      ensures forall i :: |old(history)| <= i < |history| ==> StepOk(b, history[i])
      ensures ok ==> HostPoint(b, host, drained, surged) && AllGated(b, host, surged)
      ensures ok ==> host.live == old(host).live && host.nextId == old(host).nextId && host.unsure == old(host).unsure
      ensures ok && Careful(b) ==> Unrouted(host, id)
      ensures ok ==> host.now >= old(host).now + WaitMs(c)
      ensures ok ==> effects == old(effects) + [PublishRoutes(draining), Heartbeat, Sleep(WaitMs(c))]
      ensures ok ==> |history| == |old(history)| + 3 && host.now >= history[|old(history)| + 1].now + WaitMs(c)
      ensures step >= old(step) && old(effects) <= effects
      ensures Smooth(env, c.healthCheck, old(step), step) ==> ok
    {
      hide *;
      EnoughToDrain(b, host, drained, surged);
      OldOwn(b, host, drained, surged);
      PublishStep(b, host, drained, surged, env.verdict(step), Later(), draining);
      LaterKeepsPoint(b, host, drained, surged, Later());
      ghost var table, v, t := Backends(host.live, b.web, draining), env.verdict(step), Later();
      PublishFacts(host, v, t, table);
      DrainTable(b, host, drained, surged, v, t, draining, id);
      ghost var h := host;
      ok := RefreshRouting(draining);
      SmoothAt(env, c.healthCheck, old(step), step, old(step));
      GatedCarries(b, h, host, surged);
      PointParts(b, host, drained, surged);
      if !ok {
        return;
      }
      LaterKeepsPoint(b, host, drained, surged, Later());
      GatedCarries(b, host, host.(now := Later()), surged);
      WaitFacts(host, Later(), id);
      BeatHeart();
      PointParts(b, host, drained, surged);
      var waitMs := WaitMs(c);
      ghost var until := Later() + Max(0, waitMs);
      LongEnough(c);
      if waitMs > 0 {
        LaterKeepsPoint(b, host, drained, surged, until);
        GatedCarries(b, host, host.(now := until), surged);
        WaitFacts(host, until, id);
        Outwaited(host, until, id);
        SleepMs(waitMs);
        PointParts(b, host, drained, surged);
      }
    }

    /**
     Health-gated rolling update. Whatever fails, every intermediate state keeps the bounds
     on the service's containers, routes only to gated replicas, removes no container the
     edge can still route to, and, when the service was reachable and serving, leaves no
     table an edge can hold without a running replica. A rollout that completes has replaced
     exactly the drifted replicas and announced the result; one that gives up on an
     unhealthy replica leaves no trace of it but an error.
     */
    method RolloutService(c: ServiceConfig, current: seq<ManagedReplica>)
      returns (end: RolloutEnd, ghost drained: nat, ghost surged: Live)
      requires Valid() && IsNamePart(c.project) && IsNamePart(c.service)
      requires multiset(current) == multiset(Mine(host.live, KeyOf(c)))
      modifies `host, `step, `history, `effects, `ports, `errors
      ensures Valid() && old(history) <= history
      ensures var b := Begin(c, current, old(host), old(ports), WebRoutes(desired, edge));
              && StepOk(b, host)
              && (forall i :: |old(history)| <= i < |history| ==> StepOk(b, history[i]))
              && (!end.Errored? ==> Shape(b, host.live, drained, surged))
              && (end.HealthAborted? ==> KeyOf(c) in errors)
              && (end.Completed? ==>
                   && drained == |Old(b)| && PortShape(b, ports, drained, surged)
                   && (c.rollout.maxSurge >= 1 ==> |surged| == Max(0, c.replicas - Kept(b)))
                   && (c.ingress.Some? ==> Announced(host, b.web, {})) && host.unsure == b.host.unsure
                   && GatesExact(b, host))
      ensures step >= old(step) && old(effects) + [Pull(c.image)] <= effects
      ensures old(errors) <= errors <= old(errors) + {KeyOf(c)}
      ensures Smooth(env, c.healthCheck, old(step), step) ==> end.Completed?
    {
      hide *;
      ghost var b := Begin(c, current, host, ports, WebRoutes(desired, edge));
      drained, surged := 0, [];
      ValidHost();
      BeginPoint(b);
      LaterKeepsPoint(b, host, 0, [], Later());
      var pulled := PullImage(c.image);
      SmoothAt(env, c.healthCheck, old(step), step, old(step));
      PointParts(b, host, 0, []);
      if !pulled {
        return Errored, drained, surged;
      }
      GatedCarries(b, b.host, host, []);
      MakeAtPoint(b, host, ports, 0, []);
      var want, surge := c.replicas, c.rollout.maxSurge;
      var oldQueue := Drifted(current, c);
      var newCount := |Matching(current, c)|;
      var nextIndex := NextIndex(current);
      var draining: set<nat> := {};
      ghost var k: nat;
      OldIsDrifted(b);
      while true
        invariant Valid() && AtPoint(b, host, ports, drained, surged)
        invariant b.web == WebRoutes(desired, edge) && Old(b) == Drifted(current, c)
        invariant old(history) <= history
        invariant forall i :: |old(history)| <= i < |history| ==> StepOk(b, history[i])
        invariant drained <= |Old(b)| && oldQueue == Old(b)[drained..]
        invariant newCount == Kept(b) + |surged| && nextIndex == NextIndex(b.current) + |surged|
        invariant draining == {}
        invariant step > old(step) && old(effects) + [Pull(c.image)] <= effects
        invariant old(errors) <= errors <= old(errors) + {KeyOf(c)}
        invariant |surged| > 0 ==> newCount <= want
        decreases (if want > newCount then want - newCount else 0) + |oldQueue|
      {
        var total := |oldQueue| + newCount;
        if newCount < want && total < want + surge {
          var idx := nextIndex;
          nextIndex := nextIndex + 1;
          var turn: StepEnd;
          ghost var grown;
          k := step;
          turn, grown := SurgeOne(c, idx, draining, b, drained, surged);
          SmoothSplit(env, c.healthCheck, old(step), k, step);
          if turn.Broke? {
            return Errored, drained, surged;
          }
          if turn.Abandoned? {
            PointParts(b, host, drained, surged);
            return HealthAborted, drained, surged;
          }
          surged := grown;
          newCount := newCount + 1;
        } else if oldQueue != [] {
          var retiring := oldQueue[0];
          oldQueue := oldQueue[1..];
          var turn: StepEnd;
          k := step;
          turn, draining := DrainOne(c, retiring, draining, b, drained, surged);
          SmoothSplit(env, c.healthCheck, old(step), k, step);
          if turn.Broke? {
            return Errored, drained, surged;
          }
          drained := drained + 1;
        } else {
          break;
        }
      }
      AtPointParts(b, host, ports, drained, surged);
      PointParts(b, host, drained, surged);
      MaxFacts(c.replicas - newCount, c.replicas - Kept(b));
      if c.ingress.Some? {
        k := step;
        var published := PublishSurged({}, b, drained, surged);
        SmoothSplit(env, c.healthCheck, old(step), k, step);
        PointParts(b, host, drained, surged);
        if !published {
          return Errored, drained, surged;
        }
      }
      PointParts(b, host, drained, surged);
      GatesExactly(b, host, surged);
      return Completed, drained, surged;
    }

  }

  /**
   What a rollout leaves to be routed to is gated if and only if what it kept was: it waits
   for the replicas it starts, and for no others.
   */
  lemma GatesExactly(b: Begin, h: Host, surged: Live)
    requires Begins(b) && Shape(b, h.live, |Old(b)|, surged) && AllGated(b, h, surged) && RoutingKept(b, h)
    requires b.c.ingress.Some? ==> Announced(h, b.web, {})
    ensures GatesExact(b, h)
  {
    hide Keep, ReplicaKey, NeedsReplace, NextIndex, DistinctIds, DistinctNames, Shape, Routed, Careful, InStep, Backends, Drifted;
    OldFacts(b);
    FinalMembers(b, h.live, surged);
    LinesAreReplicas(h.live, b.web, Key(b));
    forall r | r in Matching(b.current, b.c) ensures r in h.live && ReplicaKey(r) == Key(b) && r.id < b.host.nextId {
      assert r in Mine(h.live, Key(b));
      assert r in b.current;
    }
    forall r | r in h.live && ReplicaKey(r) == Key(b) ensures r in surged || r in Matching(b.current, b.c) {
      assert r in Mine(h.live, Key(b));
    }
  }

  /** The lines of a service with a route are those of its running replicas with a port. */
  lemma LinesAreReplicas(live: Live, web: set<Route>, key: string)
    ensures forall e :: e in Backends(live, web, {}) && e.route.key == key ==>
              exists r :: r in live && ReplicaKey(r) == key && Running(r) && r.hostPort.Some? && r.id == e.id
    ensures forall r, w :: r in live && ReplicaKey(r) == key && Running(r) && r.hostPort.Some? && w in web && w.key == key ==>
              Backend(r.id, r.hostPort.value, w) in Backends(live, web, {})
  {
    hide ReplicaKey;
    forall r, w | r in live && ReplicaKey(r) == key && Running(r) && r.hostPort.Some? && w in web && w.key == key
      ensures Backend(r.id, r.hostPort.value, w) in Backends(live, web, {})
    {
      assert Routable(r, w, {});
    }
  }

  // ---- well-formedness is kept by every effect ----

  lemma RunKeepsWellFormed(h: Host, v: Verdict, t: int, r: ManagedReplica)
    requires WellFormed(h) && t >= h.now && r.id == h.nextId && IsNamePart(r.project) && IsNamePart(r.service)
    ensures WellFormed(AfterRun(h, v, t, r))
  {
    hide ReplicaKey, ContainerName;
    if !NameTaken(h.live, NameOf(r)) {
      var made := if v.Done? then r else r.(state := "created");
      DistinctAppend(h.live, made, IdOf);
      DistinctAppend(h.live, made, NameOf);
    }
  }

  lemma RemovalKeepsWellFormed(h: Host, keep: ManagedReplica -> bool, t: int)
    requires WellFormed(h) && t >= h.now
    ensures WellFormed(AfterRemoval(h, keep, t))
  {
    hide ReplicaKey, ContainerName;
    DistinctKeep(h.live, keep, IdOf);
    DistinctKeep(h.live, keep, NameOf);
  }

  lemma StartKeepsWellFormed(h: Host, id: nat, t: int)
    requires WellFormed(h) && t >= h.now
    ensures WellFormed(h.(now := t, live := SetRunning(h.live, id)))
    ensures WellFormed(h.(now := t))
  {
    hide ReplicaKey, ContainerName;
    var live := SetRunning(h.live, id);
    forall i | 0 <= i < |live| ensures IdOf(live[i]) == IdOf(h.live[i]) && NameOf(live[i]) == NameOf(h.live[i]) { }
    assert DistinctIds(live) && DistinctNames(live);
  }

  lemma PublishKeepsWellFormed(h: Host, v: Verdict, t: int, table: set<Backend>)
    requires WellFormed(h) && t >= h.now
    requires forall e :: e in table ==> e.id in Ids(h.live)
    ensures WellFormed(AfterPublish(h, v, t, table))
  {
    hide ReplicaKey, ContainerName;
  }

  function GraceSeconds(c: ServiceConfig): int { Max(1, (ParseDurationMs(c.rollout.stopGrace) + 999) / 1000) }

  // ---- one effect of a rollout at a time ----

  lemma AtPointParts(b: Begin, h: Host, ports: map<string, int>, drained: nat, surged: Live)
    requires AtPoint(b, h, ports, drained, surged)
    ensures HostPoint(b, h, drained, surged) && h.nextId == b.host.nextId + |surged| && h.unsure == b.host.unsure
    ensures PortShape(b, ports, drained, surged) && AllGated(b, h, surged)
    ensures Begins(b) && IsNamePart(b.c.project) && IsNamePart(b.c.service) && Surged(b, surged) && StepOk(b, h)
    ensures Key(b) == KeyOf(b.c)
  {
    hide PortShape, AllGated, StepOk, WellFormed, Without, Surged;
  }

  lemma MakeAtPoint(b: Begin, h: Host, ports: map<string, int>, drained: nat, surged: Live)
    requires HostPoint(b, h, drained, surged) && h.nextId == b.host.nextId + |surged|
    requires PortShape(b, ports, drained, surged) && AllGated(b, h, surged) && h.unsure == b.host.unsure
    ensures AtPoint(b, h, ports, drained, surged)
  {
    hide HostPoint, PortShape, AllGated;
  }

  lemma PointParts(b: Begin, h: Host, drained: nat, surged: Live)
    requires HostPoint(b, h, drained, surged)
    ensures Begins(b) && WellFormed(h) && StepOk(b, h) && Surged(b, surged) && Shape(b, h.live, drained, surged)
    ensures IsNamePart(b.c.project) && IsNamePart(b.c.service) && RoutingKept(b, h)
  {
    hide Bounded, Gated, RoutingKept, WellFormed, Without, Surged;
  }

  lemma RanFacts(h: Host, v: Verdict, t: int, r: ManagedReplica)
    requires v.Done? && !NameTaken(h.live, NameOf(r))
    ensures var h' := AfterRun(h, v, t, r);
            && h'.live == h.live + [r] && h'.pubs == h.pubs && h'.passed == h.passed && h'.nextId == h.nextId + 1
            && h'.unsure == h.unsure
  {
    hide NameOf;
  }

  lemma PublishFacts(h: Host, v: Verdict, t: int, table: set<Backend>)
    ensures var h' := AfterPublish(h, v, t, table);
            && h'.passed == h.passed && h'.nextId == h.nextId && h'.live == h.live && h'.now == t
            && h'.edge == h.edge && (v.Done? ==> h'.unsure == h.unsure && h'.cached == Some(table))
  {
  }

  lemma RemovalFacts(h: Host, keep: ManagedReplica -> bool, t: int)
    ensures var h' := AfterRemoval(h, keep, t);
            h'.live == Keep(h.live, keep) && h'.passed == h.passed && h'.nextId == h.nextId && h'.unsure == h.unsure && h'.now == t
  {
  }

  lemma NoGate(b: Begin, h: Host, surged: Live)
    requires b.c.ingress.None? || b.c.healthCheck.None?
    ensures AllGated(b, h, surged)
  {
  }

  lemma GatedCarries(b: Begin, h: Host, h': Host, surged: Live)
    requires AllGated(b, h, surged) && h.passed <= h'.passed
    ensures AllGated(b, h', surged)
  {
  }

  lemma OneMoreGated(b: Begin, h: Host, h': Host, surged: Live, r: ManagedReplica)
    requires AllGated(b, h, surged) && h.passed <= h'.passed && r.id in h'.passed
    ensures AllGated(b, h', surged + [r])
  {
  }

  lemma SurgedReplica(b: Begin, r: ManagedReplica, i: nat, hostPort: Option<int>)
    requires r == NewReplica(b.c, b.host.nextId + i, NextIndex(b.current) + i, "running", hostPort, None, None)
    requires hostPort.Some? <==> b.c.ingress.Some?
    ensures IsSurged(b, r, i) && NameOf(r) == ContainerName(b.c.project, b.c.service, NextIndex(b.current) + i)
    ensures r.hostPort == hostPort && r.id == b.host.nextId + i && r.index == NextIndex(b.current) + i
  {
  }

  lemma PortStep(b: Begin, ports: map<string, int>, drained: nat, surged: Live, r: ManagedReplica, hostPort: Option<int>)
    requires Begins(b) && Surged(b, surged) && PortShape(b, ports, drained, surged)
    requires IsSurged(b, r, |surged|) && r.hostPort == hostPort
    ensures PortShape(b, if hostPort.Some? then ports[PortSlot(Key(b), r.index) := hostPort.value] else ports, drained, surged + [r])
  {
    hide PortShape;
    PortSurge(b, ports, drained, surged, r, if hostPort.Some? then hostPort.value else 0);
  }

  /** Time passing and gates opening keep every promise. */
  lemma PassesKeepPoint(b: Begin, h: Host, h': Host, drained: nat, surged: Live)
    requires HostPoint(b, h, drained, surged) && WellFormed(h')
    requires h.now <= h'.now && h.passed <= h'.passed
    requires h' == h.(now := h'.now, passed := h'.passed) && forall id :: id in h'.passed ==> id in h.passed || id >= b.host.nextId
    ensures HostPoint(b, h', drained, surged)
  {
    hide Shape, WellFormed, Keep, ReplicaKey, RoutesKept, Routed, Careful;
    QuietStep(b, h, h');
  }

  /** A step that leaves the containers alone and publishes nothing keeps routing as it is. */
  lemma QuietStep(b: Begin, h: Host, h': Host)
    requires RoutingKept(b, h) && h.now <= h'.now
    requires h'.live == h.live && h'.pubs == h.pubs && h'.cached == h.cached && h'.unsure == h.unsure && h'.cut == h.cut
    requires h'.edge == h.edge && h'.nextId == h.nextId && h.passed <= h'.passed
    requires forall id :: id in h'.passed ==> id in h.passed || id >= b.host.nextId
    ensures RoutingKept(b, h')
  {
    hide Keep, ReplicaKey, RoutesKept, Routed, Careful, Serving;
    if Routed(h, b.web, Key(b)) { RoutedCarries(h, h', b.web, Key(b)); }
    RoutesCarry(b.web, Key(b), Careful(b), Serving(b), b.host, h, h');
  }

  lemma LaterKeepsPoint(b: Begin, h: Host, drained: nat, surged: Live, t: int)
    requires HostPoint(b, h, drained, surged) && t >= h.now
    ensures HostPoint(b, h.(now := t), drained, surged)
  {
    hide Shape, Keep, ReplicaKey, DistinctIds, DistinctNames, RoutesKept, Routed, Careful;
    QuietStep(b, h, h.(now := t));
  }

  /** Running the next replica: the name is free, and whatever the outcome the promises hold. */
  lemma RunStep(b: Begin, h: Host, drained: nat, surged: Live, v: Verdict, t: int, r: ManagedReplica)
    requires HostPoint(b, h, drained, surged) && h.nextId == b.host.nextId + |surged| && t >= h.now
    requires IsSurged(b, r, |surged|) && NameOf(r) == ContainerName(b.c.project, b.c.service, NextIndex(b.current) + |surged|)
    requires Kept(b) + |surged| < b.c.replicas
    requires |Old(b)| - drained + Kept(b) + |surged| < b.c.replicas + b.c.rollout.maxSurge
    ensures !NameTaken(h.live, ContainerName(b.c.project, b.c.service, NextIndex(b.current) + |surged|))
    ensures StepOk(b, AfterRun(h, v, t, r))
    ensures v.Done? ==> HostPoint(b, AfterRun(h, v, t, r), drained, surged + [r])
  {
    hide *;
    PointParts(b, h, drained, surged);
    SurgeNameFree(b, h.live, drained, surged);
    NotTaken(h.live, NameOf(r));
    SurgedKey(b, r, |surged|);
    RunOutcomes(h, v, t, r);
    if v.FailedBefore? {
      LaterKeepsPoint(b, h, drained, surged, t);
      PointParts(b, h.(now := t), drained, surged);
    } else {
      var made := if v.Done? then r else r.(state := "created");
      MadeStep(b, h, AfterRun(h, v, t, r), drained, surged, made, t);
      if v.Done? {
        ShapeSurge(b, h.live, drained, surged, r);
        PointIds(b, h, drained, surged);
        RunKeepsWellFormed(h, v, t, r);
        SurgedPoint(b, h, AfterRun(h, v, t, r), drained, surged, r);
      }
    }
  }

  lemma NotTaken(live: Live, name: string)
    requires forall r :: r in live ==> NameOf(r) != name
    ensures !NameTaken(live, name)
  {
    hide NameOf;
  }

  lemma RunOutcomes(h: Host, v: Verdict, t: int, r: ManagedReplica)
    requires !NameTaken(h.live, NameOf(r))
    ensures var h' := AfterRun(h, v, t, r);
            && h'.pubs == h.pubs && h'.now == t && h'.passed == h.passed && h'.clashes == h.clashes
            && h'.cached == h.cached && h'.unsure == h.unsure && h'.cut == h.cut && h'.edge == h.edge && h.nextId <= h'.nextId
            && (v.FailedBefore? ==> h' == h.(now := t))
            && (v.Done? ==> h'.live == h.live + [r] && h'.nextId == h.nextId + 1)
            && (v.FailedAfter? ==> h'.live == h.live + [r.(state := "created")])
  {
    hide NameOf;
  }

  lemma PointIds(b: Begin, h: Host, drained: nat, surged: Live)
    requires HostPoint(b, h, drained, surged)
    ensures |h.pubs| >= |b.host.pubs| && h.nextId >= b.host.nextId + |surged| && drained <= |Old(b)|
  {
    hide StepOk, WellFormed, Without, Surged, Begins;
  }

  /** One more container of the service keeps the bounds, whatever state it was left in. */
  lemma MadeStep(b: Begin, h: Host, h': Host, drained: nat, surged: Live, made: ManagedReplica, t: int)
    requires HostPoint(b, h, drained, surged) && t >= h.now
    requires ReplicaKey(made) == Key(b) && made.cpu == b.c.cpu && made.memory == b.c.memory
    requires h'.live == h.live + [made] && h'.pubs == h.pubs && h'.now == t && h'.passed == h.passed && h'.clashes == h.clashes
    requires h'.cached == h.cached && h'.unsure == h.unsure && h'.cut == h.cut && h'.edge == h.edge && h.nextId <= h'.nextId
    requires Kept(b) + |surged| < b.c.replicas
    requires |Old(b)| - drained + Kept(b) + |surged| < b.c.replicas + b.c.rollout.maxSurge
    ensures StepOk(b, h')
  {
    hide Keep, ReplicaKey, NextIndex, DistinctIds, DistinctNames, IsSurged, Routed, RoutesKept, Careful;
    ShapeCounts(b, h.live, drained, surged);
    OldFacts(b);
    MineAppend(h.live, [made], Key(b));
    OneOfKey(made, Key(b));
    KeepAppend(Mine(h.live, Key(b)), [made], IsRunning());
    if Routed(h, b.web, Key(b)) { RoutedCarries(h, h', b.web, Key(b)); }
    RoutesCarry(b.web, Key(b), Careful(b), Serving(b), b.host, h, h');
  }

  lemma SurgedPoint(b: Begin, h: Host, h': Host, drained: nat, surged: Live, r: ManagedReplica)
    requires HostPoint(b, h, drained, surged) && Kept(b) + |surged| < b.c.replicas
    requires Shape(b, h'.live, drained, surged + [r]) && WellFormed(h') && StepOk(b, h')
    requires h'.nextId == h.nextId + 1 && h'.pubs == h.pubs
    ensures HostPoint(b, h', drained, surged + [r])
  {
    hide StepOk, WellFormed, Shape, Begins;
  }

  lemma SurgedKey(b: Begin, r: ManagedReplica, i: nat)
    requires IsSurged(b, r, i)
    ensures ReplicaKey(r) == Key(b) && ReplicaKey(r.(state := "created")) == Key(b) && r.id == b.host.nextId + i
    ensures Running(r) && (r.hostPort.Some? <==> b.c.ingress.Some?) && r.project == b.c.project && r.service == b.c.service
    ensures r.cpu == b.c.cpu && r.memory == b.c.memory
  {
  }

  lemma SurgedId(b: Begin, r: ManagedReplica, i: nat)
    requires IsSurged(b, r, i)
    ensures r.id >= b.host.nextId
  {
  }

  lemma OneOfKey(r: ManagedReplica, key: string)
    requires ReplicaKey(r) == key
    ensures Mine([r], key) == [r] && Others([r], key) == []
  {
    hide ReplicaKey;
    KeepAll([r], OfKey(key));
    assert [r][..0] == [];
  }

  /** A published table is safe when some routable replica of the service is left in it. */
  lemma PublishStep(b: Begin, h: Host, drained: nat, surged: Live, v: Verdict, t: int, excluded: set<nat>)
    requires HostPoint(b, h, drained, surged) && AllGated(b, h, surged) && t >= h.now
    requires excluded == {} || (exists r :: r in h.live && ReplicaKey(r) == Key(b) && excluded == {r.id})
    requires Serving(b) ==> excluded == {} || |Mine(h.live, Key(b))| >= 2
    ensures b.web != {} ==> HostPoint(b, AfterPublish(h, v, t, Backends(h.live, b.web, excluded)), drained, surged)
  {
    hide Keep, ReplicaKey, Shape, DistinctIds, DistinctNames, Routed, RoutesKept, Backends, Careful;
    if b.web == {} { return; }
    if Serving(b) { SomeServes(b, h, drained, surged, excluded); }
    ExcludedOwn(h, excluded, Key(b));
    RoutesPublish(b.web, Key(b), Careful(b), Serving(b), b.host, h, v, t, excluded);
    TableGated(b, h, drained, surged, excluded);
    BackendsLive(h.live, b.web, excluded);
    PublishKeepsWellFormed(h, v, t, Backends(h.live, b.web, excluded));
  }

  lemma ExcludedOwn(h: Host, excluded: set<nat>, key: string)
    requires DistinctIds(h.live)
    requires excluded == {} || (exists r :: r in h.live && ReplicaKey(r) == key && excluded == {r.id})
    ensures forall r :: r in h.live && r.id in excluded ==> ReplicaKey(r) == key
  {
    hide ReplicaKey;
    forall r | r in h.live && r.id in excluded ensures ReplicaKey(r) == key {
      var q :| q in h.live && ReplicaKey(q) == key && excluded == {q.id};
      DistinctInjective(h.live, IdOf, r, q);
    }
  }

  lemma BackendsLive(live: Live, web: set<Route>, excluded: set<nat>)
    ensures forall e :: e in Backends(live, web, excluded) ==> e.id in Ids(live)
  {
    hide ReplicaKey;
    forall e | e in Backends(live, web, excluded) ensures e.id in Ids(live) {
      var r :| r in live && IdOf(r) == e.id;
    }
  }

  lemma Announces(h: Host, v: Verdict, t: int, web: set<Route>, excluded: set<nat>)
    ensures v.Done? ==> Announced(AfterPublish(h, v, t, Backends(h.live, web, excluded)), web, excluded)
    ensures web == {} ==> Announced(h.(now := t), web, excluded)
  {
    hide Backends;
  }

  lemma AnnouncedLater(h: Host, t: int, web: set<Route>, excluded: set<nat>)
    ensures Announced(h, web, excluded) ==> Announced(h.(now := t), web, excluded)
  {
    hide Backends;
  }

  lemma TableGated(b: Begin, h: Host, drained: nat, surged: Live, excluded: set<nat>)
    requires HostPoint(b, h, drained, surged) && AllGated(b, h, surged)
    ensures GateNeeded(b.c) ==> forall e :: e in Backends(h.live, b.web, excluded) && e.id >= b.host.nextId ==> e.id in h.passed
  {
    hide Keep, ReplicaKey, Shape, DistinctIds, DistinctNames;
    ShapeMembers(b, h.live, drained, surged);
  }

  /** In a serving rollout every live replica can be routed to; one is left beside an excluded one. */
  lemma SomeServes(b: Begin, h: Host, drained: nat, surged: Live, excluded: set<nat>)
    requires HostPoint(b, h, drained, surged) && Serving(b)
    requires excluded == {} || (|excluded| == 1 && |Mine(h.live, Key(b))| >= 2)
    ensures Ready(h.live, b.web, Key(b), excluded)
  {
    hide Keep, ReplicaKey, Shape, IsSurged, RoutesKept;
    var mine := Mine(h.live, Key(b));
    ShapeMembers(b, h.live, drained, surged);
    forall r | r in mine ensures Running(r) && r.hostPort.Some? {
      if r in surged { SurgedMember(b, h.live, drained, surged, r); }
    }
    assert |mine| >= 1;
    var r := mine[0];
    if r.id in excluded {
      DistinctKeep(h.live, OfKey(Key(b)), IdOf);
      assert IdOf(mine[1]) != IdOf(mine[0]);
      OnlyOne(excluded, r.id, mine[1].id);
      r := mine[1];
    }
    assert r in mine && r.id !in excluded;
    assert Routable(r, RouteOf(b.c), excluded);
  }

  lemma OnlyOne(s: set<nat>, a: nat, b: nat)
    requires |s| == 1 && a in s && a != b
    ensures b !in s
  {
    var rest := s - {a};
    assert |rest| == 0;
    assert b in s ==> b in rest;
  }

  lemma SurgedMember(b: Begin, live: Live, drained: nat, surged: Live, r: ManagedReplica)
    requires Shape(b, live, drained, surged) && r in surged
    ensures Running(r) && (r.hostPort.Some? <==> b.c.ingress.Some?) && ReplicaKey(r) == Key(b) && r.id >= b.host.nextId
  {
    hide IsSurged, Without;
    var i :| 0 <= i < |surged| && surged[i] == r;
    SurgedKey(b, r, i);
  }

  /** Giving up on an unhealthy replica: it was never routed to, and removing it undoes the surge. */
  lemma AbandonStep(b: Begin, before: Host, h: Host, drained: nat, surged: Live, r: ManagedReplica, t: int)
    requires HostPoint(b, before, drained, surged) && before.nextId == b.host.nextId + |surged| && AllGated(b, before, surged)
    requires HostPoint(b, h, drained, surged + [r]) && t >= h.now
    requires IsSurged(b, r, |surged|) && h.live == before.live + [r] && h.pubs == before.pubs
    requires before.passed <= h.passed
    ensures var name := ContainerName(b.c.project, b.c.service, NextIndex(b.current) + |surged|);
            var h' := AfterRemoval(h, HasName(name), t);
            h'.live == before.live && HostPoint(b, h', drained, surged) && AllGated(b, h', surged)
  {
    hide Keep, ReplicaKey, ContainerName, NextIndex, DistinctIds, DistinctNames, Routed, RoutesKept, Careful, Shape, CutBy, Ready;
    var name := ContainerName(b.c.project, b.c.service, NextIndex(b.current) + |surged|);
    var h' := AfterRemoval(h, HasName(name), t);
    AbandonLive(b, before, drained, surged, r);
    RemovalKeepsWellFormed(h, HasName(name), t);
    AbandonRoutes(b, before, h, drained, surged, r, t);
  }

  lemma AbandonRoutes(b: Begin, before: Host, h: Host, drained: nat, surged: Live, r: ManagedReplica, t: int)
    requires HostPoint(b, before, drained, surged) && before.nextId == b.host.nextId + |surged|
    requires WellFormed(h) && RoutingKept(b, h) && t >= h.now
    requires IsSurged(b, r, |surged|) && h.live == before.live + [r] && h.pubs == before.pubs
    ensures RoutingKept(b, AfterRemoval(h, HasName(ContainerName(b.c.project, b.c.service, NextIndex(b.current) + |surged|)), t))
  {
    hide Keep, ReplicaKey, ContainerName, NextIndex, DistinctIds, DistinctNames, Routed, RoutesKept, Careful, Shape, CutBy, Ready, StepOk;
    var name := ContainerName(b.c.project, b.c.service, NextIndex(b.current) + |surged|);
    AbandonLive(b, before, drained, surged, r);
    SurgedKey(b, r, |surged|);
    forall q | q in h.live && !HasName(name)(q) ensures Unrouted(h, q.id) {
      assert q in before.live ==> q in WithoutName(h.live, name);
      assert q == r;
      NeverNamed(before, h, r.id);
    }
    RoutedRemoval(h, HasName(name), t, b.web, Key(b));
    if Serving(b) { SomeServes(b, before, drained, surged, {}); }
    MineAppend(before.live, [r], Key(b));
    OneOfKey(r, Key(b));
    RoutesCarry(b.web, Key(b), Careful(b), Serving(b), b.host, h, AfterRemoval(h, HasName(name), t));
  }

  /** A container newer than every table is named by none. */
  lemma NeverNamed(before: Host, h: Host, id: nat)
    requires WellFormed(before) && h.pubs == before.pubs && id >= before.nextId
    ensures Unrouted(h, id)
  {
    hide DistinctIds, DistinctNames;
  }

  lemma AbandonLive(b: Begin, before: Host, drained: nat, surged: Live, r: ManagedReplica)
    requires HostPoint(b, before, drained, surged) && IsSurged(b, r, |surged|)
    ensures WithoutName(before.live + [r], ContainerName(b.c.project, b.c.service, NextIndex(b.current) + |surged|)) == before.live
  {
    hide *;
    var name := ContainerName(b.c.project, b.c.service, NextIndex(b.current) + |surged|);
    PointParts(b, before, drained, surged);
    SurgeNameFree(b, before.live, drained, surged);
    SurgedName(b, r, |surged|);
    OnlyNamed(before.live, r, name);
  }

  lemma OnlyNamed(live: Live, r: ManagedReplica, name: string)
    requires NameOf(r) == name && forall q :: q in live ==> NameOf(q) != name
    ensures WithoutName(live + [r], name) == live
  {
    hide Keep, NameOf;
    KeepAppend(live, [r], HasName(name));
    KeepAll(live, HasName(name));
    DropOne(r, name);
  }

  lemma SurgedName(b: Begin, r: ManagedReplica, i: nat)
    requires IsSurged(b, r, i)
    ensures NameOf(r) == ContainerName(b.c.project, b.c.service, NextIndex(b.current) + i)
  {
  }

  lemma DropOne(r: ManagedReplica, name: string)
    requires NameOf(r) == name
    ensures Keep([r], HasName(name)) == []
  {
    assert [r][..0] == [];
  }

  /** The effects of draining one replica; only with ingress is it waited for, with nothing written between two heartbeats. */
  function DrainScript(c: ServiceConfig, r: ManagedReplica): seq<Effect> {
    (if c.ingress.Some? then [PublishRoutes({r.id}), Heartbeat, Sleep(WaitMs(c))] else [])
    + [Stop(r.id), Release(PortSlot(KeyOf(c), r.index)), Heartbeat]
  }

  lemma DrainEffects(c: ServiceConfig, r: ManagedReplica)
    ensures var end := [Stop(r.id), Release(PortSlot(KeyOf(c), r.index)), Heartbeat];
            && (c.ingress.Some? ==> DrainScript(c, r) == [PublishRoutes({r.id}), Heartbeat, Sleep(WaitMs(c))] + end)
            && (c.ingress.None? ==> DrainScript(c, r) == end)
  {
  }

  function DrainFloorMs(c: ServiceConfig): int { if c.ingress.Some? then DRAIN_FLOOR_MS else 0 }

  /** The wait outlasts both the user's drain timeout and routing propagation. */
  function WaitMs(c: ServiceConfig): int { Max(ParseDurationMs(c.rollout.drainTimeout), DrainFloorMs(c)) }

  lemma LongEnough(c: ServiceConfig)
    requires c.ingress.Some?
    ensures WaitMs(c) >= DRAIN_FLOOR_MS > 0 && Max(0, WaitMs(c)) == WaitMs(c)
  {
    hide ParseDurationMs;
  }

  lemma MaxFacts(a: int, n: int)
    ensures Max(0, n) == if n > 0 then n else 0
  {
  }

  lemma OldIsDrifted(b: Begin)
    ensures Old(b) == Drifted(b.current, b.c) && Old(b)[0..] == Old(b)
    ensures Kept(b) == |Matching(b.current, b.c)|
  {
  }

  lemma NotCareful(b: Begin)
    requires b.c.ingress.None?
    ensures !Careful(b)
  {
  }

  /** A rollout begins at its own first point. */
  lemma BeginPoint(b: Begin)
    requires WellFormed(b.host) && multiset(b.current) == multiset(Mine(b.host.live, KeyOf(b.c)))
    requires IsNamePart(b.c.project) && IsNamePart(b.c.service)
    ensures HostPoint(b, b.host, 0, []) && PortShape(b, b.ports, 0, []) && AllGated(b, b.host, [])
  {
    hide Keep, ReplicaKey, NeedsReplace, NextIndex, DistinctIds, DistinctNames, Routed, Careful;
    KeepAll(b.host.live, IdNotIn({}));
    assert Ids(Old(b)[..0]) == {};
    assert b.host.live + [] == b.host.live;
    OldFacts(b);
    DrainRuns(b, b.host.live, 0, []);
    assert Slots(Key(b), Old(b)[..0]) == {} && Slots(Key(b), []) == {};
    assert b.ports.Keys - {} == b.ports.Keys;
  }

  /** While draining is allowed and the service serves, at least two replicas are live. */
  lemma EnoughToDrain(b: Begin, h: Host, drained: nat, surged: Live)
    requires HostPoint(b, h, drained, surged) && drained < |Old(b)|
    requires Kept(b) + |surged| >= b.c.replicas
          || |Old(b)| - drained + Kept(b) + |surged| >= b.c.replicas + b.c.rollout.maxSurge
    ensures Serving(b) ==> |Mine(h.live, Key(b))| >= 2
  {
    hide Keep, ReplicaKey, Shape, DistinctIds, DistinctNames, StepOk;
    ShapeCounts(b, h.live, drained, surged);
    OldFacts(b);
  }

  /** The last published table leaves out the draining container. */
  ghost predicate LeftOut(h: Host, id: nat) {
    h.pubs != [] && !Names(h.pubs[|h.pubs| - 1].table, id) && h.pubs[|h.pubs| - 1].at <= h.now
  }

  lemma DrainTable(b: Begin, h: Host, drained: nat, surged: Live, v: Verdict, t: int, draining: set<nat>, id: nat)
    requires HostPoint(b, h, drained, surged) && h.unsure == b.host.unsure && id in draining && t >= h.now
    ensures Careful(b) ==> b.web != {}
    ensures Careful(b) && v.Done? ==> LeftOut(AfterPublish(h, v, t, Backends(h.live, b.web, draining)), id)
  {
    hide ReplicaKey, Backends, Routed, Shape, Keep, DistinctIds, DistinctNames, Begins;
    PublishShowsIff(h, Verdict.Done, t, Backends(h.live, b.web, draining));
    NotNamed(h.live, b.web, draining, id);
  }

  lemma NotNamed(live: Live, web: set<Route>, excluded: set<nat>, id: nat)
    requires id in excluded
    ensures !Names(Backends(live, web, excluded), id)
  {
    hide ReplicaKey;
  }

  lemma OldOwn(b: Begin, h: Host, drained: nat, surged: Live)
    requires HostPoint(b, h, drained, surged) && drained < |Old(b)|
    ensures Old(b)[drained] in h.live && ReplicaKey(Old(b)[drained]) == Key(b)
  {
    hide ReplicaKey, Keep, StepOk, NeedsReplace, NextIndex, IsSurged;
    OldFacts(b);
    var r := Old(b)[drained];
    assert r in Old(b);
    var gone := Old(b)[..drained];
    assert forall q :: q in gone ==> IdOf(q) != IdOf(r);
    assert r in Without(b.host.live, Ids(gone));
  }

  lemma WaitFacts(h: Host, t: int, id: nat)
    requires t >= h.now
    ensures LeftOut(h, id) ==> LeftOut(h.(now := t), id)
  {
  }

  lemma Outwaited(h: Host, t: int, id: nat)
    requires WellFormed(h) && t >= h.now + DRAIN_FLOOR_MS
    ensures LeftOut(h, id) ==> Unrouted(h.(now := t), id)
  {
    var h' := h.(now := t);
    forall i: nat | LeftOut(h, id) && MayHold(h', i) ensures !Names(h'.pubs[i].table, id) {
      OnlyLastHeld(h', i);
    }
  }

  /** Stopping the drained replica: the bounds hold and, if the rollout is careful, no held table names it. */
  lemma DrainStep(b: Begin, h: Host, drained: nat, surged: Live, t: int)
    requires HostPoint(b, h, drained, surged) && drained < |Old(b)| && t >= h.now
    requires Kept(b) + |surged| >= b.c.replicas
          || |Old(b)| - drained + Kept(b) + |surged| >= b.c.replicas + b.c.rollout.maxSurge
    requires Careful(b) ==> Unrouted(h, Old(b)[drained].id)
    ensures HostPoint(b, AfterRemoval(h, IdNotIn({Old(b)[drained].id}), t), drained + 1, surged)
  {
    hide Keep, ReplicaKey, NeedsReplace, NextIndex, DistinctIds, DistinctNames, IsSurged, MayHold, Routed, RoutesKept, Careful, CutBy;
    var id := Old(b)[drained].id;
    var live := Without(h.live, {id});
    ShapeDrain(b, h.live, drained, surged);
    ShapeCounts(b, h.live, drained, surged);
    ShapeCounts(b, live, drained + 1, surged);
    OldFacts(b);
    RemovalKeepsWellFormed(h, IdNotIn({id}), t);
    DrainRuns(b, live, drained + 1, surged);
    DrainRoutes(b, h, drained, surged, t);
  }

  /** If all current replicas run, all replicas at a point of the rollout do. */
  lemma DrainRuns(b: Begin, live: Live, drained: nat, surged: Live)
    requires Begins(b) && Shape(b, live, drained, surged)
    ensures AllRunning(b.current) ==> RunningOf(Mine(live, Key(b))) == Mine(live, Key(b))
  {
    hide Keep, ReplicaKey, Shape;
    ShapeMembers(b, live, drained, surged);
    if AllRunning(b.current) {
      forall r | r in Mine(live, Key(b)) ensures Running(r) {
        if r in surged { SurgedMember(b, live, drained, surged, r); }
      }
      KeepAll(Mine(live, Key(b)), IsRunning());
    }
  }

  lemma DrainRoutes(b: Begin, h: Host, drained: nat, surged: Live, t: int)
    requires HostPoint(b, h, drained, surged) && drained < |Old(b)| && t >= h.now
    requires Kept(b) + |surged| >= b.c.replicas
          || |Old(b)| - drained + Kept(b) + |surged| >= b.c.replicas + b.c.rollout.maxSurge
    requires Careful(b) ==> Unrouted(h, Old(b)[drained].id)
    ensures RoutingKept(b, AfterRemoval(h, IdNotIn({Old(b)[drained].id}), t))
  {
    hide Keep, ReplicaKey, NeedsReplace, NextIndex, DistinctNames, IsSurged, MayHold, Routed, RoutesKept, Careful,
         Shape, CutBy, Unrouted;
    var r := Old(b)[drained];
    var keep := IdNotIn({r.id});
    OldOwn(b, h, drained, surged);
    forall q | q in h.live && !keep(q) ensures q == r { DistinctInjective(h.live, IdOf, q, r); }
    OthersWithout(h.live, {r.id}, Key(b));
    CutOwn(h, keep, Key(b));
    if Careful(b) { RoutedRemoval(h, keep, t, b.web, Key(b)); }
    if Serving(b) {
      ServingIsCareful(b);
      EnoughToDrain(b, h, drained, surged);
      SomeServes(b, h, drained, surged, {r.id});
      ReadyWithout(h.live, b.web, Key(b), r.id);
    }
    RoutesCarry(b.web, Key(b), Careful(b), Serving(b), b.host, h, AfterRemoval(h, keep, t));
  }

  lemma ServingIsCareful(b: Begin)
    requires Serving(b)
    ensures Careful(b)
  {
    hide Careful;
  }

  /** Removing a service's own containers can cut no other service. */
  lemma CutOwn(h: Host, keep: ManagedReplica -> bool, key: string)
    requires forall r :: r in h.live && !keep(r) ==> ReplicaKey(r) == key
    ensures CutBy(h, keep) <= {key}
  {
    hide ReplicaKey, HeldNames;
  }

  lemma ReadyWithout(live: Live, web: set<Route>, key: string, id: nat)
    requires Ready(live, web, key, {id})
    ensures Ready(Without(live, {id}), web, key, {})
  {
    hide ReplicaKey;
    var r, w :| r in live && w in web && w.key == key && Routable(r, w, {id});
    assert r in Without(live, {id}) && Routable(r, w, {});
  }
}
