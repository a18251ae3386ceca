/**
 Admission reserves one surge. A rollout that is given up on a failed publish leaves its
 surged replica behind, and the next service's surge comes on top of it.
 */
module Overcommit {
  import opened Common
  import opened Text
  import opened Types
  import opened Lists
  import opened Containers
  import opened Host
  import opened Planner
  import opened Docker
  import opened Inspect
  import opened Reconcile
  import opened Pass
  import opened Agent
  import opened Apply
  import opened Capacity
  import opened Admission

  /** One replica of half a processor, with room for one more while it rolls out. */
  predicate Small(c: ServiceConfig) {
    && c.cpu == 512 && c.memory == 256 && c.replicas == 1 && c.rollout.maxSurge == 1
    && IsNamePart(c.project) && IsNamePart(c.service) && c.cron.None? && c.jobRun.None? && c.healthCheck.None?
  }

  /** Two such services, each with its one replica, which is out of date. */
  ghost predicate TwoSmall(h: Host, a: ServiceConfig, b: ServiceConfig, ra: ManagedReplica, rb: ManagedReplica) {
    && WellFormed(h) && Small(a) && Small(b) && KeyOf(a) != KeyOf(b)
    && h.live == [ra, rb] && ReplicaKey(ra) == KeyOf(a) && ReplicaKey(rb) == KeyOf(b)
    && ra.index == 0 && rb.index == 0 && ra.cpu == 512 && rb.cpu == 512 && ra.memory == 256 && rb.memory == 256
    && NeedsReplace(ra, a) && NeedsReplace(rb, b)
  }

  /** Their steady demand and one surge are exactly what there is. */
  ghost predicate JustEnough(input: CapacityInput, a: ServiceConfig, b: ServiceConfig) {
    && input.services == DemandsOf([a, b])
    && input.totalCpu - input.reservedCpu == 3 * 512 && input.totalMemory - input.reservedMemory == 3 * 256
  }

  lemma JustEnoughPasses(input: CapacityInput, a: ServiceConfig, b: ServiceConfig)
    requires JustEnough(input, a, b) && Small(a) && Small(b)
    ensures CheckCapacity(input).ok
  {
    var x, y := DemandOf(a), DemandOf(b);
    assert [a, b][..1] == [a];
    assert DemandsOf([a, b]) == [x, y];
    assert [x, y][..1] == [x] && [x][..0] == [];
    assert Sum([x], CpuDemand()) == 512 && Sum([x], MemoryDemand()) == 256;
    assert Sum([x, y], CpuDemand()) == 1024 && Sum([x, y], MemoryDemand()) == 512;
  }

  lemma FourSum(live: Live)
    requires |live| == 4 && forall r :: r in live ==> r.cpu == 512
    ensures Sum(live, Cpu()) == 4 * 512
  {
    SumEven(live, Cpu(), 512);
  }

  /** A service surges under a free name, and its replica starts. */
  lemma SurgeStarts(h: Host, c: ServiceConfig, t: int, hostPort: Option<int>)
    requires WellFormed(h) && Small(c) && forall r :: r in h.live && ReplicaKey(r) == KeyOf(c) ==> r.index == 0
    ensures var n := NewReplica(c, h.nextId, 1, "running", hostPort, None, None);
            && !NameTaken(h.live, ContainerName(c.project, c.service, 1)) && n.cpu == 512 && ReplicaKey(n) == KeyOf(c)
            && AfterRun(h, Verdict.Done, t, n).live == h.live + [n]
  {
    hide ServiceKey, ContainerName, WellFormed;
    NewReplicaFacts(c, h.nextId, 1, hostPort, None, None);
    NameFree(h, c, 1);
  }

  lemma PublishKeepsLive(h: Host, v: Verdict, t: int, table: set<Backend>)
    ensures AfterPublish(h, v, t, table).live == h.live
  {
  }

  /** Such a node is admitted, and the pass plans to roll out the one service and then the other. */
  lemma AdmittedAndPlanned(h: Host, a: ServiceConfig, b: ServiceConfig, ra: ManagedReplica, rb: ManagedReplica,
                           ctx: Option<CronPlanContext>)
    requires TwoSmall(h, a, b, ra, rb)
    ensures Fits(a, h) && Fits(b, h) && UniqueKeys([a, b]) && forall r :: r in h.live ==> ReplicaKey(r) in DesiredKeys([a, b])
    ensures Plan([a, b], GroupAll(h.live), ctx) == [RollOut(a, [ra]), RollOut(b, [rb])]
  {
    hide Keep, KeyOf, ReplicaKey, GroupAll, PlanService, NeedsReplace, Drifted, WellFormed, PlanRemovals;
    OneEach(h.live, ra, rb, a, b);
    HaveOne(h, a, ra);
    HaveOne(h, b, rb);
    DriftPlan(a, [ra], ctx);
    DriftPlan(b, [rb], ctx);
    assert a in [a, b] && b in [a, b];
    assert DesiredKeys([a, b]) == {KeyOf(a), KeyOf(b)};
    NothingRemoved(h.live, {KeyOf(a), KeyOf(b)});
    assert [a, b][..1] == [a] && [a][..0] == [];
    var actual := GroupAll(h.live);
    assert PlanServices([], actual, ctx) == [];
    assert PlanServices([a], actual, ctx) == [] + [RollOut(a, [ra])];
    assert PlanServices([a, b], actual, ctx) == PlanServices([a], actual, ctx) + [RollOut(b, [rb])];
    assert Plan([a, b], actual, ctx) == PlanServices([a, b], actual, ctx) + [];
  }

  lemma OneEach(live: Live, ra: ManagedReplica, rb: ManagedReplica, a: ServiceConfig, b: ServiceConfig)
    requires live == [ra, rb] && KeyOf(a) != KeyOf(b) && ReplicaKey(ra) == KeyOf(a) && ReplicaKey(rb) == KeyOf(b)
    requires NeedsReplace(ra, a) && NeedsReplace(rb, b)
    ensures Mine(live, KeyOf(a)) == [ra] && Mine(live, KeyOf(b)) == [rb]
    ensures Drifted([ra], a) != [] && Drifted([rb], b) != []
  {
    hide Keep, KeyOf, ReplicaKey, NeedsReplace;
    MineAppend([ra], [rb], KeyOf(a));
    MineAppend([ra], [rb], KeyOf(b));
    OneOfKey(ra, KeyOf(a));
    OneOfKey(rb, KeyOf(b));
    KeepsNothing([ra], OfKey(KeyOf(b)));
    KeepsNothing([rb], OfKey(KeyOf(a)));
    assert live == [ra] + [rb];
    KeepAll([ra], DriftsFrom(a));
    KeepAll([rb], DriftsFrom(b));
  }

  /** Inspection lists a service's one container. */
  lemma HaveOne(h: Host, c: ServiceConfig, r: ManagedReplica)
    requires WellFormed(h) && Mine(h.live, KeyOf(c)) == [r]
    ensures Lookup(GroupAll(h.live), KeyOf(c)) == [r]
  {
    hide Keep, KeyOf, GroupAll, WellFormed, Lookup;
    SawAll(c, h);
    HaveIs(c, h);
    var have := Lookup(GroupAll(h.live), KeyOf(c));
    assert multiset(have) == multiset([r]);
    assert |have| == |multiset(have)| == 1;
    assert have[0] in multiset([r]);
  }

  lemma NothingRemoved(live: Live, keys: set<string>)
    requires forall r :: r in live ==> ReplicaKey(r) in keys
    ensures PlanRemovals(GroupAll(live), keys) == []
  {
    hide Keep, ReplicaKey, GroupAll, PlanRemovals;
    GroupFacts(live);
    var actual := GroupAll(live);
    forall i | 0 <= i < |actual| ensures actual[i].key in keys {
      KeyFound(actual, i);
      Rearranged(actual[i].replicas, Mine(live, actual[i].key));
      assert actual[i].replicas[0] in Mine(live, actual[i].key);
    }
    NoneToRemove(actual, keys);
  }

  lemma {:induction false} NoneToRemove(actual: seq<Group>, keys: set<string>)
    requires forall i :: 0 <= i < |actual| ==> actual[i].key in keys
    ensures PlanRemovals(actual, keys) == []
    decreases |actual|
  {
    if actual != [] { NoneToRemove(actual[..|actual| - 1], keys); }
  }

  /** The first service surges, and the publish that should follow fails: its rollout ends in an error. */
  method SurgeGivenUp(agent: AppAgent, a: ServiceConfig, ra: ManagedReplica, rb: ManagedReplica)
    requires agent.Valid() && Small(a) && IsNamePart(a.project) && IsNamePart(a.service) && a in agent.desired && a.ingress.Some?
    requires agent.host.live == [ra, rb] && ra.index == 0 && ra.cpu == 512 && rb.cpu == 512 && ReplicaKey(rb) != KeyOf(a)
    requires agent.env.verdict(agent.step).Done? && agent.env.verdict(agent.step + 2).Done?
    requires !agent.env.verdict(agent.step + 3).Done?
    modifies agent`host, agent`step, agent`history, agent`effects, agent`ports
    ensures agent.Valid() && agent.step == old(agent.step) + 4
    ensures |agent.host.live| == 3 && agent.host.live[..2] == [ra, rb]
    ensures agent.host.live[2].cpu == 512 && ReplicaKey(agent.host.live[2]) == KeyOf(a)
    ensures agent.effects == old(agent.effects)
         + [Pull(a.image), Allocate(PortSlot(KeyOf(a), 1)), Run(a, 1, None, None), PublishRoutes({})]
  {
    hide *;
    var pulled := agent.PullImage(a.image);
    var port := agent.AllocatePort(KeyOf(a), 1);
    agent.ValidHost();
    SurgeStarts(agent.host, a, agent.Later(), Some(port));
    var ran := agent.RunContainer(a, 1, Some(port), None, None);
    PublishKeepsLive(agent.host, agent.env.verdict(agent.step), agent.Later(), Backends(agent.host.live, WebRoutes(agent.desired, agent.edge), {}));
    var stored := agent.RefreshRouting({});
  }

  /**
   A pass over an admitted node whose plan rolls out both services. The publish after the
   first surge fails, so that rollout ends in an error with its surged replica running; then
   the second service surges, and the node holds more than it has.
   */
  method GivenUpSurgeOverflows(agent: AppAgent, a: ServiceConfig, b: ServiceConfig, ra: ManagedReplica, rb: ManagedReplica,
                               ghost input: CapacityInput, ghost ctx: Option<CronPlanContext>)
    requires agent.Valid() && agent.desired == [a, b] && TwoSmall(agent.host, a, b, ra, rb)
    requires a.ingress.Some? && b.ingress.None? && JustEnough(input, a, b)
    requires agent.env.verdict(agent.step).Done? && agent.env.verdict(agent.step + 2).Done?
    requires !agent.env.verdict(agent.step + 3).Done?
    requires agent.env.verdict(agent.step + 4).Done? && agent.env.verdict(agent.step + 5).Done?
    modifies agent`host, agent`step, agent`history, agent`effects, agent`ports
    ensures Plan(agent.desired, GroupAll(old(agent.host).live), ctx) == [RollOut(a, [ra]), RollOut(b, [rb])]
    ensures CheckCapacity(input).ok && Sum(agent.host.live, Cpu()) == 4 * 512 > input.totalCpu - input.reservedCpu
    ensures agent.effects == old(agent.effects)
         + [Pull(a.image), Allocate(PortSlot(KeyOf(a), 1)), Run(a, 1, None, None), PublishRoutes({})]
         + [Pull(b.image), Run(b, 1, None, None)]
  {
    hide *;
    TwoParts(agent.host, a, b, ra, rb, input);
    AdmittedAndPlanned(agent.host, a, b, ra, rb, ctx);
    JustEnoughPasses(input, a, b);
    assert a in agent.desired by { assert agent.desired[0] == a; }
    SurgeGivenUp(agent, a, ra, rb);
    var next := agent.PullImage(b.image);
    agent.ValidHost();
    ThreeNames(agent.host.live, ra, rb, b);
    SurgeStarts(agent.host, b, agent.Later(), None);
    var ran := agent.RunContainer(b, 1, None, None, None);
    FourSum(agent.host.live);
  }

  lemma ThreeNames(live: Live, ra: ManagedReplica, rb: ManagedReplica, b: ServiceConfig)
    requires |live| == 3 && live[..2] == [ra, rb] && ra.cpu == 512 && rb.cpu == 512 && live[2].cpu == 512
    requires rb.index == 0 && ReplicaKey(ra) != KeyOf(b) && ReplicaKey(live[2]) != KeyOf(b)
    ensures forall r :: r in live && ReplicaKey(r) == KeyOf(b) ==> r.index == 0
    ensures forall r :: r in live ==> r.cpu == 512
  {
    hide ReplicaKey, KeyOf;
    assert live[0] == live[..2][0] && live[1] == live[..2][1];
  }

  lemma TwoParts(h: Host, a: ServiceConfig, b: ServiceConfig, ra: ManagedReplica, rb: ManagedReplica, input: CapacityInput)
    requires TwoSmall(h, a, b, ra, rb) && JustEnough(input, a, b)
    ensures Small(a) && Small(b) && h.live == [ra, rb] && ra.cpu == 512 && rb.cpu == 512
    ensures IsNamePart(a.project) && IsNamePart(a.service) && IsNamePart(b.project) && IsNamePart(b.service)
    ensures KeyOf(a) != KeyOf(b) && ra.index == 0 && rb.index == 0
    ensures ReplicaKey(ra) == KeyOf(a) && ReplicaKey(rb) == KeyOf(b)
    ensures input.totalCpu - input.reservedCpu == 3 * 512
  {
    hide WellFormed, IsNamePart;
  }
}
