/** Node admission (`capacity.ts`): does the full set of services fit, one rollout at a time? */
module Capacity {
  import opened Common
  import opened Types

  /** What one service needs; the surge is what it needs on top while it rolls out. */
  datatype Demand = Demand(
    project: string, service: string, cpu: int, memory: int, surgeCpu: Option<int>, surgeMemory: Option<int>)

  datatype CapacityInput = CapacityInput(
    totalCpu: int, totalMemory: int, reservedCpu: int, reservedMemory: int, services: seq<Demand>)

  datatype CapacityResult = CapacityResult(
    ok: bool, allocatableCpu: int, allocatableMemory: int, usedCpu: int, usedMemory: int,
    steadyCpu: int, steadyMemory: int, surgeCpu: int, surgeMemory: int, cpuOverBy: int, memoryOverBy: int)

  function CpuDemand(): Demand -> int { (d: Demand) => d.cpu }
  function MemoryDemand(): Demand -> int { (d: Demand) => d.memory }
  function CpuSurge(): Demand -> int { (d: Demand) => if d.surgeCpu.Some? then d.surgeCpu.value else 0 }
  function MemorySurge(): Demand -> int { (d: Demand) => if d.surgeMemory.Some? then d.surgeMemory.value else 0 }

  function Sum<T>(s: seq<T>, f: T -> int): int {
    if s == [] then 0 else Sum(s[..|s| - 1], f) + f(s[|s| - 1])
  }

  /** The greatest value, but at least 0. */
  function Most<T>(s: seq<T>, f: T -> int): (m: int)
    ensures m >= 0
    ensures forall i :: 0 <= i < |s| ==> f(s[i]) <= m
    ensures m == 0 || exists i :: 0 <= i < |s| && f(s[i]) == m
  {
    if s == [] then 0 else Max(Most(s[..|s| - 1], f), f(s[|s| - 1]))
  }

  function CheckCapacity(input: CapacityInput): CapacityResult {
    var allocatableCpu := input.totalCpu - input.reservedCpu;
    var allocatableMemory := input.totalMemory - input.reservedMemory;
    var steadyCpu := Sum(input.services, CpuDemand());
    var steadyMemory := Sum(input.services, MemoryDemand());
    var surgeCpu := Most(input.services, CpuSurge());
    var surgeMemory := Most(input.services, MemorySurge());
    var usedCpu := steadyCpu + surgeCpu;
    var usedMemory := steadyMemory + surgeMemory;
    var cpuOverBy := usedCpu - allocatableCpu;
    var memoryOverBy := usedMemory - allocatableMemory;
    CapacityResult(cpuOverBy <= 0 && memoryOverBy <= 0, allocatableCpu, allocatableMemory, usedCpu, usedMemory,
                   steadyCpu, steadyMemory, surgeCpu, surgeMemory, cpuOverBy, memoryOverBy)
  }

  /** The steady demand fits, alone and with any one service's surge on top. */
  ghost predicate EachSurgeFits(services: seq<Demand>, steady: Demand -> int, surge: Demand -> int, allocatable: int) {
    && Sum(services, steady) <= allocatable
    && forall i :: 0 <= i < |services| ==> Sum(services, steady) + surge(services[i]) <= allocatable
  }

  /** The check passes if and only if, in each resource, whichever single service rolls out fits. */
  lemma PassesIffEachSurgeFits(input: CapacityInput)
    ensures CheckCapacity(input).ok
        <==> (&& EachSurgeFits(input.services, CpuDemand(), CpuSurge(), input.totalCpu - input.reservedCpu)
              && EachSurgeFits(input.services, MemoryDemand(), MemorySurge(), input.totalMemory - input.reservedMemory))
  {
    hide Sum, Most;
    MostFits(input.services, CpuSurge(), input.totalCpu - input.reservedCpu - Sum(input.services, CpuDemand()));
    MostFits(input.services, MemorySurge(), input.totalMemory - input.reservedMemory - Sum(input.services, MemoryDemand()));
  }

  lemma MostFits(services: seq<Demand>, f: Demand -> int, room: int)
    ensures Most(services, f) <= room <==> 0 <= room && forall i :: 0 <= i < |services| ==> f(services[i]) <= room
  {
    hide Most;
  }

  function DemandOf(s: ServiceConfig): Demand {
    var surge := Min(s.rollout.maxSurge, s.replicas);
    Demand(s.project, s.service, s.cpu * s.replicas, s.memory * s.replicas, Some(s.cpu * surge), Some(s.memory * surge))
  }

  /** What a list of services demands (`demandsOf` in `candidate-nodes.ts`). */
  function DemandsOf(services: seq<ServiceConfig>): (d: seq<Demand>)
    ensures |d| == |services| && forall i :: 0 <= i < |d| ==> d[i] == DemandOf(services[i])
  {
    if services == [] then [] else DemandsOf(services[..|services| - 1]) + [DemandOf(services[|services| - 1])]
  }
}

/**
 Admission is sound for the rolling peak: whatever point a pass has reached, the summed
 cpu and memory of the node's containers stay within what admission promised.
 */
module Admission {
  import opened Common
  import opened Types
  import opened Lists
  import opened Containers
  import opened Host
  import opened Planner
  import opened RolloutShape
  import opened Agent
  import opened Apply
  import opened Inspect
  import opened Reconcile
  import opened Pass
  import opened Capacity

  function Cpu(): ManagedReplica -> int { (r: ManagedReplica) => r.cpu }
  function Memory(): ManagedReplica -> int { (r: ManagedReplica) => r.memory }

  // ---- summing by service ----

  lemma SumLast<T>(s: seq<T>, x: T, f: T -> int)
    ensures Sum(s + [x], f) == Sum(s, f) + f(x)
  {
    assert (s + [x])[..|s|] == s;
  }

  lemma SumNone<T>(f: T -> int)
    ensures Sum([], f) == 0
  {
  }

  lemma {:induction false} SumSplit(live: Live, key: string, f: ManagedReplica -> int)
    ensures Sum(live, f) == Sum(Mine(live, key), f) + Sum(Others(live, key), f)
    decreases |live|
  {
    hide Keep, ReplicaKey, Sum;
    SumNone(f);
    if live == [] {
      KeepNone(OfKey(key));
      KeepNone(NotOfKey(key));
    } else {
      var front, r := live[..|live| - 1], live[|live| - 1];
      SplitLast(live);
      SumSplit(front, key, f);
      SumLast(front, r, f);
      KeepLast(front, r, OfKey(key));
      KeepLast(front, r, NotOfKey(key));
      SumLast(Mine(front, key), r, f);
      SumLast(Others(front, key), r, f);
    }
  }

  lemma {:induction false} SumEven(live: Live, f: ManagedReplica -> int, each: int)
    requires forall r :: r in live ==> f(r) == each
    ensures Sum(live, f) == |live| * each
    decreases |live|
  {
    if live != [] {
      SplitLast(live);
      SumEven(live[..|live| - 1], f, each);
      assert Sum(live, f) == (|live| - 1) * each + each;
    }
  }

  /** The share of the service at index `i` in a resource. */
  function ShareOf(live: Live, f: ManagedReplica -> int): ServiceConfig -> int {
    (c: ServiceConfig) => Sum(Mine(live, KeyOf(c)), f)
  }

  lemma {:induction false} SumSame<T>(s: seq<T>, f: T -> int, g: T -> int)
    requires forall i :: 0 <= i < |s| ==> f(s[i]) == g(s[i])
    ensures Sum(s, f) == Sum(s, g)
    decreases |s|
  {
    if s != [] { SumSame(s[..|s| - 1], f, g); }
  }

  lemma NoneLive(live: Live)
    ensures live == [] || live[0] in live
  {
  }

  /** When only desired services run, the node's total is the sum of the services' shares. */
  lemma {:induction false} SumByService(desired: seq<ServiceConfig>, live: Live, f: ManagedReplica -> int)
    requires UniqueKeys(desired) && forall r :: r in live ==> ReplicaKey(r) in DesiredKeys(desired)
    ensures Sum(live, f) == Sum(desired, ShareOf(live, f))
    decreases |desired|
  {
    hide Keep, ReplicaKey, KeyOf, Sum;
    SumNone(f);
    if desired == [] {
      SumNone(ShareOf(live, f));
      NoneLive(live);
    } else {
      var front, c := desired[..|desired| - 1], desired[|desired| - 1];
      var rest := Others(live, KeyOf(c));
      SumSplit(live, KeyOf(c), f);
      assert DesiredKeys(desired) == DesiredKeys(front) + {KeyOf(c)} by { SplitLast(desired); }
      SumByService(front, rest, f);
      forall i | 0 <= i < |front| ensures ShareOf(rest, f)(front[i]) == ShareOf(live, f)(front[i]) {
        assert KeyOf(front[i]) != KeyOf(c) by { assert front[i] == desired[i]; }
        MineOfOthers(live, KeyOf(c), KeyOf(front[i]));
      }
      SumSame(front, ShareOf(rest, f), ShareOf(live, f));
      SplitLast(desired);
      SumLast(front, c, ShareOf(live, f));
    }
  }

  // ---- one service's share at any moment of a pass ----

  /** Admitted: the node runs no more of the service than wanted, at the configured size. */
  ghost predicate Fits(c: ServiceConfig, begin: Host) {
    && c.replicas >= 1 && c.rollout.maxSurge >= 1 && c.cpu >= 0 && c.memory >= 0
    && |Mine(begin.live, KeyOf(c))| <= c.replicas && Sized(Mine(begin.live, KeyOf(c)), c)
  }

  /** Even in the middle of its rollout a service has at most its surge too many. */
  lemma TopWithinSurge(c: ServiceConfig, begin: Host)
    requires WellFormed(begin) && Fits(c, begin)
    ensures ShareTop(c, Have(begin, c)) <= c.replicas + Min(c.rollout.maxSurge, c.replicas)
  {
    hide Keep, ReplicaKey, KeyOf, NeedsReplace, WellFormed, Have, ShareTop, Sized;
    var have := Have(begin, c);
    SawAll(c, begin);
    HaveFacts(c, have, begin);
    SmallTop(c, have);
  }

  lemma SmallTop(c: ServiceConfig, have: Live)
    requires |have| <= c.replicas && c.replicas >= 1 && c.rollout.maxSurge >= 1
    ensures ShareTop(c, have) <= c.replicas + Min(c.rollout.maxSurge, c.replicas)
  {
    hide Keep, NeedsReplace;
    KeepCount(have, DriftsFrom(c), Matches(c));
  }

  lemma HaveCount(c: ServiceConfig, have: Live, h: Host)
    requires Saw(c, have, h)
    ensures |have| == |Mine(h.live, KeyOf(c))|
  {
    HaveFacts(c, have, h);
  }

  /** How many containers the service may have: its replicas, and its surge while or after it rolls. */
  lemma CountOnTurn(desired: seq<ServiceConfig>, begin: Host, turn: nat, aborts: set<nat>, smooth: set<nat>, h: Host, j: nat)
    requires WellFormed(begin) && OnTurn(desired, begin, turn, aborts, smooth, h) && j < |desired| && Fits(desired[j], begin)
    ensures var c, n := desired[j], |Mine(h.live, KeyOf(desired[j]))|;
            && Sized(Mine(h.live, KeyOf(c)), c)
            && n <= c.replicas + Min(c.rollout.maxSurge, c.replicas)
            && (j != turn && !(j < turn && j in aborts) ==> n <= c.replicas)
  {
    hide Keep, ReplicaKey, KeyOf, NeedsReplace, WellFormed, Have, ShareTop, NoDrift, ServiceConverged,
         NothingUndesiredAdded, Saw, Sized;
    var c := desired[j];
    TopWithinSurge(c, begin);
    SawAll(c, begin);
    HaveCount(c, Have(begin, c), begin);
    if j < turn {
      assert Finished(c, begin, j in aborts, j in smooth, h.live);
    } else if j > turn {
      assert Waiting(c, begin, h.live);
    }
  }

  // ---- the whole node ----

  /** A resource: how much a container has, a configuration asks for, and a demand states. */
  datatype Resource = CpuShares | MemoryMb

  function OfReplica(k: Resource): ManagedReplica -> int { if k.CpuShares? then Cpu() else Memory() }
  function Each(k: Resource, c: ServiceConfig): int { if k.CpuShares? then c.cpu else c.memory }
  function SteadyPart(k: Resource): Demand -> int { if k.CpuShares? then CpuDemand() else MemoryDemand() }
  function SurgePart(k: Resource): Demand -> int { if k.CpuShares? then CpuSurge() else MemorySurge() }

  /** The surges left behind by the rollouts among the first `n` services that were aborted before this turn. */
  function Leftover(desired: seq<ServiceConfig>, k: Resource, aborts: set<nat>, turn: nat, n: nat): int
    requires n <= |desired|
  {
    if n == 0 then 0
    else Leftover(desired, k, aborts, turn, n - 1)
         + (if n - 1 < turn && n - 1 in aborts then SurgePart(k)(DemandOf(desired[n - 1])) else 0)
  }

  /** The surge of the service being worked on, if it is among the first `n`. */
  function Surging(desired: seq<ServiceConfig>, k: Resource, turn: nat, n: nat): int
    requires n <= |desired|
  {
    if turn < n then SurgePart(k)(DemandOf(desired[turn])) else 0
  }

  lemma AtMost(n: int, replicas: int, surge: int, each: int)
    requires each >= 0
    ensures n <= replicas ==> n * each <= each * replicas
    ensures n <= replicas + surge ==> n * each <= each * replicas + each * surge
  {
    if n <= replicas { assert n * each <= replicas * each; }
    if n <= replicas + surge { assert n * each <= (replicas + surge) * each; }
  }

  lemma OneShare(desired: seq<ServiceConfig>, begin: Host, turn: nat, aborts: set<nat>, smooth: set<nat>, h: Host,
            j: nat, k: Resource)
    requires WellFormed(begin) && OnTurn(desired, begin, turn, aborts, smooth, h) && j < |desired| && Fits(desired[j], begin)
    ensures var d := DemandOf(desired[j]);
            ShareOf(h.live, OfReplica(k))(desired[j])
            <= SteadyPart(k)(d) + (if j == turn || (j < turn && j in aborts) then SurgePart(k)(d) else 0)
  {
    hide Keep, ReplicaKey, KeyOf, NeedsReplace, WellFormed, OnTurn, Sum;
    var c := desired[j];
    var mine := Mine(h.live, KeyOf(c));
    CountOnTurn(desired, begin, turn, aborts, smooth, h, j);
    SumEven(mine, OfReplica(k), Each(k, c));
    AtMost(|mine|, c.replicas, Min(c.rollout.maxSurge, c.replicas), Each(k, c));
  }

  lemma {:induction false} ShareSum(desired: seq<ServiceConfig>, begin: Host, turn: nat, aborts: set<nat>,
            smooth: set<nat>, h: Host, n: nat, k: Resource)
    requires WellFormed(begin) && OnTurn(desired, begin, turn, aborts, smooth, h) && n <= |desired|
    requires forall j :: 0 <= j < |desired| ==> Fits(desired[j], begin)
    ensures Sum(desired[..n], ShareOf(h.live, OfReplica(k)))
            <= Sum(DemandsOf(desired[..n]), SteadyPart(k)) + Leftover(desired, k, aborts, turn, n) + Surging(desired, k, turn, n)
    decreases n
  {
    hide Keep, KeyOf, WellFormed, OnTurn, Sum, Fits, OfReplica, SteadyPart, SurgePart, DemandsOf, ShareOf;
    if n == 0 {
      SumNone(ShareOf(h.live, OfReplica(k)));
      assert desired[..0] == [];
      DemandsNone();
      SumNone(SteadyPart(k));
    } else {
      var front, c := desired[..n - 1], desired[n - 1];
      ShareSum(desired, begin, turn, aborts, smooth, h, n - 1, k);
      OneShare(desired, begin, turn, aborts, smooth, h, n - 1, k);
      assert desired[..n] == front + [c];
      SumLast(front, c, ShareOf(h.live, OfReplica(k)));
      DemandsLast(front, c);
      SumLast(DemandsOf(front), DemandOf(c), SteadyPart(k));
    }
  }

  lemma DemandsNone()
    ensures DemandsOf([]) == []
  {
  }

  lemma DemandsLast(front: seq<ServiceConfig>, c: ServiceConfig)
    ensures DemandsOf(front + [c]) == DemandsOf(front) + [DemandOf(c)]
  {
    assert (front + [c])[..|front|] == front;
  }

  /**
   At every moment of a pass the node's containers together need no more than the steady
   demand, the surge of the service being worked on, and the surges left behind by rollouts
   aborted earlier in the pass.
   */
  lemma PeakBound(desired: seq<ServiceConfig>, begin: Host, turn: nat, aborts: set<nat>, smooth: set<nat>, h: Host, k: Resource)
    requires WellFormed(begin) && UniqueKeys(desired) && OnTurn(desired, begin, turn, aborts, smooth, h)
    requires forall j :: 0 <= j < |desired| ==> Fits(desired[j], begin)
    requires forall r :: r in begin.live ==> ReplicaKey(r) in DesiredKeys(desired)
    ensures Sum(h.live, OfReplica(k))
            <= Sum(DemandsOf(desired), SteadyPart(k)) + Leftover(desired, k, aborts, turn, |desired|) + Surging(desired, k, turn, |desired|)
  {
    hide Keep, ReplicaKey, KeyOf, WellFormed, Sum, Fits, OfReplica, SteadyPart, SurgePart, DemandsOf, Leftover, Surging,
         Working, Finished, Waiting;
    SumByService(desired, h.live, OfReplica(k));
    ShareSum(desired, begin, turn, aborts, smooth, h, |desired|, k);
    assert desired[..|desired|] == desired;
  }

  lemma {:induction false} NothingLeft(desired: seq<ServiceConfig>, k: Resource, aborts: set<nat>, turn: nat, n: nat)
    requires n <= |desired| && forall j :: j in aborts ==> j >= turn
    ensures Leftover(desired, k, aborts, turn, n) == 0
    decreases n
  {
    if n > 0 { NothingLeft(desired, k, aborts, turn, n - 1); }
  }

  /**
   Admission is sound for the rolling peak: if the check passes for the whole set and no
   rollout of the pass has been aborted before, the containers fit, at every moment.
   */
  lemma AdmissionSound(desired: seq<ServiceConfig>, begin: Host, turn: nat, aborts: set<nat>, smooth: set<nat>, h: Host,
            input: CapacityInput)
    requires WellFormed(begin) && UniqueKeys(desired) && OnTurn(desired, begin, turn, aborts, smooth, h)
    requires forall j :: 0 <= j < |desired| ==> Fits(desired[j], begin)
    requires forall r :: r in begin.live ==> ReplicaKey(r) in DesiredKeys(desired)
    requires input.services == DemandsOf(desired) && CheckCapacity(input).ok
    requires forall j :: j in aborts ==> j >= turn
    ensures Sum(h.live, Cpu()) <= input.totalCpu - input.reservedCpu
    ensures Sum(h.live, Memory()) <= input.totalMemory - input.reservedMemory
  {
    hide Keep, ReplicaKey, KeyOf, WellFormed, Sum, Fits, Leftover, OnTurn, DemandOf;
    PeakBound(desired, begin, turn, aborts, smooth, h, CpuShares);
    PeakBound(desired, begin, turn, aborts, smooth, h, MemoryMb);
    NothingLeft(desired, CpuShares, aborts, turn, |desired|);
    NothingLeft(desired, MemoryMb, aborts, turn, |desired|);
    if turn < |desired| {
      assert DemandsOf(desired)[turn] == DemandOf(desired[turn]);
    }
  }

  /** A pass over an admitted node in which no rollout aborts fits at every effect. */
  method AdmittedTick(agent: AppAgent, ctx: Option<CronPlanContext>, ghost input: CapacityInput) returns (ghost aborts: set<nat>)
    requires agent.Valid() && UniqueKeys(agent.desired) && WellNamed(agent.desired)
    requires forall j :: 0 <= j < |agent.desired| ==> Fits(agent.desired[j], agent.host)
    requires forall r :: r in agent.host.live ==> ReplicaKey(r) in DesiredKeys(agent.desired)
    requires input.services == DemandsOf(agent.desired) && CheckCapacity(input).ok
    modifies agent`host, agent`step, agent`history, agent`effects, agent`ports, agent`fires, agent`errors
    ensures agent.Valid() && old(agent.history) <= agent.history
    ensures aborts == {} ==> forall k :: |old(agent.history)| <= k < |agent.history| ==>
              && Sum(agent.history[k].live, Cpu()) <= input.totalCpu - input.reservedCpu
              && Sum(agent.history[k].live, Memory()) <= input.totalMemory - input.reservedMemory
    ensures Untroubled(agent.env, agent.desired, old(agent.step), agent.step) && LongLivedOnly(agent.desired) ==> aborts == {}
  {
    hide *;
    ghost var begin, desired := agent.host, agent.desired;
    agent.ValidHost();
    ghost var marks;
    aborts, marks := Tick(agent, ctx);
    ghost var smooth := SmoothTurns(agent.env, agent.desired, marks);
    ManageableAll(desired);
    if aborts == {} {
      forall k | |old(agent.history)| <= k < |agent.history|
        ensures Sum(agent.history[k].live, Cpu()) <= input.totalCpu - input.reservedCpu
        ensures Sum(agent.history[k].live, Memory()) <= input.totalMemory - input.reservedMemory
      {
        var turn := TurnOf(desired, begin, aborts, smooth, agent.history[k]);
        AdmissionSound(desired, begin, turn, aborts, smooth, agent.history[k], input);
      }
    }
  }

  lemma ManageableAll(desired: seq<ServiceConfig>)
    ensures LongLivedOnly(desired) <==> forall i :: 0 <= i < |desired| ==> Manageable(desired[i])
  {
  }

  lemma TurnOf(desired: seq<ServiceConfig>, begin: Host, aborts: set<nat>, smooth: set<nat>, h: Host) returns (turn: nat)
    requires SomeTurn(desired, begin, |desired|, aborts, smooth, h)
    ensures OnTurn(desired, begin, turn, aborts, smooth, h)
  {
    hide OnTurn;
    turn :| turn <= |desired| && OnTurn(desired, begin, turn, aborts, smooth, h);
  }
}
