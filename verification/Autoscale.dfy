/** Node-pool autoscaling (`autoscale.ts`): one decision per pass. Utilization is over the reals. */
module Autoscale {
  import opened Common
  import opened Text
  import opened Lists
  import opened Capacity

  /** A node's committed footprint and capacity. */
  datatype Reservation = Reservation(
    steadyCpu: int, steadyMemory: int, surgeCpu: int, surgeMemory: int, allocatableCpu: int, allocatableMemory: int)

  datatype Observation = Observation(
    nodeId: string, hostsContainers: bool, state: string, protected: bool, external: bool,
    cpuPercent: Option<real>, memoryPercent: Option<real>, reserved: Option<Reservation>)

  datatype Policy = Policy(
    minNodes: int, maxNodes: int, scaleOutPercent: real, scaleInPercent: real, cooldownSeconds: int,
    /** when the last action was applied, if that parses as a time */ lastScaleMs: Option<int>)

  datatype Decision = NoAction | ScaleOut | ScaleIn(victim: string)

  // ---- feasibility ----

  function ReservedBy(f: Reservation -> int): Observation -> int {
    (n: Observation) => if n.reserved.Some? then f(n.reserved.value) else 0
  }

  function OtherThan(id: string): Observation -> bool { (n: Observation) => n.nodeId != id }

  function Survivors(victim: Observation, pool: seq<Observation>): seq<Observation> { Keep(pool, OtherThan(victim.nodeId)) }

  predicate AllReserved(nodes: seq<Observation>) { forall i :: 0 <= i < |nodes| ==> nodes[i].reserved.Some? }

  /** The greatest of the survivors' values and the victim's. */
  function Greatest(nodes: seq<Observation>, f: Reservation -> int, least: int): (m: int)
    ensures m >= least
    ensures forall i :: 0 <= i < |nodes| ==> ReservedBy(f)(nodes[i]) <= m
    ensures m == least || exists i :: 0 <= i < |nodes| && ReservedBy(f)(nodes[i]) == m
  {
    if nodes == [] then least
    else Max(Greatest(nodes[..|nodes| - 1], f, least), ReservedBy(f)(nodes[|nodes| - 1]))
  }

  /** One resource of the aggregate check. */
  predicate Absorbs(victim: Reservation, survivors: seq<Observation>,
                    allocatable: Reservation -> int, steady: Reservation -> int, surge: Reservation -> int)
  {
    Sum(survivors, ReservedBy(allocatable))
    >= Sum(survivors, ReservedBy(steady)) + steady(victim) + Greatest(survivors, surge, surge(victim))
  }

  function AllocatableCpu(): Reservation -> int { (r: Reservation) => r.allocatableCpu }
  function AllocatableMemory(): Reservation -> int { (r: Reservation) => r.allocatableMemory }
  function SteadyCpu(): Reservation -> int { (r: Reservation) => r.steadyCpu }
  function SteadyMemory(): Reservation -> int { (r: Reservation) => r.steadyMemory }
  function SurgeCpu(): Reservation -> int { (r: Reservation) => r.surgeCpu }
  function SurgeMemory(): Reservation -> int { (r: Reservation) => r.surgeMemory }

  /** Missing reservation data skips the check. */
  predicate SurvivorsCanAbsorb(victim: Observation, pool: seq<Observation>) {
    var survivors := Survivors(victim, pool);
    victim.reserved.None? || !AllReserved(survivors)
    || (&& Absorbs(victim.reserved.value, survivors, AllocatableCpu(), SteadyCpu(), SurgeCpu())
        && Absorbs(victim.reserved.value, survivors, AllocatableMemory(), SteadyMemory(), SurgeMemory()))
  }

  // ---- the decision ----

  predicate Down(state: string) { state == "stopped" || state == "terminating" || state == "terminated" }

  function InPool(): Observation -> bool { (n: Observation) => n.hostsContainers && !Down(n.state) }

  function Fresh(): Observation -> bool { (n: Observation) => n.cpuPercent.Some? && n.memoryPercent.Some? }

  function Drainable(): Observation -> bool { (n: Observation) => !n.protected && !n.external }

  function Cpu(n: Observation): real { if n.cpuPercent.Some? then n.cpuPercent.value else 0.0 }

  function Memory(n: Observation): real { if n.memoryPercent.Some? then n.memoryPercent.value else 0.0 }

  function Load(n: Observation): real { if Cpu(n) >= Memory(n) then Cpu(n) else Memory(n) }

  function SumReal(s: seq<Observation>, f: Observation -> real): real {
    if s == [] then 0.0 else SumReal(s[..|s| - 1], f) + f(s[|s| - 1])
  }

  predicate Cold(n: Observation, percent: real) { Cpu(n) < percent && Memory(n) < percent }

  /** Least loaded first; of two as loaded, the one whose name sorts last. */
  predicate Precedes(a: Observation, b: Observation) {
    Load(a) < Load(b) || (Load(a) == Load(b) && StringLess(b.nodeId, a.nodeId))
  }

  function InsertColdest(n: Observation, s: seq<Observation>): (t: seq<Observation>)
    ensures multiset(t) == multiset(s) + multiset{n}
  {
    if s == [] || Precedes(n, s[0]) then [n] + s
    else
      assert s == [s[0]] + s[1..];
      [s[0]] + InsertColdest(n, s[1..])
  }

  function ColdestFirst(s: seq<Observation>): (t: seq<Observation>)
    ensures multiset(t) == multiset(s)
  {
    if s == [] then []
    else
      assert s == s[..|s| - 1] + [s[|s| - 1]];
      InsertColdest(s[|s| - 1], ColdestFirst(s[..|s| - 1]))
  }

  /** The first of the list the survivors can absorb. */
  function FirstAbsorbable(ordered: seq<Observation>, pool: seq<Observation>): (r: Option<Observation>)
    ensures r.Some? ==> r.value in ordered && SurvivorsCanAbsorb(r.value, pool)
    ensures r.None? ==> forall n :: n in ordered ==> !SurvivorsCanAbsorb(n, pool)
  {
    if ordered == [] then None
    else if SurvivorsCanAbsorb(ordered[0], pool) then Some(ordered[0])
    else FirstAbsorbable(ordered[1..], pool)
  }

  predicate CoolingDown(policy: Policy, nowMs: int) {
    policy.lastScaleMs.Some? && nowMs - policy.lastScaleMs.value < policy.cooldownSeconds * 1000
  }

  predicate Hot(policy: Policy, seen: seq<Observation>)
    requires seen != []
  {
    SumReal(seen, Cpu) / |seen| as real >= policy.scaleOutPercent || SumReal(seen, Memory) / |seen| as real >= policy.scaleOutPercent
  }

  predicate EveryNodeCold(policy: Policy, pool: seq<Observation>) {
    forall i :: 0 <= i < |pool| ==> Fresh()(pool[i]) && Cold(pool[i], policy.scaleInPercent)
  }

  function PlanAutoscale(policy: Policy, nodes: seq<Observation>, nowMs: int): Decision {
    var pool := Keep(nodes, InPool());
    if |pool| < policy.minNodes then ScaleOut
    else if CoolingDown(policy, nowMs) then NoAction
    else
      var seen := Keep(pool, Fresh());
      if seen == [] then NoAction
      else if Hot(policy, seen) then (if |pool| >= policy.maxNodes then NoAction else ScaleOut)
      else if |pool| > policy.minNodes && EveryNodeCold(policy, pool) then
        match FirstAbsorbable(ColdestFirst(Keep(pool, Drainable())), pool)
        case None => NoAction
        case Some(victim) => ScaleIn(victim.nodeId)
      else NoAction
  }

  // ---- what a decision promises ----

  ghost predicate Ordered(s: seq<Observation>) { forall i, j :: 0 <= i < j < |s| ==> !Precedes(s[j], s[i]) }

  lemma PrecedesWeakly(a: Observation, b: Observation, c: Observation)
    requires !Precedes(b, a) && !Precedes(c, b)
    ensures !Precedes(c, a)
  {
    hide StringLess, Load;
    StringLessTotal(a.nodeId, b.nodeId);
    StringLessTotal(b.nodeId, c.nodeId);
    if StringLess(a.nodeId, c.nodeId) && StringLess(c.nodeId, b.nodeId) { StringLessTransitive(a.nodeId, c.nodeId, b.nodeId); }
    if StringLess(b.nodeId, a.nodeId) && StringLess(a.nodeId, c.nodeId) { StringLessTransitive(b.nodeId, a.nodeId, c.nodeId); }
    StringLessIrreflexive(a.nodeId);
  }

  lemma PrecedesAsymmetric(a: Observation, b: Observation)
    requires Precedes(a, b)
    ensures !Precedes(b, a)
  {
    hide StringLess, Load;
    if StringLess(a.nodeId, b.nodeId) && StringLess(b.nodeId, a.nodeId) {
      StringLessTransitive(a.nodeId, b.nodeId, a.nodeId);
      StringLessIrreflexive(a.nodeId);
    }
  }

  lemma {:induction false} InsertOrdered(n: Observation, s: seq<Observation>)
    requires Ordered(s)
    ensures Ordered(InsertColdest(n, s))
    decreases |s|
  {
    hide Precedes;
    var t := InsertColdest(n, s);
    if s != [] {
      if Precedes(n, s[0]) {
        PrecedesAsymmetric(n, s[0]);
        forall j | 0 < j < |t| ensures !Precedes(t[j], n) {
          if j > 1 { PrecedesWeakly(n, s[0], s[j - 1]); }
        }
      } else {
        InsertOrdered(n, s[1..]);
        var rest := InsertColdest(n, s[1..]);
        forall j | 0 <= j < |rest| ensures !Precedes(rest[j], s[0]) {
          assert rest[j] in multiset(rest);
          assert rest[j] == n || rest[j] in multiset(s[1..]);
        }
      }
    }
  }

  lemma {:induction false} ColdestFirstOrdered(s: seq<Observation>)
    ensures Ordered(ColdestFirst(s))
    decreases |s|
  {
    if s != [] {
      ColdestFirstOrdered(s[..|s| - 1]);
      InsertOrdered(s[|s| - 1], ColdestFirst(s[..|s| - 1]));
    }
  }

  lemma {:induction false} FirstIsColdest(ordered: seq<Observation>, pool: seq<Observation>)
    requires Ordered(ordered)
    ensures var r := FirstAbsorbable(ordered, pool);
            r.Some? ==> forall n :: n in ordered && SurvivorsCanAbsorb(n, pool) ==> n == r.value || !Precedes(n, r.value)
    decreases |ordered|
  {
    hide Precedes, SurvivorsCanAbsorb;
    if ordered != [] && !SurvivorsCanAbsorb(ordered[0], pool) {
      FirstIsColdest(ordered[1..], pool);
    }
  }

  /** The node may be drained: nobody's edge, ours to stop, and its footprint fits elsewhere. */
  ghost predicate Candidate(n: Observation, pool: seq<Observation>) {
    n in pool && !n.protected && !n.external && SurvivorsCanAbsorb(n, pool)
  }

  /** Some node was seen, no cooldown runs, and the floor holds: utilization may speak. */
  ghost predicate Awake(policy: Policy, pool: seq<Observation>, nowMs: int) {
    |pool| >= policy.minNodes && !CoolingDown(policy, nowMs) && Keep(pool, Fresh()) != []
  }

  lemma SomeCandidate(pool: seq<Observation>)
    ensures FirstAbsorbable(ColdestFirst(Keep(pool, Drainable())), pool).Some? <==> exists v :: Candidate(v, pool)
  {
    hide Keep, SurvivorsCanAbsorb, Precedes;
    var drainable := Keep(pool, Drainable());
    var ordered := ColdestFirst(drainable);
    forall n ensures n in ordered <==> n in drainable {
      assert n in ordered <==> n in multiset(ordered);
    }
    if FirstAbsorbable(ordered, pool).Some? {
      assert Candidate(FirstAbsorbable(ordered, pool).value, pool);
    }
  }

  /** Exactly when the pool grows and when it shrinks. */
  lemma DecisionIff(policy: Policy, nodes: seq<Observation>, nowMs: int)
    ensures var pool := Keep(nodes, InPool());
            && (PlanAutoscale(policy, nodes, nowMs).ScaleOut? <==>
                  |pool| < policy.minNodes || (Awake(policy, pool, nowMs) && |pool| < policy.maxNodes && Hot(policy, Keep(pool, Fresh()))))
            && (PlanAutoscale(policy, nodes, nowMs).ScaleIn? <==>
                  && Awake(policy, pool, nowMs) && !Hot(policy, Keep(pool, Fresh()))
                  && |pool| > policy.minNodes && EveryNodeCold(policy, pool) && exists v :: Candidate(v, pool))
  {
    hide Keep, Hot, EveryNodeCold, Candidate;
    SomeCandidate(Keep(nodes, InPool()));
  }

  /**
   The pool shrinks only when every one of its nodes was seen cold, the floor stays intact
   and no cooldown runs, and the victim is the coldest node that may be drained; it grows
   only below the floor, or when hot and below the ceiling; the floor wins over everything.
   */
  lemma DecisionIsJustified(policy: Policy, nodes: seq<Observation>, nowMs: int)
    ensures var pool := Keep(nodes, InPool());
            match PlanAutoscale(policy, nodes, nowMs)
            case ScaleIn(victim) =>
              && |pool| > policy.minNodes && !CoolingDown(policy, nowMs) && EveryNodeCold(policy, pool)
              && exists v :: Candidate(v, pool) && v.nodeId == victim && forall n :: Candidate(n, pool) && n != v ==> !Precedes(n, v)
            case ScaleOut => |pool| < policy.minNodes || (|pool| < policy.maxNodes && !CoolingDown(policy, nowMs))
            case NoAction => |pool| >= policy.minNodes
    ensures |Keep(nodes, InPool())| < policy.minNodes ==> PlanAutoscale(policy, nodes, nowMs) == ScaleOut
  {
    hide Keep, Precedes, SurvivorsCanAbsorb, Hot, EveryNodeCold, Ordered;
    var pool := Keep(nodes, InPool());
    if PlanAutoscale(policy, nodes, nowMs).ScaleIn? {
      var drainable := Keep(pool, Drainable());
      var ordered := ColdestFirst(drainable);
      ColdestFirstOrdered(drainable);
      FirstIsColdest(ordered, pool);
      var v := FirstAbsorbable(ordered, pool).value;
      forall n ensures n in ordered <==> n in drainable {
        assert n in ordered <==> n in multiset(ordered);
      }
      assert Candidate(v, pool);
    }
  }
}

/** The aggregate check never refuses a drain that some placement could carry out. */
module Absorbing {
  import opened Common
  import opened Lists
  import opened Capacity
  import opened Autoscale

  /** A node and the demands committed to it. */
  datatype NodeLoad = NodeLoad(totalCpu: int, totalMemory: int, reservedCpu: int, reservedMemory: int, demands: seq<Demand>)

  function InputOf(n: NodeLoad, demands: seq<Demand>): CapacityInput {
    CapacityInput(n.totalCpu, n.totalMemory, n.reservedCpu, n.reservedMemory, demands)
  }

  /** The sums and maxima of a node's demands, as admission computes them. */
  function ReservationOf(n: NodeLoad): Reservation {
    var c := CheckCapacity(InputOf(n, n.demands));
    Reservation(c.steadyCpu, c.steadyMemory, c.surgeCpu, c.surgeMemory, c.allocatableCpu, c.allocatableMemory)
  }

  /** The survivors are observed with exactly these reservations, in this order. */
  ghost predicate Reports(nodes: seq<Observation>, loads: seq<NodeLoad>) {
    |nodes| == |loads| && forall i :: 0 <= i < |nodes| ==> nodes[i].reserved == Some(ReservationOf(loads[i]))
  }

  /** One of the victim's demands and the survivor it would move to. */
  datatype Placed = Placed(d: Demand, node: nat)

  function At(k: nat): Placed -> bool { (p: Placed) => p.node == k }

  function Under(n: nat): Placed -> bool { (p: Placed) => p.node < n }

  function Unplace(plan: seq<Placed>): (r: seq<Demand>)
    ensures |r| == |plan| && forall i :: 0 <= i < |r| ==> r[i] == plan[i].d
  {
    seq(|plan|, i requires 0 <= i < |plan| => plan[i].d)
  }

  /** What survivor `k` would carry. */
  function Carried(loads: seq<NodeLoad>, plan: seq<Placed>, k: nat): seq<Demand>
    requires k < |loads|
  {
    loads[k].demands + Unplace(Keep(plan, At(k)))
  }

  /** The plan moves every demand of the victim to a survivor, and each survivor passes admission. */
  ghost predicate Feasible(victim: NodeLoad, loads: seq<NodeLoad>, plan: seq<Placed>) {
    && Unplace(plan) == victim.demands && (forall p :: p in plan ==> p.node < |loads|)
    && forall k: nat :: k < |loads| ==> CheckCapacity(InputOf(loads[k], Carried(loads, plan, k))).ok
  }

  // ---- sums and maxima over joined lists ----

  lemma {:induction false} SumAppend<T>(a: seq<T>, b: seq<T>, f: T -> int)
    ensures Sum(a + b, f) == Sum(a, f) + Sum(b, f)
    decreases |b|
  {
    if b == [] {
      assert a + b == a;
    } else {
      SumAppend(a, b[..|b| - 1], f);
      assert (a + b)[..|a + b| - 1] == a + b[..|b| - 1];
    }
  }

  lemma MostAtLeast<T>(s: seq<T>, part: seq<T>, f: T -> int)
    requires forall x :: x in part ==> x in s
    ensures Most(s, f) >= Most(part, f)
  {
    if Most(part, f) != 0 {
      var i :| 0 <= i < |part| && f(part[i]) == Most(part, f);
      assert part[i] in s;
      var j :| 0 <= j < |s| && s[j] == part[i];
      assert f(s[j]) <= Most(s, f);
    }
  }

  lemma MostAppend<T>(a: seq<T>, b: seq<T>, f: T -> int)
    ensures Most(a + b, f) == Max(Most(a, f), Most(b, f))
  {
    MostAtLeast(a + b, a, f);
    MostAtLeast(a + b, b, f);
    var m := Most(a + b, f);
    if m != 0 {
      var i :| 0 <= i < |a + b| && f((a + b)[i]) == m;
      if i < |a| { assert f(a[i]) <= Most(a, f); } else { assert f(b[i - |a|]) <= Most(b, f); }
    }
  }

  /** A demand's value, read through a placement. */
  function Through(f: Demand -> int): Placed -> int { (p: Placed) => f(p.d) }

  lemma {:induction false} SumThrough(plan: seq<Placed>, f: Demand -> int)
    ensures Sum(Unplace(plan), f) == Sum(plan, Through(f))
    decreases |plan|
  {
    if plan != [] {
      SumThrough(plan[..|plan| - 1], f);
      var u := Unplace(plan);
      assert u[..|u| - 1] == Unplace(plan[..|plan| - 1]);
    }
  }

  lemma SumOneMore<T>(s: seq<T>, x: T, f: T -> int)
    ensures Sum(s + [x], f) == Sum(s, f) + f(x)
  {
    assert (s + [x])[..|s|] == s;
  }

  /** The demands going to the first `k + 1` survivors: those going to the first `k`, and those going to survivor `k`. */
  lemma {:induction false} SplitByNode(plan: seq<Placed>, k: nat, f: Placed -> int)
    ensures Sum(Keep(plan, Under(k + 1)), f) == Sum(Keep(plan, Under(k)), f) + Sum(Keep(plan, At(k)), f)
    decreases |plan|
  {
    hide Keep, Sum;
    if plan == [] {
      KeepNone(Under(k + 1));
      KeepNone(Under(k));
      KeepNone(At(k));
      NoSum(f);
    } else {
      var front, p := plan[..|plan| - 1], plan[|plan| - 1];
      SplitLast(plan);
      SplitByNode(front, k, f);
      KeepLast(front, p, Under(k + 1));
      KeepLast(front, p, Under(k));
      KeepLast(front, p, At(k));
      SumOneMore(Keep(front, Under(k + 1)), p, f);
      SumOneMore(Keep(front, Under(k)), p, f);
      SumOneMore(Keep(front, At(k)), p, f);
    }
  }

  lemma NoSum<T>(f: T -> int)
    ensures Sum([], f) == 0
  {
  }

  // ---- one resource ----

  function TotalOf(loads: seq<NodeLoad>, per: NodeLoad -> int, n: nat): int
    requires n <= |loads|
  {
    if n == 0 then 0 else TotalOf(loads, per, n - 1) + per(loads[n - 1])
  }

  function SteadyOf(f: Demand -> int): NodeLoad -> int { (l: NodeLoad) => Sum(l.demands, f) }

  /** The summed peaks of the first `n` survivors' surges. */
  function Surges(loads: seq<NodeLoad>, plan: seq<Placed>, surge: Demand -> int, n: nat): (r: int)
    requires n <= |loads|
    ensures r >= 0
  {
    if n == 0 then 0 else Surges(loads, plan, surge, n - 1) + Most(Carried(loads, plan, n - 1), surge)
  }

  lemma {:induction false} SurgesCover(loads: seq<NodeLoad>, plan: seq<Placed>, surge: Demand -> int, n: nat, k: nat)
    requires k < n <= |loads|
    ensures Surges(loads, plan, surge, n) >= Most(Carried(loads, plan, k), surge)
    decreases n
  {
    hide Carried, Most;
    if k < n - 1 { SurgesCover(loads, plan, surge, n - 1, k); }
  }

  /** Each survivor fits what it would carry. */
  ghost predicate EachFits(loads: seq<NodeLoad>, plan: seq<Placed>, alloc: NodeLoad -> int, steady: Demand -> int,
            surge: Demand -> int) {
    forall k: nat :: k < |loads| ==> Sum(Carried(loads, plan, k), steady) + Most(Carried(loads, plan, k), surge) <= alloc(loads[k])
  }

  lemma {:induction false} TotalFits(loads: seq<NodeLoad>, plan: seq<Placed>, alloc: NodeLoad -> int,
            steady: Demand -> int, surge: Demand -> int, n: nat)
    requires EachFits(loads, plan, alloc, steady, surge) && n <= |loads|
    ensures TotalOf(loads, SteadyOf(steady), n) + Sum(Keep(plan, Under(n)), Through(steady)) + Surges(loads, plan, surge, n)
            <= TotalOf(loads, alloc, n)
    decreases n
  {
    hide Keep, Sum, Most, Carried, EachFits, Under, At, Unplace;
    if n == 0 {
      NoneUnder(plan, Through(steady));
    } else {
      TotalFits(loads, plan, alloc, steady, surge, n - 1);
      SplitByNode(plan, n - 1, Through(steady));
      NodeFits(loads, plan, alloc, steady, surge, n - 1);
    }
  }

  lemma NoneUnder(plan: seq<Placed>, f: Placed -> int)
    ensures Sum(Keep(plan, Under(0)), f) == 0
  {
    hide Keep;
    KeepsNothing(plan, Under(0));
  }

  lemma NodeFits(loads: seq<NodeLoad>, plan: seq<Placed>, alloc: NodeLoad -> int, steady: Demand -> int,
            surge: Demand -> int, k: nat)
    requires EachFits(loads, plan, alloc, steady, surge) && k < |loads|
    ensures SteadyOf(steady)(loads[k]) + Sum(Keep(plan, At(k)), Through(steady)) + Most(Carried(loads, plan, k), surge) <= alloc(loads[k])
  {
    hide Keep, Sum, Most, Unplace;
    SumThrough(Keep(plan, At(k)), steady);
    SumAppend(loads[k].demands, Unplace(Keep(plan, At(k))), steady);
  }

  /** Every surge, the victim's or a survivor's own, is among those carried. */
  lemma SurgeCovered(victim: NodeLoad, loads: seq<NodeLoad>, plan: seq<Placed>, surge: Demand -> int, m: int)
    requires Unplace(plan) == victim.demands && forall p :: p in plan ==> p.node < |loads|
    requires m == Most(victim.demands, surge) || exists k :: 0 <= k < |loads| && Most(loads[k].demands, surge) == m
    ensures Surges(loads, plan, surge, |loads|) >= m
  {
    hide Keep, Most, Surges, Carried, Unplace;
    if m == Most(victim.demands, surge) {
      if m != 0 {
        var i :| 0 <= i < |victim.demands| && surge(victim.demands[i]) == m;
        PlacedSomewhere(loads, plan, i);
        var k := plan[i].node;
        assert Unplace(plan)[i] in Carried(loads, plan, k);
        MostOf(Carried(loads, plan, k), victim.demands[i], surge);
        SurgesCover(loads, plan, surge, |loads|, k);
      }
    } else {
      var k :| 0 <= k < |loads| && Most(loads[k].demands, surge) == m;
      CarriesOwn(loads, plan, k);
      MostAtLeast(Carried(loads, plan, k), loads[k].demands, surge);
      SurgesCover(loads, plan, surge, |loads|, k);
    }
  }

  lemma MostOf<T>(s: seq<T>, x: T, f: T -> int)
    requires x in s
    ensures f(x) <= Most(s, f)
  {
    var i :| 0 <= i < |s| && s[i] == x;
  }

  lemma CarriesOwn(loads: seq<NodeLoad>, plan: seq<Placed>, k: nat)
    requires k < |loads|
    ensures forall d :: d in loads[k].demands ==> d in Carried(loads, plan, k)
  {
  }

  lemma PlacedSomewhere(loads: seq<NodeLoad>, plan: seq<Placed>, i: nat)
    requires i < |plan| && plan[i].node < |loads|
    ensures Unplace(plan)[i] in Carried(loads, plan, plan[i].node)
  {
    hide Keep;
    var p := plan[i];
    var s := Keep(plan, At(p.node));
    assert p in plan && p in s;
    var j :| 0 <= j < |s| && s[j] == p;
    assert Unplace(s)[j] == p.d;
    assert Carried(loads, plan, p.node)[|loads[p.node].demands| + j] == p.d;
  }

  /** The observed sum of a reservation field is the sum over the loads. */
  lemma {:induction false} ReportedSum(nodes: seq<Observation>, loads: seq<NodeLoad>, f: Reservation -> int,
            per: NodeLoad -> int, n: nat)
    requires Reports(nodes, loads) && n <= |nodes| && forall l :: per(l) == f(ReservationOf(l))
    ensures Sum(nodes[..n], ReservedBy(f)) == TotalOf(loads, per, n)
    decreases n
  {
    if n > 0 {
      ReportedSum(nodes, loads, f, per, n - 1);
      assert nodes[..n][..n - 1] == nodes[..n - 1];
    }
  }

  lemma ResourceAbsorbed(victim: NodeLoad, survivors: seq<Observation>, loads: seq<NodeLoad>, plan: seq<Placed>,
                         alloc: NodeLoad -> int, steady: Demand -> int, surge: Demand -> int,
                         rAlloc: Reservation -> int, rSteady: Reservation -> int, rSurge: Reservation -> int)
    requires Reports(survivors, loads) && Unplace(plan) == victim.demands && forall p :: p in plan ==> p.node < |loads|
    requires EachFits(loads, plan, alloc, steady, surge)
    requires forall l :: alloc(l) == rAlloc(ReservationOf(l)) && Sum(l.demands, steady) == rSteady(ReservationOf(l))
                      && Most(l.demands, surge) == rSurge(ReservationOf(l))
    ensures Absorbs(ReservationOf(victim), survivors, rAlloc, rSteady, rSurge)
  {
    hide Keep, ReservationOf, EachFits;
    var n := |loads|;
    assert survivors[..n] == survivors;
    ReportedSum(survivors, loads, rAlloc, alloc, n);
    ReportedSum(survivors, loads, rSteady, SteadyOf(steady), n);
    TotalFits(loads, plan, alloc, steady, surge, n);
    KeepAll(plan, Under(n));
    SumThrough(plan, steady);
    var m := Greatest(survivors, rSurge, rSurge(ReservationOf(victim)));
    if m != rSurge(ReservationOf(victim)) {
      var i :| 0 <= i < |survivors| && ReservedBy(rSurge)(survivors[i]) == m;
      assert Most(loads[i].demands, surge) == m;
    }
    SurgeCovered(victim, loads, plan, surge, m);
  }

  function NodeCpu(): NodeLoad -> int { (l: NodeLoad) => l.totalCpu - l.reservedCpu }
  function NodeMemory(): NodeLoad -> int { (l: NodeLoad) => l.totalMemory - l.reservedMemory }

  /**
   A refusal is never wrong: when some placement of the victim's services passes admission on
   every survivor, the aggregate check accepts the drain.
   */
  lemma RefusalIsNeverWrong(victim: Observation, load: NodeLoad, pool: seq<Observation>, loads: seq<NodeLoad>, plan: seq<Placed>)
    requires victim.reserved == Some(ReservationOf(load)) && Reports(Survivors(victim, pool), loads)
    requires Feasible(load, loads, plan)
    ensures SurvivorsCanAbsorb(victim, pool)
  {
    hide Keep, Absorbs;
    assert EachFits(loads, plan, NodeCpu(), CpuDemand(), CpuSurge()) by {
      forall k: nat | k < |loads| ensures
          Sum(Carried(loads, plan, k), CpuDemand()) + Most(Carried(loads, plan, k), CpuSurge()) <= NodeCpu()(loads[k]) {
        assert CheckCapacity(InputOf(loads[k], Carried(loads, plan, k))).ok;
      }
    }
    assert EachFits(loads, plan, NodeMemory(), MemoryDemand(), MemorySurge()) by {
      forall k: nat | k < |loads| ensures
          Sum(Carried(loads, plan, k), MemoryDemand()) + Most(Carried(loads, plan, k), MemorySurge()) <= NodeMemory()(loads[k]) {
        assert CheckCapacity(InputOf(loads[k], Carried(loads, plan, k))).ok;
      }
    }
    var survivors := Survivors(victim, pool);
    ResourceAbsorbed(load, survivors, loads, plan, NodeCpu(), CpuDemand(), CpuSurge(), AllocatableCpu(), SteadyCpu(), SurgeCpu());
    ResourceAbsorbed(load, survivors, loads, plan, NodeMemory(), MemoryDemand(), MemorySurge(), AllocatableMemory(),
         SteadyMemory(), SurgeMemory());
  }

  lemma AbsorbsOne(v: Reservation, n: Observation, r: Reservation,
                   alloc: Reservation -> int, steady: Reservation -> int, surge: Reservation -> int)
    requires n.reserved == Some(r)
    ensures Absorbs(v, [n], alloc, steady, surge) <==> alloc(r) >= steady(r) + steady(v) + Max(surge(v), surge(r))
  {
    hide Sum, Greatest;
    SumSingle(n, ReservedBy(alloc));
    SumSingle(n, ReservedBy(steady));
    GreatestOfOne(n, r, surge, surge(v));
  }

  lemma GreatestOfOne(n: Observation, r: Reservation, f: Reservation -> int, least: int)
    requires n.reserved == Some(r)
    ensures Greatest([n], f, least) == Max(least, f(r))
  {
    assert [n][..0] == [];
  }

  lemma AbsorbsTwo(v: Reservation, n: Observation, m: Observation, r: Reservation,
                   alloc: Reservation -> int, steady: Reservation -> int, surge: Reservation -> int)
    requires n.reserved == Some(r) && m.reserved == Some(r)
    ensures Absorbs(v, [n, m], alloc, steady, surge) <==> alloc(r) + alloc(r) >= steady(r) + steady(r) + steady(v) + Max(surge(v), surge(r))
  {
    hide Sum, Greatest;
    assert [n, m] == [n] + [m];
    SumOneMore([n], m, ReservedBy(alloc));
    SumOneMore([n], m, ReservedBy(steady));
    SumSingle(n, ReservedBy(alloc));
    SumSingle(n, ReservedBy(steady));
    GreatestOfTwo(n, m, r, surge, surge(v));
  }

  lemma SumSingle<T>(x: T, f: T -> int)
    ensures Sum([x], f) == f(x)
  {
    assert [x][..0] == [];
  }

  lemma GreatestOfTwo(n: Observation, m: Observation, r: Reservation, f: Reservation -> int, least: int)
    requires n.reserved == Some(r) && m.reserved == Some(r)
    ensures Greatest([n, m], f, least) == Max(least, f(r))
  {
    assert [n, m][..1] == [n] && [n][..0] == [];
  }

  lemma SurvivorsAre(victim: Observation, pool: seq<Observation>)
    requires victim.reserved.Some? && AllReserved(Survivors(victim, pool))
    ensures SurvivorsCanAbsorb(victim, pool)
        <==> (&& Absorbs(victim.reserved.value, Survivors(victim, pool), AllocatableCpu(), SteadyCpu(), SurgeCpu())
              && Absorbs(victim.reserved.value, Survivors(victim, pool), AllocatableMemory(), SteadyMemory(), SurgeMemory()))
  {
    hide Keep, Absorbs;
  }

  /** With a single survivor the answer is exact: it is admission of the merged node. */
  lemma SingleSurvivorIsExact(victim: Observation, load: NodeLoad, pool: seq<Observation>, survivor: NodeLoad)
    requires victim.reserved == Some(ReservationOf(load)) && Reports(Survivors(victim, pool), [survivor])
    ensures SurvivorsCanAbsorb(victim, pool) <==> CheckCapacity(InputOf(survivor, survivor.demands + load.demands)).ok
  {
    hide Keep, Sum, Most, Absorbs, SurvivorsCanAbsorb, Survivors;
    var s := Survivors(victim, pool);
    assert s == [s[0]];
    var v, r := ReservationOf(load), ReservationOf(survivor);
    SurvivorsAre(victim, pool);
    AbsorbsOne(v, s[0], r, AllocatableCpu(), SteadyCpu(), SurgeCpu());
    AbsorbsOne(v, s[0], r, AllocatableMemory(), SteadyMemory(), SurgeMemory());
    SumAppend(survivor.demands, load.demands, CpuDemand());
    SumAppend(survivor.demands, load.demands, MemoryDemand());
    MostAppend(survivor.demands, load.demands, CpuSurge());
    MostAppend(survivor.demands, load.demands, MemorySurge());
  }

  /** A service of 1500 shares, and nodes of 1000. */
  function Large(): Demand { Demand("p", "s", 1500, 0, None, None) }

  function Empty(): NodeLoad { NodeLoad(1000, 1000, 0, 0, []) }

  lemma LargeReservation(load: NodeLoad)
    requires load.demands == [Large()]
    ensures var v := ReservationOf(load); v.steadyCpu == 1500 && v.steadyMemory == 0 && v.surgeCpu == 0 && v.surgeMemory == 0
  {
    assert [Large()][..0] == [];
  }

  lemma EmptyReservation()
    ensures ReservationOf(Empty()) == Reservation(0, 0, 0, 0, 1000, 1000)
  {
  }

  lemma TooLarge()
    ensures !CheckCapacity(InputOf(Empty(), [Large()])).ok
  {
    assert [Large()][..0] == [];
  }

  /** With two survivors an acceptance can be wrong: one large service fits their total but neither of them. */
  lemma AcceptanceCanBeWrong(victim: Observation, load: NodeLoad, pool: seq<Observation>, plan: seq<Placed>)
    requires load.demands == [Large()] && victim.reserved == Some(ReservationOf(load))
    requires Reports(Survivors(victim, pool), [Empty(), Empty()])
    ensures SurvivorsCanAbsorb(victim, pool) && !Feasible(load, [Empty(), Empty()], plan)
  {
    hide Keep, Sum, Most, Absorbs, SurvivorsCanAbsorb, Survivors, ReservationOf, CheckCapacity, Large, Empty;
    var s := Survivors(victim, pool);
    assert s == [s[0], s[1]];
    var v, r := ReservationOf(load), ReservationOf(Empty());
    SurvivorsAre(victim, pool);
    LargeReservation(load);
    EmptyReservation();
    AbsorbsTwo(v, s[0], s[1], r, AllocatableCpu(), SteadyCpu(), SurgeCpu());
    AbsorbsTwo(v, s[0], s[1], r, AllocatableMemory(), SteadyMemory(), SurgeMemory());
    if Unplace(plan) == load.demands && forall p :: p in plan ==> p.node < 2 {
      assert plan == [plan[0]] && plan[0].d == Large() && plan[0] in plan;
      CarriesItAll(plan, plan[0].node);
      TooLarge();
    }
  }

  lemma CarriesItAll(plan: seq<Placed>, k: nat)
    requires plan == [Placed(Large(), k)] && k < 2
    ensures Carried([Empty(), Empty()], plan, k) == [Large()] && [Empty(), Empty()][k] == Empty()
  {
    hide Keep;
    KeepAll(plan, At(k));
  }
}
