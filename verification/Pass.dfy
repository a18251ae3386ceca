/**
 A whole reconcile pass: inspect the node, plan, and apply the flat list of actions in
 order. One service is worked on at a time; removals of services no longer desired come
 last. Two passes in which every effect succeeds reach the desired state.
 */
module Pass {
  import opened Common
  import opened Text
  import opened Types
  import opened Lists
  import opened Containers
  import opened Host
  import opened Planner
  import opened RolloutShape
  import opened Agent
  import opened Apply
  import opened Inspect
  import opened Reconcile

  /** What inspection reports for a service when the pass begins. */
  function Have(begin: Host, c: ServiceConfig): Live { Lookup(GroupAll(begin.live), KeyOf(c)) }

  ghost predicate Waiting(c: ServiceConfig, begin: Host, live: Live) {
    Mine(live, KeyOf(c)) == Mine(begin.live, KeyOf(c))
  }

  /** Within the most containers the service may have during its own turn, at its configured size. */
  ghost predicate Working(c: ServiceConfig, begin: Host, live: Live) {
    && |Mine(live, KeyOf(c))| <= ShareTop(c, Have(begin, c))
    && (Sized(Mine(begin.live, KeyOf(c)), c) ==> Sized(Mine(live, KeyOf(c)), c))
  }

  ghost predicate Finished(c: ServiceConfig, begin: Host, aborted: bool, good: bool, live: Live) {
    Working(c, begin, live) && ShareLeft(c, Have(begin, c), live, aborted, good)
  }

  /** Every container of a service no longer desired was there when the pass began. */
  ghost predicate NothingUndesiredAdded(desired: seq<ServiceConfig>, begin: Host, live: Live) {
    forall r :: r in live && ReplicaKey(r) !in DesiredKeys(desired) ==> r in begin.live
  }

  /** The agent knew which shard was stored when the pass began, and none has been stored unknown to it since. */
  ghost predicate Sure(begin: Host, h: Host) { InStep(begin) && h.unsure == begin.unsure }

  /**
   Unless it is to shrink, a service has lost no container the edge could still route to;
   if it could be reached when the pass began, and serves with all its replicas should it be
   out of date, it can be reached now.
   */
  ghost predicate ServiceHeld(web: set<Route>, c: ServiceConfig, begin: Host, h: Host) {
    && (ShareCareful(web, c, Have(begin, c), begin) && KeyOf(c) in h.cut ==> KeyOf(c) in begin.cut)
    && (ShareServing(web, c, Have(begin, c), begin) && Routed(begin, web, KeyOf(c)) ==> Routed(h, web, KeyOf(c)))
  }

  /** Routing holds for every desired service, its turn come or not, as long as the agent knows what is stored. */
  ghost predicate RoutingHeld(desired: seq<ServiceConfig>, begin: Host, h: Host) {
    && Onward(WebRoutes(desired, begin.edge), begin, h) && begin.unsure <= h.unsure && begin.cut <= h.cut
    && (Sure(begin, h) ==>
         InStep(h) && forall j :: 0 <= j < |desired| ==> ServiceHeld(WebRoutes(desired, begin.edge), desired[j], begin, h))
  }

  /** The replicas the service is routed to have passed a gate exactly if those that matched when the pass began had. */
  ghost predicate ReplicasGated(c: ServiceConfig, begin: Host, h: Host) {
    GateNeeded(c) ==> (GatedNow(h, KeyOf(c)) <==> KeptGated(c, Have(begin, c), begin.passed))
  }

  /** The service was rolled out in its turn, and the rollout was not given up. */
  ghost predicate RolledOver(c: ServiceConfig, begin: Host, aborted: bool) {
    !aborted && LongLived(c) && Drifted(Have(begin, c), c) != []
  }

  /** So it is for every service rolled out before this turn. */
  ghost predicate GatesHeld(desired: seq<ServiceConfig>, begin: Host, turn: nat, aborts: set<nat>, h: Host) {
    forall j :: 0 <= j < |desired| && j < turn && RolledOver(desired[j], begin, j in aborts) ==> ReplicasGated(desired[j], begin, h)
  }

  /**
   A moment of the pass: services before `turn` are finished, the one at `turn` is being
   worked on, later ones are untouched, and no run was refused for its name. `aborts` and
   `smooth` are the turns that gave up a rollout and those in which every effect succeeded.
   */
  ghost predicate OnTurn(desired: seq<ServiceConfig>, begin: Host, turn: nat, aborts: set<nat>, smooth: set<nat>, h: Host) {
    && h.clashes == begin.clashes
    && (forall j :: 0 <= j < |desired| && j < turn ==> Finished(desired[j], begin, j in aborts, j in smooth, h.live))
    && (turn < |desired| ==> Working(desired[turn], begin, h.live))
    && (forall j :: turn < j < |desired| ==> Waiting(desired[j], begin, h.live))
    && NothingUndesiredAdded(desired, begin, h.live)
    && RoutingHeld(desired, begin, h) && GatesHeld(desired, begin, turn, aborts, h)
  }

  ghost predicate SomeTurn(desired: seq<ServiceConfig>, begin: Host, upto: nat, aborts: set<nat>, smooth: set<nat>, h: Host) {
    exists turn: nat :: turn <= upto && OnTurn(desired, begin, turn, aborts, smooth, h)
  }

  /** Between two turns: the next service and all undesired ones are untouched. */
  ghost predicate Between(desired: seq<ServiceConfig>, begin: Host, turn: nat, aborts: set<nat>, smooth: set<nat>, h: Host) {
    && OnTurn(desired, begin, turn, aborts, smooth, h)
    && (turn < |desired| ==> Waiting(desired[turn], begin, h.live))
    && (forall key :: key !in DesiredKeys(desired) ==> Mine(h.live, key) == Mine(begin.live, key))
  }

  // ---- locality: a turn leaves every other service alone ----

  lemma OthersSame(a: Live, b: Live, key: string)
    requires Others(a, key) == Others(b, key)
    ensures forall k :: k != key ==> Mine(a, k) == Mine(b, k)
  {
    hide Keep, ReplicaKey;
    forall k | k != key ensures Mine(a, k) == Mine(b, k) {
      MineOfOthers(a, key, k);
      MineOfOthers(b, key, k);
    }
  }

  lemma FinishedSame(c: ServiceConfig, begin: Host, aborted: bool, good: bool, a: Live, b: Live)
    requires Finished(c, begin, aborted, good, a) && Mine(a, KeyOf(c)) == Mine(b, KeyOf(c))
    ensures Finished(c, begin, aborted, good, b)
  {
    hide Keep, ServiceKey, NeedsReplace, ReplicaKey, ShareTop, Sized;
    forall r | r in b && ReplicaKey(r) == KeyOf(c) ensures r in a {
      assert r in Mine(b, KeyOf(c));
    }
  }

  lemma HasKey(desired: seq<ServiceConfig>, i: nat)
    requires i < |desired|
    ensures KeyOf(desired[i]) in DesiredKeys(desired)
  {
  }

  lemma BeginsBetween(desired: seq<ServiceConfig>, begin: Host)
    requires WellFormed(begin)
    ensures Between(desired, begin, 0, {}, {}, begin)
  {
    hide Keep, ServiceKey, KeyOf, ReplicaKey, WellFormed, Working, Finished, Routed, ShareServing, ShareCareful, ReplicasGated, RolledOver;
    if desired != [] { StillWorking(desired[0], begin, begin.live); }
  }

  lemma SawAll(c: ServiceConfig, h: Host)
    requires WellFormed(h)
    ensures Saw(c, Have(h, c), h)
  {
    hide WellFormed, Keep, GroupAll;
    GroupFacts(h.live);
  }

  lemma SawLater(c: ServiceConfig, begin: Host, h: Host)
    requires WellFormed(begin) && WellFormed(h) && Waiting(c, begin, h.live)
    ensures Saw(c, Have(begin, c), h)
  {
    hide WellFormed, Keep, GroupAll;
    SawAll(c, begin);
  }

  /** During service `i`'s turn. */
  lemma TurnStep(desired: seq<ServiceConfig>, begin: Host, i: nat, aborts: set<nat>, smooth: set<nat>, before: Host, h: Host)
    requires UniqueKeys(desired) && i < |desired| && Between(desired, begin, i, aborts, smooth, before) && WellFormed(before)
    requires Contained(ShareScope(WebRoutes(desired, begin.edge), desired[i], Have(begin, desired[i]), before), h)
    ensures OnTurn(desired, begin, i, aborts, smooth, h)
    ensures forall k :: k != KeyOf(desired[i]) ==> Mine(h.live, k) == Mine(before.live, k)
  {
    hide Keep, ServiceKey, KeyOf, NeedsReplace, ReplicaKey, ShareTop, Sized, ShareLeft, Have, Finished, RoutesKept, RoutingHeld,
         ShareCareful, ShareServing, GatesHeld, WellFormed;
    TurnRouting(desired, begin, i, before, h);
    OthersSame(h.live, before.live, KeyOf(desired[i]));
    ScopeOnward(ShareScope(WebRoutes(desired, begin.edge), desired[i], Have(begin, desired[i]), before), h);
    GatesStay(desired, begin, i, i, aborts, before, h);
    forall j | 0 <= j < i ensures Finished(desired[j], begin, j in aborts, j in smooth, h.live) {
      FinishedSame(desired[j], begin, j in aborts, j in smooth, before.live, h.live);
    }
    HasKey(desired, i);
    forall r | r in h.live && ReplicaKey(r) !in DesiredKeys(desired) ensures r in begin.live {
      assert r in Mine(h.live, ReplicaKey(r));
      assert r in Mine(before.live, ReplicaKey(r));
    }
  }

  /** What a rollout may promise depends on the world only through what the agent knows to be stored. */
  lemma FlagsCarry(web: set<Route>, c: ServiceConfig, have: Live, begin: Host, h: Host)
    requires InStep(h)
    ensures ShareCareful(web, c, have, begin) ==> ShareCareful(web, c, have, h)
    ensures ShareServing(web, c, have, begin) ==> ShareServing(web, c, have, h)
  {
    hide Drifted, RouteOf, InStep, KeyOf;
  }

  lemma TurnRouting(desired: seq<ServiceConfig>, begin: Host, i: nat, before: Host, h: Host)
    requires UniqueKeys(desired) && i < |desired| && RoutingHeld(desired, begin, before)
    requires Contained(ShareScope(WebRoutes(desired, begin.edge), desired[i], Have(begin, desired[i]), before), h)
    ensures RoutingHeld(desired, begin, h)
  {
    hide Keep, ServiceKey, KeyOf, Have, InStep, ShareCareful, ShareServing, ShareTop, Routed, WebRoutes;
    var web := WebRoutes(desired, begin.edge);
    if Sure(begin, h) {
      FlagsCarry(web, desired[i], Have(begin, desired[i]), begin, before);
      forall j | 0 <= j < |desired| ensures ServiceHeld(web, desired[j], begin, h) {
        assert ServiceHeld(web, desired[j], begin, before);
        assert j != i ==> KeyOf(desired[j]) != KeyOf(desired[i]);
      }
    }
  }

  /** A service no longer desired may be cut off; the others hold. */
  lemma RemovalRouting(desired: seq<ServiceConfig>, begin: Host, before: Host, s: Scope, h: Host)
    requires RoutingHeld(desired, begin, before) && s.begin == before && s.web == WebRoutes(desired, begin.edge)
    requires s.key !in DesiredKeys(desired) && Contained(s, h)
    ensures RoutingHeld(desired, begin, h)
  {
    hide Keep, ServiceKey, KeyOf, Have, InStep, ShareCareful, ShareServing, ShareTop, Routed, WebRoutes, DesiredKeys;
    var web := WebRoutes(desired, begin.edge);
    if Sure(begin, h) {
      forall j | 0 <= j < |desired| ensures ServiceHeld(web, desired[j], begin, h) {
        assert ServiceHeld(web, desired[j], begin, before);
        HasKey(desired, j);
      }
    }
  }

  lemma ScopeOnward(s: Scope, h: Host)
    requires Contained(s, h)
    ensures Onward(s.web, s.begin, h)
  {
    hide Keep, Onward;
  }

  /** Other services' turns neither change a service's replicas nor open gates for them. */
  lemma GatedSame(a: Host, h: Host, web: set<Route>, key: string)
    requires WellFormed(a) && Onward(web, a, h) && Mine(h.live, key) == Mine(a.live, key)
    ensures GatedNow(h, key) <==> GatedNow(a, key)
  {
    hide Keep, ReplicaKey, DistinctIds, DistinctNames;
    assert forall r :: r in h.live && ReplicaKey(r) == key <==> r in Mine(h.live, key);
    assert forall r :: r in a.live && ReplicaKey(r) == key <==> r in Mine(a.live, key);
  }

  lemma GatesStay(desired: seq<ServiceConfig>, begin: Host, turn: nat, i: nat, aborts: set<nat>, a: Host, h: Host)
    requires UniqueKeys(desired) && GatesHeld(desired, begin, turn, aborts, a) && WellFormed(a) && turn <= i
    requires exists web :: Onward(web, a, h)
    requires forall k :: k in DesiredKeys(desired) && (i < |desired| ==> k != KeyOf(desired[i])) ==> Mine(h.live, k) == Mine(a.live, k)
    ensures GatesHeld(desired, begin, turn, aborts, h)
  {
    hide Keep, KeyOf, WellFormed, Onward, Have, GatedNow, KeptGated, RolledOver, DesiredKeys;
    var web :| Onward(web, a, h);
    forall j | 0 <= j < |desired| && j < turn && RolledOver(desired[j], begin, j in aborts) ensures ReplicasGated(desired[j], begin, h) {
      assert ReplicasGated(desired[j], begin, a);
      HasKey(desired, j);
      GatedSame(a, h, web, KeyOf(desired[j]));
    }
  }

  /** What matched when the pass began and was gated when the turn began was gated when the pass began. */
  lemma KeptSame(c: ServiceConfig, begin: Host, before: Host, web: set<Route>)
    requires WellFormed(begin) && Onward(web, begin, before)
    ensures KeptGated(c, Have(begin, c), before.passed) <==> KeptGated(c, Have(begin, c), begin.passed)
  {
    hide Keep, ReplicaKey, DistinctIds, DistinctNames, GroupAll, NeedsReplace;
    SawAll(c, begin);
    HaveFacts(c, Have(begin, c), begin);
  }

  lemma TurnGated(c: ServiceConfig, begin: Host, before: Host, h: Host, web: set<Route>, aborted: bool)
    requires WellFormed(begin) && Onward(web, begin, before)
    requires ShareGated(web, c, Have(begin, c), before, h, aborted)
    ensures RolledOver(c, begin, aborted) ==> ReplicasGated(c, begin, h)
  {
    hide Keep, KeyOf, Onward, WellFormed, Have, GatedNow, KeptGated, LinesGated, Drifted, RouteOf;
    KeptSame(c, begin, before, web);
  }

  /** What is noted about this turn and later ones does not matter to an earlier moment. */
  lemma MoreTurns(desired: seq<ServiceConfig>, begin: Host, turn: nat, aborts: set<nat>, smooth: set<nat>,
                  aborts': set<nat>, smooth': set<nat>, h: Host)
    requires OnTurn(desired, begin, turn, aborts, smooth, h)
    requires forall j: nat :: j < turn ==> (j in aborts <==> j in aborts') && (j in smooth <==> j in smooth')
    ensures OnTurn(desired, begin, turn, aborts', smooth', h)
  {
    hide Working, Finished, Waiting, NothingUndesiredAdded, RoutingHeld, ReplicasGated, RolledOver;
  }

  lemma MoreTurnsSome(desired: seq<ServiceConfig>, begin: Host, upto: nat, aborts: set<nat>, smooth: set<nat>,
                      aborts': set<nat>, smooth': set<nat>, h: Host)
    requires SomeTurn(desired, begin, upto, aborts, smooth, h)
    requires forall j: nat :: j < upto ==> (j in aborts <==> j in aborts') && (j in smooth <==> j in smooth')
    ensures SomeTurn(desired, begin, upto, aborts', smooth', h)
  {
    hide OnTurn;
    var turn: nat :| turn <= upto && OnTurn(desired, begin, turn, aborts, smooth, h);
    MoreTurns(desired, begin, turn, aborts, smooth, aborts', smooth', h);
  }

  lemma LaterSome(desired: seq<ServiceConfig>, begin: Host, upto: nat, aborts: set<nat>, smooth: set<nat>, h: Host)
    requires SomeTurn(desired, begin, upto, aborts, smooth, h)
    ensures SomeTurn(desired, begin, upto + 1, aborts, smooth, h)
  {
    hide OnTurn;
  }

  lemma IsSome(desired: seq<ServiceConfig>, begin: Host, turn: nat, aborts: set<nat>, smooth: set<nat>, h: Host)
    requires OnTurn(desired, begin, turn, aborts, smooth, h)
    ensures SomeTurn(desired, begin, turn, aborts, smooth, h)
  {
    hide OnTurn;
  }

  /** The end of service `i`'s turn. */
  lemma TurnDone(desired: seq<ServiceConfig>, begin: Host, i: nat, aborts: set<nat>, smooth: set<nat>, before: Host, h: Host)
    requires UniqueKeys(desired) && i < |desired| && WellFormed(begin)
    requires Between(desired, begin, i, aborts - {i}, smooth - {i}, before) && WellFormed(before)
    requires ShareGated(WebRoutes(desired, begin.edge), desired[i], Have(begin, desired[i]), before, h, i in aborts)
    requires Contained(ShareScope(WebRoutes(desired, begin.edge), desired[i], Have(begin, desired[i]), before), h)
    requires ShareLeft(desired[i], Have(begin, desired[i]), h.live, i in aborts, i in smooth)
    ensures Between(desired, begin, i + 1, aborts, smooth, h)
  {
    hide Keep, ServiceKey, KeyOf, NeedsReplace, ReplicaKey, ShareTop, Sized, ShareLeft, Have, WellFormed, Contained, RoutingHeld,
         ShareGated, ReplicasGated, RolledOver;
    TurnStep(desired, begin, i, aborts - {i}, smooth - {i}, before, h);
    HeldOnward(desired, begin, before);
    TurnGated(desired[i], begin, before, h, WebRoutes(desired, begin.edge), i in aborts);
    HasKey(desired, i);
    forall j | 0 <= j < |desired| && j < i + 1 ensures Finished(desired[j], begin, j in aborts, j in smooth, h.live) {
      assert j != i ==> (j in aborts <==> j in aborts - {i}) && (j in smooth <==> j in smooth - {i});
    }
    if i + 1 < |desired| {
      StillWorking(desired[i + 1], begin, h.live);
    }
  }

  lemma HeldOnward(desired: seq<ServiceConfig>, begin: Host, h: Host)
    requires RoutingHeld(desired, begin, h)
    ensures Onward(WebRoutes(desired, begin.edge), begin, h)
  {
    hide Onward, ServiceHeld;
  }

  lemma StillWorking(c: ServiceConfig, begin: Host, live: Live)
    requires WellFormed(begin) && Waiting(c, begin, live)
    ensures Working(c, begin, live)
  {
    hide Keep, ServiceKey, KeyOf, NeedsReplace, ReplicaKey, ShareTop, Sized, WellFormed;
    SawAll(c, begin);
    HaveFacts(c, Have(begin, c), begin);
    ShareTopFacts(c, Have(begin, c));
  }

  // ---- removals ----

  /** The undesired services listed before `i` are gone, the others as they were. */
  ghost predicate RemovedBefore(actual: seq<Group>, keys: set<string>, i: nat, begin: Host, live: Live) {
    && (forall j :: 0 <= j < |actual| && j < i && actual[j].key !in keys ==> Mine(live, actual[j].key) == [])
    && (forall j :: i <= j < |actual| && actual[j].key !in keys ==> Mine(live, actual[j].key) == Mine(begin.live, actual[j].key))
  }

  lemma RemovalNext(actual: seq<Group>, keys: set<string>, i: nat, begin: Host, before: Live, live: Live)
    requires RemovedBefore(actual, keys, i, begin, before) && i < |actual| && KeyOrdered(actual)
    requires actual[i].key in keys ==> live == before
    requires actual[i].key !in keys ==> Mine(live, actual[i].key) == [] && Others(live, actual[i].key) == Others(before, actual[i].key)
    ensures RemovedBefore(actual, keys, i + 1, begin, live)
  {
    hide Keep, ReplicaKey, StringLess;
    if actual[i].key !in keys {
      OthersSame(live, before, actual[i].key);
      StringLessIrreflexive(actual[i].key);
    }
  }

  lemma AllRemoved(actual: seq<Group>, desired: seq<ServiceConfig>, begin: Host, live: Live)
    requires actual == GroupAll(begin.live) && RemovedBefore(actual, DesiredKeys(desired), |actual|, begin, live)
    requires NothingUndesiredAdded(desired, begin, live)
    ensures forall r :: r in live ==> ReplicaKey(r) in DesiredKeys(desired)
  {
    hide Keep, ReplicaKey, GroupAll, DesiredKeys;
    GroupFacts(begin.live);
    forall r | r in live ensures ReplicaKey(r) in DesiredKeys(desired) {
      var key := ReplicaKey(r);
      MemberMine(live, r);
      MemberMine(begin.live, r);
      Rearranged(Lookup(actual, key), Mine(begin.live, key));
      Listed(actual, key);
    }
  }

  lemma MemberMine(live: Live, r: ManagedReplica)
    ensures r in live ==> Mine(live, ReplicaKey(r)) != []
  {
    hide ReplicaKey;
    assert r in live ==> r in Mine(live, ReplicaKey(r));
  }

  lemma {:induction false} Listed(actual: seq<Group>, key: string)
    ensures Lookup(actual, key) != [] ==> exists j :: 0 <= j < |actual| && actual[j].key == key
    decreases |actual|
  {
    if actual != [] && actual[0].key != key && Lookup(actual, key) != [] {
      Listed(actual[1..], key);
      var j :| 0 <= j < |actual[1..]| && actual[1..][j].key == key;
      assert actual[j + 1].key == key;
    }
  }

  lemma GroupOwns(h: Host, key: string, replicas: Live)
    requires WellFormed(h) && multiset(replicas) == multiset(Mine(h.live, key))
    ensures OwnIds(h.live, replicas, key) && Covers(h.live, replicas, key)
  {
    hide Keep, ReplicaKey;
    Rearranged(replicas, Mine(h.live, key));
    forall r | r in h.live && r.id in Ids(replicas) ensures ReplicaKey(r) == key {
      var q :| q in replicas && IdOf(q) == r.id;
      DistinctInjective(h.live, IdOf, r, q);
    }
    forall r | r in h.live && ReplicaKey(r) == key ensures IdOf(r) in Ids(replicas) {
      assert r in replicas;
    }
  }

  /** Removing an undesired service keeps every promise made about the desired ones. */
  lemma RemovalOnTurn(desired: seq<ServiceConfig>, begin: Host, aborts: set<nat>, smooth: set<nat>, before: Host,
            s: Scope, h: Host)
    requires UniqueKeys(desired) && WellFormed(before)
    requires OnTurn(desired, begin, |desired|, aborts, smooth, before) && s.key !in DesiredKeys(desired)
    requires s.begin == before && s.web == WebRoutes(desired, begin.edge) && Contained(s, h) && Fewer(h.live, before.live)
    ensures OnTurn(desired, begin, |desired|, aborts, smooth, h)
  {
    hide Keep, ServiceKey, KeyOf, NeedsReplace, ReplicaKey, Finished, RoutingHeld, RoutesKept, WebRoutes, GatesHeld, WellFormed;
    OthersSame(h.live, before.live, s.key);
    ScopeOnward(s, h);
    GatesStay(desired, begin, |desired|, |desired|, aborts, before, h);
    RemovalRouting(desired, begin, before, s, h);
    forall j | 0 <= j < |desired| ensures Finished(desired[j], begin, j in aborts, j in smooth, h.live) {
      HasKey(desired, j);
      FinishedSame(desired[j], begin, j in aborts, j in smooth, before.live, h.live);
    }
  }

  // ---- the pass ----

  lemma ServicesNext(desired: seq<ServiceConfig>, i: nat, actual: seq<Group>, ctx: Option<CronPlanContext>)
    requires i < |desired|
    ensures PlanServices(desired[..i + 1], actual, ctx)
         == PlanServices(desired[..i], actual, ctx) + PlanService(desired[i], Lookup(actual, KeyOf(desired[i])), ctx)
  {
    hide PlanService;
    assert desired[..i + 1][..i] == desired[..i];
  }

  lemma {:induction false} ServicesPrefix(desired: seq<ServiceConfig>, i: nat, actual: seq<Group>, ctx: Option<CronPlanContext>)
    requires i <= |desired|
    ensures PlanServices(desired[..i], actual, ctx) <= PlanServices(desired, actual, ctx)
    decreases |desired| - i
  {
    hide PlanServices, PlanService;
    if i == |desired| {
      assert desired[..i] == desired;
    } else {
      ServicesNext(desired, i, actual, ctx);
      ServicesPrefix(desired, i + 1, actual, ctx);
    }
  }

  /** Where a service's share lies in the flat list. */
  lemma ShareAt(desired: seq<ServiceConfig>, i: nat, actual: seq<Group>, ctx: Option<CronPlanContext>, actions: seq<Action>)
    requires i < |desired| && PlanServices(desired, actual, ctx) <= actions
    ensures var at, share := |PlanServices(desired[..i], actual, ctx)|, PlanService(desired[i], Lookup(actual, KeyOf(desired[i])), ctx);
            && at + |share| <= |actions| && actions[at..at + |share|] == share
            && at + |share| == |PlanServices(desired[..i + 1], actual, ctx)|
  {
    hide PlanServices, PlanService;
    ServicesNext(desired, i, actual, ctx);
    ServicesPrefix(desired, i + 1, actual, ctx);
  }

  /** The turns, by the effect numbers at which they begin, in which every effect succeeded. */
  ghost function SmoothTurns(env: Env, desired: seq<ServiceConfig>, marks: seq<nat>): set<nat> {
    set j: nat | j < |marks| && SmoothTurn(env, desired, marks, j)
  }

  ghost predicate SmoothTurn(env: Env, desired: seq<ServiceConfig>, marks: seq<nat>, j: nat) {
    j + 1 < |marks| && j < |desired| && Smooth(env, desired[j].healthCheck, marks[j], marks[j + 1])
  }

  /** Every effect of the pass succeeds, and every health gate of the desired services opens. */
  ghost predicate Untroubled(env: Env, desired: seq<ServiceConfig>, a: nat, b: nat) {
    forall i :: 0 <= i < |desired| ==> Smooth(env, desired[i].healthCheck, a, b)
  }

  /** `marks[j]` is the number of the first effect of turn `j`; the last mark ends the last turn. */
  ghost predicate Marked(marks: seq<nat>, turns: nat, from: nat, to: nat) {
    && |marks| == turns + 1 && marks[0] == from && marks[turns] <= to
    && forall j :: 0 <= j < turns ==> marks[j] <= marks[j + 1]
  }

  lemma NextMark(env: Env, desired: seq<ServiceConfig>, marks: seq<nat>, turns: nat, from: nat, middle: nat, to: nat)
    requires turns < |desired|
    requires Marked(marks, turns, from, middle) && marks[turns] == middle <= to
    ensures Marked(marks + [to], turns + 1, from, to)
    ensures SmoothTurns(env, desired, marks + [to])
         == SmoothTurns(env, desired, marks) + if Smooth(env, desired[turns].healthCheck, middle, to) then {turns} else {}
    ensures turns !in SmoothTurns(env, desired, marks)
  {
    hide Smooth;
  }

  lemma FirstMark(env: Env, desired: seq<ServiceConfig>, from: nat)
    ensures Marked([from], 0, from, from) && SmoothTurns(env, desired, [from]) == {}
  {
  }

  /** Apply the shares of the desired services, in order. */
  method ApplyServices(agent: AppAgent, actions: seq<Action>, actual: seq<Group>, ctx: Option<CronPlanContext>)
    returns (ghost aborts: set<nat>, ghost marks: seq<nat>)
    requires agent.Valid() && UniqueKeys(agent.desired) && WellNamed(agent.desired)
    requires actual == GroupAll(agent.host.live) && PlanServices(agent.desired, actual, ctx) <= actions
    modifies agent`host, agent`step, agent`history, agent`effects, agent`ports, agent`fires, agent`errors
    ensures agent.Valid() && old(agent.history) <= agent.history && old(agent.errors) <= agent.errors
    ensures Marked(marks, |agent.desired|, old(agent.step), agent.step)
    ensures Between(agent.desired, old(agent.host), |agent.desired|, aborts, SmoothTurns(agent.env, agent.desired, marks), agent.host)
    ensures forall i :: i in aborts ==> i < |agent.desired| && KeyOf(agent.desired[i]) in agent.errors
    ensures forall k :: |old(agent.history)| <= k < |agent.history| ==>
              SomeTurn(agent.desired, old(agent.host), |agent.desired|, aborts, SmoothTurns(agent.env, agent.desired, marks), agent.history[k])
  {
    hide *;
    var desired := agent.desired;
    ghost var begin, env := agent.host, agent.env;
    agent.ValidHost();
    BeginsBetween(desired, begin);
    aborts, marks := {}, [agent.step];
    FirstMark(env, desired, agent.step);
    var at := 0;
    NoServices(actual, ctx);
    assert desired[..0] == [];
    for i := 0 to |desired|
      invariant agent.Valid() && old(agent.history) <= agent.history && WellFormed(begin) && old(agent.errors) <= agent.errors
      invariant |marks| == i + 1 && Marked(marks, i, old(agent.step), agent.step) && marks[i] == agent.step
      invariant Between(desired, begin, i, aborts, SmoothTurns(env, desired, marks), agent.host)
      invariant forall j :: j in aborts ==> j < i && KeyOf(desired[j]) in agent.errors
      invariant at == |PlanServices(desired[..i], actual, ctx)|
      invariant forall k :: |old(agent.history)| <= k < |agent.history| ==>
                  SomeTurn(desired, begin, i, aborts, SmoothTurns(env, desired, marks), agent.history[k])
    {
      var c := desired[i];
      var have := Lookup(actual, KeyOf(c));
      var share := PlanService(c, have, ctx);
      ShareAt(desired, i, actual, ctx, actions);
      NamedAt(desired, i);
      HaveIs(c, begin);
      ghost var smooth := SmoothTurns(env, desired, marks);
      BetweenWaits(desired, begin, i, aborts, smooth, agent.host);
      agent.ValidHost();
      SawLater(c, begin, agent.host);
      ghost var before, earlier, from := agent.host, agent.history, agent.step;
      ghost var aborted := ApplyShare(agent, actions[at..at + |share|], c, have, ctx);
      NextMark(env, desired, marks, i, old(agent.step), from, agent.step);
      ghost var aborts', marks' := if aborted then aborts + {i} else aborts, marks + [agent.step];
      ghost var smooth' := SmoothTurns(env, desired, marks');
      assert forall j: nat :: j < i ==> (j in aborts <==> j in aborts') && (j in smooth <==> j in smooth');
      forall k | |old(agent.history)| <= k < |agent.history| ensures SomeTurn(desired, begin, i + 1, aborts', smooth', agent.history[k]) {
        if k < |earlier| {
          assert agent.history[k] == earlier[k];
        } else {
          TurnStep(desired, begin, i, aborts, smooth, before, agent.history[k]);
          IsSome(desired, begin, i, aborts, smooth, agent.history[k]);
        }
        MoreTurnsSome(desired, begin, i, aborts, smooth, aborts', smooth', agent.history[k]);
        LaterSome(desired, begin, i, aborts', smooth', agent.history[k]);
      }
      assert aborts' - {i} == aborts && (i in aborts' <==> aborted);
      assert smooth' - {i} == smooth && (i in smooth' <==> Smooth(env, desired[i].healthCheck, from, agent.step));
      TurnDone(desired, begin, i, aborts', smooth', before, agent.host);
      aborts, marks := aborts', marks';
      at := at + |share|;
    }
  }

  lemma NoServices(actual: seq<Group>, ctx: Option<CronPlanContext>)
    ensures PlanServices([], actual, ctx) == []
  {
  }

  lemma NamedAt(desired: seq<ServiceConfig>, i: nat)
    requires WellNamed(desired) && i < |desired|
    ensures IsNamePart(desired[i].project) && IsNamePart(desired[i].service)
  {
  }

  lemma HaveIs(c: ServiceConfig, begin: Host)
    ensures Have(begin, c) == Lookup(GroupAll(begin.live), KeyOf(c))
  {
  }

  lemma BetweenWaits(desired: seq<ServiceConfig>, begin: Host, i: nat, aborts: set<nat>, smooth: set<nat>, h: Host)
    requires Between(desired, begin, i, aborts, smooth, h)
    ensures i < |desired| ==> Waiting(desired[i], begin, h.live)
    ensures OnTurn(desired, begin, i, aborts, smooth, h) && NothingUndesiredAdded(desired, begin, h.live)
    ensures forall key :: key !in DesiredKeys(desired) ==> Mine(h.live, key) == Mine(begin.live, key)
  {
    hide Working, Waiting, Finished, Keep, RoutingHeld, GatesHeld;
  }

  lemma RemovalsNext(actual: seq<Group>, i: nat, keys: set<string>)
    requires i < |actual|
    ensures PlanRemovals(actual[..i + 1], keys)
         == PlanRemovals(actual[..i], keys) + (if actual[i].key !in keys then [Remove(actual[i].key, actual[i].replicas)] else [])
  {
    assert actual[..i + 1][..i] == actual[..i];
  }

  lemma {:induction false} RemovalsPrefix(actual: seq<Group>, i: nat, keys: set<string>)
    requires i <= |actual|
    ensures PlanRemovals(actual[..i], keys) <= PlanRemovals(actual, keys)
    decreases |actual| - i
  {
    hide PlanRemovals;
    if i == |actual| {
      assert actual[..i] == actual;
    } else {
      RemovalsNext(actual, i, keys);
      RemovalsPrefix(actual, i + 1, keys);
    }
  }

  lemma RemovalAt(actual: seq<Group>, i: nat, keys: set<string>)
    requires i < |actual| && actual[i].key !in keys
    ensures var at := |PlanRemovals(actual[..i], keys)|;
            && at < |PlanRemovals(actual, keys)| && PlanRemovals(actual, keys)[at] == Remove(actual[i].key, actual[i].replicas)
            && at + 1 == |PlanRemovals(actual[..i + 1], keys)|
  {
    hide PlanRemovals;
    RemovalsNext(actual, i, keys);
    RemovalsPrefix(actual, i + 1, keys);
  }

  lemma RemovalSkipped(actual: seq<Group>, i: nat, keys: set<string>)
    requires i < |actual| && actual[i].key in keys
    ensures PlanRemovals(actual[..i + 1], keys) == PlanRemovals(actual[..i], keys)
  {
    RemovalsNext(actual, i, keys);
  }

  /** The next group to remove is as inspection found it. */
  lemma RemovalReady(actual: seq<Group>, keys: set<string>, i: nat, begin: Host, h: Host)
    requires actual == GroupAll(begin.live) && WellFormed(begin) && WellFormed(h)
    requires i < |actual| && actual[i].key !in keys && RemovedBefore(actual, keys, i, begin, h.live)
    ensures OwnIds(h.live, actual[i].replicas, actual[i].key) && Covers(h.live, actual[i].replicas, actual[i].key)
  {
    hide Keep, ReplicaKey, GroupAll, WellFormed, OwnIds, Covers;
    GroupFacts(begin.live);
    KeyFound(actual, i);
    assert multiset(Lookup(actual, actual[i].key)) == multiset(Mine(begin.live, actual[i].key));
    GroupOwns(h, actual[i].key, actual[i].replicas);
  }

  lemma RemovalsBegin(actual: seq<Group>, desired: seq<ServiceConfig>, begin: Host, h: Host)
    requires forall key :: key !in DesiredKeys(desired) ==> Mine(h.live, key) == Mine(begin.live, key)
    ensures RemovedBefore(actual, DesiredKeys(desired), 0, begin, h.live)
  {
    hide Keep, ReplicaKey;
  }

  /** Remove the services no longer desired. */
  method ApplyRemovals(agent: AppAgent, removals: seq<Action>, actual: seq<Group>, keys: set<string>, ghost begin: Host,
                       ghost aborts: set<nat>, ghost smooth: set<nat>)
    requires agent.Valid() && keys == DesiredKeys(agent.desired) && removals == PlanRemovals(actual, keys) && UniqueKeys(agent.desired)
    requires actual == GroupAll(begin.live) && WellFormed(begin) && begin.edge == agent.edge
    requires Between(agent.desired, begin, |agent.desired|, aborts, smooth, agent.host)
    modifies agent`host, agent`step, agent`history, agent`effects
    ensures agent.step >= old(agent.step)
    ensures agent.Valid() && old(agent.history) <= agent.history
    ensures OnTurn(agent.desired, begin, |agent.desired|, aborts, smooth, agent.host)
    ensures forall r :: r in agent.host.live ==> ReplicaKey(r) in DesiredKeys(agent.desired)
    ensures forall k :: |old(agent.history)| <= k < |agent.history| ==>
              SomeTurn(agent.desired, begin, |agent.desired|, aborts, smooth, agent.history[k])
  {
    hide *;
    var desired := agent.desired;
    BetweenWaits(desired, begin, |desired|, aborts, smooth, agent.host);
    RemovalsBegin(actual, desired, begin, agent.host);
    GroupFacts(begin.live);
    var at := 0;
    NoRemovals(keys);
    assert actual[..0] == [];
    for i := 0 to |actual|
      invariant agent.Valid() && old(agent.history) <= agent.history && agent.step >= old(agent.step)
      invariant OnTurn(desired, begin, |desired|, aborts, smooth, agent.host)
      invariant RemovedBefore(actual, keys, i, begin, agent.host.live)
      invariant at == |PlanRemovals(actual[..i], keys)|
      invariant forall k :: |old(agent.history)| <= k < |agent.history| ==>
                  SomeTurn(desired, begin, |desired|, aborts, smooth, agent.history[k])
    {
      ghost var before, earlier := agent.host, agent.history;
      if actual[i].key !in keys {
        RemovalAt(actual, i, keys);
        agent.ValidHost();
        RemovalReady(actual, keys, i, begin, agent.host);
        ApplyRemoval(agent, removals[at], actual[i].key, actual[i].replicas, desired, begin, aborts, smooth);
        at := at + 1;
      } else {
        RemovalSkipped(actual, i, keys);
      }
      RemovalNext(actual, keys, i, begin, before.live, agent.host.live);
      forall k | |old(agent.history)| <= k < |agent.history| ensures SomeTurn(desired, begin, |desired|, aborts, smooth, agent.history[k]) {
        if k < |earlier| { assert agent.history[k] == earlier[k]; }
      }
    }
    NoneAdded(desired, begin, aborts, smooth, agent.host);
    AllRemoved(actual, desired, begin, agent.host.live);
  }

  lemma NoRemovals(keys: set<string>)
    ensures PlanRemovals([], keys) == []
  {
  }

  lemma NoneAdded(desired: seq<ServiceConfig>, begin: Host, aborts: set<nat>, smooth: set<nat>, h: Host)
    requires OnTurn(desired, begin, |desired|, aborts, smooth, h)
    ensures NothingUndesiredAdded(desired, begin, h.live)
  {
    hide Finished, Working, Waiting, RoutingHeld, GatesHeld;
  }

  method ApplyRemoval(agent: AppAgent, a: Action, key: string, replicas: Live, ghost desired: seq<ServiceConfig>,
                      ghost begin: Host, ghost aborts: set<nat>, ghost smooth: set<nat>)
    requires agent.Valid() && a == Remove(key, replicas) && key !in DesiredKeys(desired) && UniqueKeys(desired)
    requires OwnIds(agent.host.live, replicas, key) && Covers(agent.host.live, replicas, key)
    requires OnTurn(desired, begin, |desired|, aborts, smooth, agent.host)
    modifies agent`host, agent`step, agent`history, agent`effects
    ensures agent.step >= old(agent.step)
    ensures agent.Valid() && old(agent.history) <= agent.history
    ensures OnTurn(desired, begin, |desired|, aborts, smooth, agent.host)
    ensures Mine(agent.host.live, key) == [] && Others(agent.host.live, key) == Others(old(agent.host).live, key)
    ensures forall k :: |old(agent.history)| <= k < |agent.history| ==> SomeTurn(desired, begin, |desired|, aborts, smooth, agent.history[k])
  {
    hide *;
    ghost var before := agent.host;
    ghost var s := Scope(WebRoutes(desired, begin.edge), false, false, key, before, None, |Mine(before.live, key)|);
    agent.ValidHost();
    ContainedAlive(s, before);
    RemoveEach(agent, replicas, s);
    Cleared(before.live, replicas, key);
    ContainedOthers(s, agent.host);
    WithoutIsFewer(before.live, Ids(replicas));
    forall k | |old(agent.history)| <= k < |agent.history| ensures SomeTurn(desired, begin, |desired|, aborts, smooth, agent.history[k]) {
      RemovalOnTurn(desired, begin, aborts, smooth, before, s, agent.history[k]);
      IsSome(desired, begin, |desired|, aborts, smooth, agent.history[k]);
    }
    RemovalOnTurn(desired, begin, aborts, smooth, before, s, agent.host);
  }

  lemma ContainedOthers(s: Scope, h: Host)
    requires Contained(s, h)
    ensures Others(h.live, s.key) == Others(s.begin.live, s.key)
  {
    hide Keep, RoutesKept;
  }

  /** A long-lived service with a rollout allowance, as the configuration schema demands. */
  predicate Manageable(c: ServiceConfig) { LongLived(c) && c.rollout.maxSurge >= 1 && c.replicas >= 0 }

  ghost predicate LongLivedOnly(desired: seq<ServiceConfig>) {
    forall i :: 0 <= i < |desired| ==> Manageable(desired[i])
  }

  /** What is wanted is exactly what runs. */
  ghost predicate Converged(desired: seq<ServiceConfig>, live: Live) {
    && (forall r :: r in live ==> ReplicaKey(r) in DesiredKeys(desired))
    && (forall i :: 0 <= i < |desired| ==> ServiceConverged(desired[i], Mine(live, KeyOf(desired[i]))))
  }

  /** The pass brought this service up to date, and to convergence if nothing was out of date before. */
  ghost predicate Settled(c: ServiceConfig, before: Live, live: Live) {
    NoDrift(live, c) && (NoDrift(before, c) ==> ServiceConverged(c, Mine(live, KeyOf(c))))
  }

  lemma TurnSettled(desired: seq<ServiceConfig>, begin: Host, aborts: set<nat>, smooth: set<nat>, h: Host, i: nat)
    requires WellFormed(begin) && OnTurn(desired, begin, |desired|, aborts, smooth, h) && i < |desired|
    requires Manageable(desired[i]) && i in smooth
    ensures i !in aborts && Settled(desired[i], begin.live, h.live)
  {
    hide Keep, ServiceKey, KeyOf, ReplicaKey, NeedsReplace, GroupAll, WellFormed, ShareTop, Working, NoDrift,
         ServiceConverged, LongLived, RoutingHeld, GatesHeld;
    var c := desired[i];
    assert Finished(c, begin, i in aborts, true, h.live);
    if NoDrift(begin.live, c) { NothingDrifted(c, begin); }
  }

  lemma NothingDrifted(c: ServiceConfig, begin: Host)
    requires WellFormed(begin) && NoDrift(begin.live, c)
    ensures Drifted(Have(begin, c), c) == []
  {
    hide ServiceKey, ReplicaKey, NeedsReplace, GroupAll, WellFormed, Have, Keep;
    SawAll(c, begin);
    HaveFacts(c, Have(begin, c), begin);
    KeepsNothing(Have(begin, c), DriftsFrom(c));
  }

  lemma AllSmooth(env: Env, desired: seq<ServiceConfig>, marks: seq<nat>, from: nat, to: nat, j: nat)
    requires Marked(marks, |desired|, from, to) && Untroubled(env, desired, from, to) && j < |desired|
    ensures j in SmoothTurns(env, desired, marks)
  {
    hide Smooth;
    MarkBetween(marks, |desired|, from, to, j);
    MarkBetween(marks, |desired|, from, to, j + 1);
    SmoothSplit(env, desired[j].healthCheck, from, marks[j], to);
    SmoothSplit(env, desired[j].healthCheck, marks[j], marks[j + 1], to);
  }

  lemma {:induction false} MarkBetween(marks: seq<nat>, turns: nat, from: nat, to: nat, j: nat)
    requires Marked(marks, turns, from, to) && j <= turns
    ensures from <= marks[j] <= to
  {
    MarksRise(marks, turns, from, to, 0, j);
    MarksRise(marks, turns, from, to, j, turns);
  }

  lemma {:induction false} MarksRise(marks: seq<nat>, turns: nat, from: nat, to: nat, i: nat, j: nat)
    requires Marked(marks, turns, from, to) && i <= j <= turns
    ensures marks[i] <= marks[j]
    decreases j
  {
    if i < j { MarksRise(marks, turns, from, to, i, j - 1); }
  }

  /**
   One pass of the agent. At every effect one service is being worked on, within the most
   containers its turn allows, while finished services stay finished and later ones wait;
   no run is ever refused for its name. Afterwards only desired services run. Failures stay
   isolated: a service whose own turn went smoothly is settled whatever happened to the
   others, and a rollout given up leaves an error against its service. At every effect
   routing is held for all desired services, as long as the agent knows what is stored, and
   the replicas of a service rolled out have passed a gate exactly if those kept had. While no
   desired service is behind the edge, nothing is stored for it.
   */
  method Tick(agent: AppAgent, ctx: Option<CronPlanContext>) returns (ghost aborts: set<nat>, ghost marks: seq<nat>)
    requires agent.Valid() && UniqueKeys(agent.desired) && WellNamed(agent.desired)
    modifies agent`host, agent`step, agent`history, agent`effects, agent`ports, agent`fires, agent`errors
    ensures agent.Valid() && old(agent.history) <= agent.history
    ensures Marked(marks, |agent.desired|, old(agent.step), agent.step)
    ensures forall k :: |old(agent.history)| <= k < |agent.history| ==>
              SomeTurn(agent.desired, old(agent.host), |agent.desired|, aborts, SmoothTurns(agent.env, agent.desired, marks), agent.history[k])
    ensures OnTurn(agent.desired, old(agent.host), |agent.desired|, aborts, SmoothTurns(agent.env, agent.desired, marks), agent.host)
    ensures RoutingHeld(agent.desired, old(agent.host), agent.host)
    ensures forall k :: |old(agent.history)| <= k < |agent.history| ==> RoutingHeld(agent.desired, old(agent.host), agent.history[k])
    ensures GatesHeld(agent.desired, old(agent.host), |agent.desired|, aborts, agent.host)
    ensures WebRoutes(agent.desired, agent.edge) == {} ==>
              agent.host.pubs == old(agent.host).pubs && agent.host.cached == old(agent.host).cached
    ensures forall r :: r in agent.host.live ==> ReplicaKey(r) in DesiredKeys(agent.desired)
    ensures forall i :: i in aborts ==> i < |agent.desired| && KeyOf(agent.desired[i]) in agent.errors
    ensures forall i :: 0 <= i < |agent.desired| && i in SmoothTurns(agent.env, agent.desired, marks) && Manageable(agent.desired[i]) ==>
              i !in aborts && Settled(agent.desired[i], old(agent.host).live, agent.host.live)
    ensures Untroubled(agent.env, agent.desired, old(agent.step), agent.step) ==>
              forall i :: 0 <= i < |agent.desired| ==> i in SmoothTurns(agent.env, agent.desired, marks)
  {
    hide *;
    ghost var begin := agent.host;
    agent.ValidHost();
    var desired := agent.desired;
    var actual := GroupAll(agent.host.live);
    var actions := PlanReconcile(desired, actual, ctx);
    PlanParts(desired, actual, ctx);
    aborts, marks := ApplyServices(agent, actions, actual, ctx);
    ghost var middle, smooth := agent.history, SmoothTurns(agent.env, agent.desired, marks);
    ghost var served := agent.step;
    var keys := DesiredKeys(desired);
    var at := |PlanServices(desired, actual, ctx)|;
    ApplyRemovals(agent, actions[at..], actual, keys, begin, aborts, smooth);
    MarkedLater(marks, |desired|, old(agent.step), served, agent.step);
    forall k | |old(agent.history)| <= k < |agent.history|
      ensures SomeTurn(desired, begin, |desired|, aborts, smooth, agent.history[k])
      ensures RoutingHeld(desired, begin, agent.history[k])
    {
      if k < |middle| { assert agent.history[k] == middle[k]; }
      SomeRouting(desired, begin, aborts, smooth, agent.history[k]);
    }
    TurnRoutes(desired, begin, |desired|, aborts, smooth, agent.host);
    NothingForTheEdge(desired, begin, agent.host);
    forall i | 0 <= i < |desired| && i in smooth && Manageable(desired[i])
      ensures i !in aborts && Settled(desired[i], begin.live, agent.host.live)
    {
      TurnSettled(desired, begin, aborts, smooth, agent.host, i);
    }
    if Untroubled(agent.env, agent.desired, old(agent.step), agent.step) {
      forall i | 0 <= i < |desired| ensures i in smooth { AllSmooth(agent.env, desired, marks, old(agent.step), agent.step, i); }
    }
  }

  /** The table last stored for the edge, none before the first. */
  function Stored(h: Host): set<Backend> { if h.pubs == [] then {} else h.pubs[|h.pubs| - 1].table }

  /** What the edge should read after a pass. */
  function Wanted(desired: seq<ServiceConfig>, h: Host): set<Backend> { Backends(h.live, WebRoutes(desired, h.edge), {}) }

  /**
   The edge's shard says what it should exactly if a desired service is behind the edge, or
   nothing is wanted and nothing was stored: an edge no service names any more keeps its
   last shard, which then names a removed service exactly if it did before.
   */
  ghost predicate ToldIff(desired: seq<ServiceConfig>, before: Host, h: Host) {
    && (Shows(h, Wanted(desired, h)) <==> WebRoutes(desired, h.edge) != {} || Shows(before, {}))
    && (forall key :: key !in DesiredKeys(desired) ==>
         (NamesRunning(h.live, key, Stored(h)) <==> WebRoutes(desired, h.edge) != {} || !NamesSome(key, Stored(before))))
  }

  /** In the table of the pass, the lines of a service rolled out are gated exactly if the replicas kept were. */
  ghost predicate TableGated(desired: seq<ServiceConfig>, aborts: set<nat>, before: Host, h: Host) {
    forall j :: 0 <= j < |desired| && RolledOver(desired[j], before, j in aborts)
                && GateNeeded(desired[j]) && desired[j].ingress.value.edge == h.edge ==>
      (LinesGated(Wanted(desired, h), KeyOf(desired[j]), h.passed) <==> KeptGated(desired[j], Have(before, desired[j]), before.passed))
  }

  /**
   A pass and the publish that ends it, which cannot fail when no service has ingress. With a
   service behind the edge, the agent has then been told that the stored shard names exactly
   the containers that may be routed to, all of them running. Whether it is stored, and
   whether it names only what runs, `ToldIff` says, unless one was stored unknown to the agent.
   */
  method TickAndPublish(agent: AppAgent, ctx: Option<CronPlanContext>) returns (ok: bool, ghost aborts: set<nat>, ghost marks: seq<nat>)
    requires agent.Valid() && UniqueKeys(agent.desired) && WellNamed(agent.desired)
    modifies agent`host, agent`step, agent`history, agent`effects, agent`ports, agent`fires, agent`errors
    ensures agent.Valid() && old(agent.history) <= agent.history && agent.host.edge == agent.edge
    ensures forall r :: r in agent.host.live ==> ReplicaKey(r) in DesiredKeys(agent.desired)
    ensures forall i :: 0 <= i < |agent.desired| && i in SmoothTurns(agent.env, agent.desired, marks) && Manageable(agent.desired[i]) ==>
              i !in aborts && Settled(agent.desired[i], old(agent.host).live, agent.host.live)
    ensures RoutingHeld(agent.desired, old(agent.host), agent.host)
    ensures forall k :: |old(agent.history)| <= k < |agent.history| ==> RoutingHeld(agent.desired, old(agent.host), agent.history[k])
    ensures !HasWeb(agent.desired) ==> ok
    ensures ok && WebRoutes(agent.desired, agent.edge) != {} ==>
              && agent.host.cached == Some(Wanted(agent.desired, agent.host))
              && forall key :: NamesRunning(agent.host.live, key, Wanted(agent.desired, agent.host))
    ensures ok && Sure(old(agent.host), agent.host) ==> ToldIff(agent.desired, old(agent.host), agent.host)
    ensures TableGated(agent.desired, aborts, old(agent.host), agent.host)
  {
    hide *;
    ghost var begin := agent.host;
    agent.ValidHost();
    aborts, marks := Tick(agent, ctx);
    ghost var h, v, t := agent.host, agent.env.verdict(agent.step), agent.Later();
    ghost var web := WebRoutes(agent.desired, agent.edge);
    agent.ValidHost();
    PublishFacts(h, v, t, Backends(h.live, web, {}));
    if web != {} { LastPublishHeld(agent.desired, begin, h, v, t); }
    LastWaitHeld(agent.desired, begin, h, t);
    forall key ensures NamesRunning(h.live, key, Backends(h.live, web, {})) { BackendsRun(h.live, web, {}, key); }
    ok := agent.RefreshRouting({});
    agent.ValidHost();
    WantedIs(agent.desired, agent.host);
    if ok && Sure(begin, agent.host) {
      if web != {} { HeldShows(agent.desired, begin, agent.host); ToldStored(agent.desired, begin, agent.host); }
      else { ToldNothing(agent.desired, begin, agent.host); }
    }
    TableIsGated(agent.desired, aborts, begin, h, agent.host);
  }

  lemma WantedIs(desired: seq<ServiceConfig>, h: Host)
    ensures Wanted(desired, h) == Backends(h.live, WebRoutes(desired, h.edge), {})
  {
    hide Backends, WebRoutes;
  }

  lemma ToldStored(desired: seq<ServiceConfig>, begin: Host, h: Host)
    requires WebRoutes(desired, h.edge) != {} && Shows(h, Wanted(desired, h))
    ensures ToldIff(desired, begin, h)
  {
    hide Backends, WebRoutes, NamesRunning;
    forall key ensures NamesRunning(h.live, key, Stored(h)) { BackendsRun(h.live, WebRoutes(desired, h.edge), {}, key); }
  }

  lemma ToldNothing(desired: seq<ServiceConfig>, begin: Host, h: Host)
    requires WebRoutes(desired, h.edge) == {} && h.pubs == begin.pubs && forall r :: r in h.live ==> ReplicaKey(r) in DesiredKeys(desired)
    ensures ToldIff(desired, begin, h)
  {
    hide WebRoutes, ReplicaKey, DesiredKeys;
    forall key | key !in DesiredKeys(desired) ensures NamesRunning(h.live, key, Stored(h)) <==> !NamesSome(key, Stored(begin)) {
      forall e ensures !Answers(h.live, key, e) { }
    }
  }

  /** A gate's outcome stays what it was at the end of the pass, and the table names the replicas there are. */
  lemma TableIsGated(desired: seq<ServiceConfig>, aborts: set<nat>, begin: Host, h: Host, h': Host)
    requires GatesHeld(desired, begin, |desired|, aborts, h) && h'.live == h.live && h'.passed == h.passed
    ensures TableGated(desired, aborts, begin, h')
  {
    hide Keep, KeyOf, ReplicaKey, Have, KeptGated, RolledOver, Backends;
    forall j | 0 <= j < |desired| && RolledOver(desired[j], begin, j in aborts)
               && GateNeeded(desired[j]) && desired[j].ingress.value.edge == h'.edge
      ensures LinesGated(Wanted(desired, h'), KeyOf(desired[j]), h'.passed) <==> KeptGated(desired[j], Have(begin, desired[j]), begin.passed)
    {
      assert ReplicasGated(desired[j], begin, h);
      assert RouteOf(desired[j]) in WebRoutes(desired, h'.edge);
      LinesAreReplicas(h'.live, WebRoutes(desired, h'.edge), KeyOf(desired[j]));
    }
  }

  /** The publish at the end of a pass. */
  lemma LastPublishHeld(desired: seq<ServiceConfig>, begin: Host, h: Host, v: Verdict, t: int)
    requires RoutingHeld(desired, begin, h) && t >= h.now && WebRoutes(desired, begin.edge) != {}
    ensures RoutingHeld(desired, begin, AfterPublish(h, v, t, Backends(h.live, WebRoutes(desired, begin.edge), {})))
  {
    hide Keep, ServiceKey, KeyOf, Have, ShareCareful, ShareServing, RoutingSafe, WebRoutes, Backends;
    var web := WebRoutes(desired, begin.edge);
    var h' := AfterPublish(h, v, t, Backends(h.live, web, {}));
    InStepAfterIff(h, v, t, Backends(h.live, web, {}));
    forall j | 0 <= j < |desired| && ServiceHeld(web, desired[j], begin, h) ensures ServiceHeld(web, desired[j], begin, h') {
      if Routed(h, web, KeyOf(desired[j])) { RoutedPublish(h, v, t, web, {}, KeyOf(desired[j])); }
    }
  }

  lemma LastWaitHeld(desired: seq<ServiceConfig>, begin: Host, h: Host, t: int)
    requires RoutingHeld(desired, begin, h) && t >= h.now
    ensures RoutingHeld(desired, begin, h.(now := t))
  {
    hide Keep, ServiceKey, KeyOf, Have, ShareCareful, ShareServing, RoutingSafe, WebRoutes, Backends;
    var web := WebRoutes(desired, begin.edge);
    forall j | 0 <= j < |desired| && ServiceHeld(web, desired[j], begin, h) ensures ServiceHeld(web, desired[j], begin, h.(now := t)) {
      if Routed(h, web, KeyOf(desired[j])) { RoutedCarries(h, h.(now := t), web, KeyOf(desired[j])); }
    }
  }

  lemma HeldShows(desired: seq<ServiceConfig>, begin: Host, h: Host)
    requires RoutingHeld(desired, begin, h)
    ensures Sure(begin, h) && h.cached.Some? ==> Shows(h, h.cached.value)
  {
  }

  lemma NothingForTheEdge(desired: seq<ServiceConfig>, begin: Host, h: Host)
    requires RoutingHeld(desired, begin, h)
    ensures WebRoutes(desired, begin.edge) == {} ==> h.pubs == begin.pubs && h.cached == begin.cached
  {
    hide ServiceHeld, WebRoutes;
  }

  lemma TurnRoutes(desired: seq<ServiceConfig>, begin: Host, turn: nat, aborts: set<nat>, smooth: set<nat>, h: Host)
    requires OnTurn(desired, begin, turn, aborts, smooth, h)
    ensures RoutingHeld(desired, begin, h) && GatesHeld(desired, begin, turn, aborts, h)
  {
    hide Working, Finished, Waiting, RoutingHeld, GatesHeld;
  }

  lemma SomeRouting(desired: seq<ServiceConfig>, begin: Host, aborts: set<nat>, smooth: set<nat>, h: Host)
    requires SomeTurn(desired, begin, |desired|, aborts, smooth, h)
    ensures RoutingHeld(desired, begin, h)
  {
    hide OnTurn, RoutingHeld;
    var turn: nat :| turn <= |desired| && OnTurn(desired, begin, turn, aborts, smooth, h);
    TurnRoutes(desired, begin, turn, aborts, smooth, h);
  }

  lemma MarkedLater(marks: seq<nat>, turns: nat, from: nat, to: nat, later: nat)
    requires Marked(marks, turns, from, to) && to <= later
    ensures Marked(marks, turns, from, later)
  {
  }

  lemma PlanParts(desired: seq<ServiceConfig>, actual: seq<Group>, ctx: Option<CronPlanContext>)
    ensures var plan, at := Plan(desired, actual, ctx), |PlanServices(desired, actual, ctx)|;
            at <= |plan| && PlanServices(desired, actual, ctx) <= plan && plan[at..] == PlanRemovals(actual, DesiredKeys(desired))
  {
    hide PlanServices, PlanRemovals;
  }

  /**
   Two passes converge every service whose own effects succeed in both, whatever befalls the
   others; when all do, the node is converged.
   */
  method TwoTicks(agent: AppAgent, first: Option<CronPlanContext>, second: Option<CronPlanContext>)
    returns (ghost marks1: seq<nat>, ghost marks2: seq<nat>)
    requires agent.Valid() && UniqueKeys(agent.desired) && WellNamed(agent.desired)
    modifies agent`host, agent`step, agent`history, agent`effects, agent`ports, agent`fires, agent`errors
    ensures agent.Valid()
    ensures forall i :: 0 <= i < |agent.desired| && Manageable(agent.desired[i])
                        && i in SmoothTurns(agent.env, agent.desired, marks1) && i in SmoothTurns(agent.env, agent.desired, marks2) ==>
              ServiceConverged(agent.desired[i], Mine(agent.host.live, KeyOf(agent.desired[i])))
    ensures LongLivedOnly(agent.desired) && Untroubled(agent.env, agent.desired, old(agent.step), agent.step) ==>
              Converged(agent.desired, agent.host.live)
  {
    hide *;
    ghost var a, b;
    a, marks1 := Tick(agent, first);
    ghost var between, step := agent.host, agent.step;
    b, marks2 := Tick(agent, second);
    TickAdvances(marks1, |agent.desired|, old(agent.step), step);
    TickAdvances(marks2, |agent.desired|, step, agent.step);
    UntroubledSplit(agent.env, agent.desired, old(agent.step), step, agent.step);
    forall i | 0 <= i < |agent.desired| && Manageable(agent.desired[i])
               && i in SmoothTurns(agent.env, agent.desired, marks1) && i in SmoothTurns(agent.env, agent.desired, marks2)
      ensures ServiceConverged(agent.desired[i], Mine(agent.host.live, KeyOf(agent.desired[i])))
    {
      SettledTwice(agent.desired[i], old(agent.host).live, between.live, agent.host.live);
    }
    AllConverged(agent.desired, agent.host.live);
  }

  lemma UntroubledSplit(env: Env, desired: seq<ServiceConfig>, a: nat, m: nat, b: nat)
    requires a <= m <= b
    ensures Untroubled(env, desired, a, b) <==> Untroubled(env, desired, a, m) && Untroubled(env, desired, m, b)
  {
    hide Smooth;
    forall i | 0 <= i < |desired|
      ensures Smooth(env, desired[i].healthCheck, a, b) <==> Smooth(env, desired[i].healthCheck, a, m) && Smooth(env, desired[i].healthCheck, m, b)
    {
      SmoothSplit(env, desired[i].healthCheck, a, m, b);
    }
  }

  lemma TickAdvances(marks: seq<nat>, turns: nat, from: nat, to: nat)
    requires Marked(marks, turns, from, to)
    ensures from <= to
  {
    MarkBetween(marks, turns, from, to, 0);
  }

  lemma SettledTwice(c: ServiceConfig, a: Live, b: Live, live: Live)
    requires Settled(c, a, b) && Settled(c, b, live)
    ensures ServiceConverged(c, Mine(live, KeyOf(c)))
  {
    hide NoDrift, ServiceConverged, Mine;
  }

  lemma AllConverged(desired: seq<ServiceConfig>, live: Live)
    requires forall r :: r in live ==> ReplicaKey(r) in DesiredKeys(desired)
    ensures (LongLivedOnly(desired)
             && forall i :: 0 <= i < |desired| && Manageable(desired[i]) ==> ServiceConverged(desired[i], Mine(live, KeyOf(desired[i]))))
         ==> Converged(desired, live)
  {
    hide ServiceConverged, Mine, Manageable;
  }
}
