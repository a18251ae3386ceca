/**
 From publish to plan: what is planned for a service depends only on its own configuration,
 containers and anchors, so a deploy by one owner plans nothing new for another's services.
 */
module Ownership {
  import opened Common
  import opened Text
  import opened Types
  import opened Lists
  import opened Planner
  import opened Apply
  import opened Inspect
  import opened Pass
  import opened Merge
  import opened MergeProofs

  function ForKey(key: string): Action -> bool { (a: Action) => ActionKey(a) == key }

  function Planned(actions: seq<Action>, key: string): seq<Action> { Keep(actions, ForKey(key)) }

  lemma StartsKey(c: ServiceConfig, stopped: seq<ManagedReplica>)
    ensures forall a :: a in Starts(c, stopped) ==> ActionKey(a) == KeyOf(c)
  {
    hide KeyOf;
  }

  lemma CountKey(c: ServiceConfig, have: seq<ManagedReplica>)
    ensures forall a :: a in PlanCount(c, have) ==> ActionKey(a) == KeyOf(c)
  {
    hide KeyOf, FreeIndices, Indices, Keep, Extras;
  }

  /** Everything planned for a service is about that service. */
  lemma ServiceKeyed(c: ServiceConfig, have: seq<ManagedReplica>, ctx: Option<CronPlanContext>)
    ensures forall a :: a in PlanService(c, have, ctx) ==> ActionKey(a) == KeyOf(c)
  {
    hide KeyOf, Keep, Starts, PlanCount, CronDecision;
    StartsKey(c, Stopped(have));
    CountKey(c, have);
    DecisionKey(c, CronRuns(have), ctx);
  }

  lemma DecisionKey(c: ServiceConfig, runs: seq<ManagedReplica>, ctx: Option<CronPlanContext>)
    ensures ActionKey(CronDecision(c, runs, ctx)) == KeyOf(c)
  {
    hide KeyOf;
  }

  ghost predicate IsOf(services: seq<ServiceConfig>, c: ServiceConfig, key: string) { c in services && KeyOf(c) == key }

  /** The actions planned for a desired service, among all planned for the node. */
  lemma {:induction false} ServicesForKey(services: seq<ServiceConfig>, actual: seq<Group>,
            ctx: Option<CronPlanContext>, key: string)
    requires UniqueKeys(services)
    ensures forall c :: IsOf(services, c, key) ==> Planned(PlanServices(services, actual, ctx), key) == PlanService(c, Lookup(actual, key), ctx)
    ensures (forall c :: !IsOf(services, c, key)) ==> Planned(PlanServices(services, actual, ctx), key) == []
    decreases |services|
  {
    hide Keep, KeyOf, PlanService, Lookup;
    if services == [] {
      KeepNone(ForKey(key));
    } else {
      var front, last := services[..|services| - 1], services[|services| - 1];
      SplitLast(services);
      assert UniqueKeys(front) by { assert forall i :: 0 <= i < |front| ==> front[i] == services[i]; }
      ServicesForKey(front, actual, ctx, key);
      var share := PlanService(last, Lookup(actual, KeyOf(last)), ctx);
      ServiceKeyed(last, Lookup(actual, KeyOf(last)), ctx);
      KeepAppend(PlanServices(front, actual, ctx), share, ForKey(key));
      forall c | c in front ensures KeyOf(c) != KeyOf(last) {
        var i :| 0 <= i < |front| && front[i] == c;
        assert services[i] == c;
      }
      if KeyOf(last) == key {
        KeepAll(share, ForKey(key));
        assert forall c :: !IsOf(front, c, key);
        assert [] + share == share;
        forall c | IsOf(services, c, key) ensures c == last { }
        assert IsOf(services, last, key);
      } else {
        KeepsNothing(share, ForKey(key));
        forall c ensures IsOf(services, c, key) <==> IsOf(front, c, key) { }
      }
    }
  }

  lemma {:induction false} RemovalsForKey(actual: seq<Group>, a: set<string>, b: set<string>, key: string)
    requires key in a <==> key in b
    ensures Planned(PlanRemovals(actual, a), key) == Planned(PlanRemovals(actual, b), key)
    decreases |actual|
  {
    hide Keep;
    if actual != [] {
      var front, g := actual[..|actual| - 1], actual[|actual| - 1];
      RemovalsForKey(front, a, b, key);
      var ra := if g.key !in a then [Remove(g.key, g.replicas)] else [];
      var rb := if g.key !in b then [Remove(g.key, g.replicas)] else [];
      KeepAppend(PlanRemovals(front, a), ra, ForKey(key));
      KeepAppend(PlanRemovals(front, b), rb, ForKey(key));
      if g.key != key {
        KeepsNothing(ra, ForKey(key));
        KeepsNothing(rb, ForKey(key));
      }
    }
  }

  /** Two sets of services that agree on a key plan the same for it. */
  lemma PlanAgrees(before: seq<ServiceConfig>, after: seq<ServiceConfig>, actual: seq<Group>,
            ctx: Option<CronPlanContext>, key: string)
    requires UniqueKeys(before) && UniqueKeys(after)
    requires forall c :: IsOf(before, c, key) <==> IsOf(after, c, key)
    ensures Planned(Plan(before, actual, ctx), key) == Planned(Plan(after, actual, ctx), key)
  {
    hide Keep, KeyOf, PlanService, Lookup, PlanServices, PlanRemovals, UniqueKeys;
    ServicesForKey(before, actual, ctx, key);
    ServicesForKey(after, actual, ctx, key);
    if c :| IsOf(before, c, key) {
      assert IsOf(after, c, key);
    }
    DesiredKeysAgree(before, after, key);
    RemovalsForKey(actual, DesiredKeys(before), DesiredKeys(after), key);
    KeepAppend(PlanServices(before, actual, ctx), PlanRemovals(actual, DesiredKeys(before)), ForKey(key));
    KeepAppend(PlanServices(after, actual, ctx), PlanRemovals(actual, DesiredKeys(after)), ForKey(key));
  }

  lemma DesiredKeysAgree(before: seq<ServiceConfig>, after: seq<ServiceConfig>, key: string)
    requires forall c :: IsOf(before, c, key) <==> IsOf(after, c, key)
    ensures key in DesiredKeys(before) <==> key in DesiredKeys(after)
  {
    hide KeyOf;
    if key in DesiredKeys(before) {
      var c :| c in before && KeyOf(c) == key;
      assert IsOf(before, c, key);
    }
    if key in DesiredKeys(after) {
      var c :| c in after && KeyOf(c) == key;
      assert IsOf(after, c, key);
    }
  }

  /** The key belongs to no service of the owner, before or after. */
  ghost predicate Sibling(services: seq<ServiceConfig>, owner: string, key: string) {
    forall c :: IsOf(services, c, key) ==> c.project != owner
  }

  /**
   A deploy leaves the plan for every other owner's service exactly as it was: the same
   actions, in the same order, on the same containers.
   */
  lemma DeployPlansNothingForSiblings(existing: seq<ServiceConfig>, d: Deploy, actual: seq<Group>,
            ctx: Option<CronPlanContext>, key: string)
    requires UniqueKeys(existing) && Publish(existing, d).Merged?
    requires Sibling(existing, d.owner, key) && Sibling(Publish(existing, d).services, d.owner, key)
    ensures Planned(Plan(existing, actual, ctx), key) == Planned(Plan(Publish(existing, d).services, actual, ctx), key)
  {
    hide Keep, KeyOf, Plan, UniqueKeys, Published;
    AcceptedIff(existing, d);
    OwnersIsolated(existing, d);
    var after := Published(existing, d);
    forall c ensures IsOf(existing, c, key) <==> IsOf(after, c, key) {
      assert c in Keep(existing, NotOwnedBy(d.owner)) <==> c in existing && c.project != d.owner;
      assert c in Keep(after, NotOwnedBy(d.owner)) <==> c in after && c.project != d.owner;
    }
    PlanAgrees(existing, after, actual, ctx, key);
  }

  /** Only the service's own anchors matter. */
  lemma OnlyOwnAnchors(c: ServiceConfig, have: seq<ManagedReplica>, a: CronPlanContext, b: CronPlanContext)
    requires a.nowMs == b.nowMs && Anchor(a, KeyOf(c)) == Anchor(b, KeyOf(c))
    requires Anchor(a, BackupStateKey(KeyOf(c))) == Anchor(b, BackupStateKey(KeyOf(c)))
    ensures PlanService(c, have, Some(a)) == PlanService(c, have, Some(b))
  {
    hide KeyOf, Keep, PlanJob, PlanCount, Starts, LabelFire, BackupStateKey;
  }
}
