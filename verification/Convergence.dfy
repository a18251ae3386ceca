/**
 When there is nothing to do: the plan is quiet exactly on a converged node. And what a
 completed rollout cannot promise: it counts stopped replicas as if they served.
 */
module Convergence {
  import opened Common
  import opened Text
  import opened Types
  import opened Lists
  import opened Containers
  import opened Host
  import opened Planner
  import opened RolloutShape
  import opened Inspect
  import opened Reconcile
  import opened Pass

  /** Nothing to change; a database may still be due a backup. */
  ghost predicate Quiet(actions: seq<Action>) {
    forall a :: a in actions ==> a.Noop? || a.BackupRun?
  }

  /** As `ServiceConverged`, for the list inspection reports. */
  ghost predicate AsWanted(c: ServiceConfig, have: Live) {
    |have| == c.replicas && forall r :: r in have ==> Running(r) && !NeedsReplace(r, c)
  }

  lemma QuietAppend(a: seq<Action>, b: seq<Action>)
    ensures Quiet(a + b) <==> Quiet(a) && Quiet(b)
  {
    assert forall x :: x in a + b <==> x in a || x in b;
  }

  lemma NothingKept(have: Live, p: ManagedReplica -> bool)
    ensures Keep(have, p) == [] <==> forall r :: r in have ==> !p(r)
  {
    hide Keep;
    if forall r :: r in have ==> !p(r) {
      KeepsNothing(have, p);
    } else {
      var r :| r in have && p(r);
      assert r in Keep(have, p);
    }
  }

  lemma QuietOne(a: Action)
    ensures Quiet([a]) <==> a.Noop? || a.BackupRun?
  {
    assert a in [a];
  }

  lemma QuietCount(c: ServiceConfig, have: Live)
    ensures Quiet(PlanCount(c, have)) <==> |have| == c.replicas
  {
    hide Keep, FreeIndices, Indices, Extras;
    if |have| < c.replicas {
      assert PlanCount(c, have)[0].Create? && PlanCount(c, have)[0] in PlanCount(c, have);
    } else if |have| > c.replicas {
      QuietOne(ScaleDown(c, Extras(have, c.replicas)));
    } else {
      QuietOne(Noop(c));
      NothingQuiet();
    }
  }

  lemma QuietStarts(c: ServiceConfig, have: Live)
    ensures Quiet(Starts(c, Stopped(have))) <==> forall r :: r in have ==> Running(r)
  {
    hide Keep;
    NothingKept(have, NotRunning());
    assert forall r :: NotRunning()(r) == !Running(r);
    var starts := Starts(c, Stopped(have));
    if Stopped(have) != [] { assert starts[0].Start? && starts[0] in starts; }
  }

  lemma QuietBackup(c: ServiceConfig, have: Live, ctx: Option<CronPlanContext>)
    ensures Quiet(PlanBackupOrNoop(c, have, ctx))
  {
    hide Keep;
  }

  lemma QuietService(c: ServiceConfig, have: Live, ctx: Option<CronPlanContext>)
    requires LongLived(c)
    ensures Quiet(PlanService(c, have, ctx)) <==> AsWanted(c, have)
  {
    hide Keep, NeedsReplace, PlanBackupOrNoop, PlanCount, Starts, Quiet;
    NothingKept(have, DriftsFrom(c));
    if Drifted(have, c) != [] {
      RollOutLoud(c, have);
    } else {
      QuietStarts(c, have);
      QuietCount(c, have);
      QuietBackup(c, have, ctx);
      QuietAppend(Starts(c, Stopped(have)), PlanCount(c, have));
      QuietAppend(Starts(c, Stopped(have)) + PlanCount(c, have), PlanBackupOrNoop(c, have, ctx));
    }
  }

  lemma RollOutLoud(c: ServiceConfig, have: Live)
    ensures !Quiet([RollOut(c, have)])
  {
    assert RollOut(c, have) in [RollOut(c, have)];
  }

  lemma {:induction false} QuietServices(desired: seq<ServiceConfig>, actual: seq<Group>, ctx: Option<CronPlanContext>)
    requires forall i :: 0 <= i < |desired| ==> LongLived(desired[i])
    ensures Quiet(PlanServices(desired, actual, ctx))
        <==> forall i :: 0 <= i < |desired| ==> AsWanted(desired[i], Lookup(actual, KeyOf(desired[i])))
    decreases |desired|
  {
    hide PlanService, AsWanted, Lookup, LongLived, Quiet;
    if desired == [] {
      NothingQuiet();
    } else {
      var front, c := desired[..|desired| - 1], desired[|desired| - 1];
      QuietServices(front, actual, ctx);
      QuietService(c, Lookup(actual, KeyOf(c)), ctx);
      QuietAppend(PlanServices(front, actual, ctx), PlanService(c, Lookup(actual, KeyOf(c)), ctx));
      assert forall i :: 0 <= i < |front| ==> front[i] == desired[i];
    }
  }

  lemma NothingQuiet()
    ensures Quiet([])
  {
  }

  lemma {:induction false} QuietRemovals(actual: seq<Group>, keys: set<string>)
    ensures Quiet(PlanRemovals(actual, keys)) <==> forall i :: 0 <= i < |actual| ==> actual[i].key in keys
    decreases |actual|
  {
    if actual == [] {
      NothingQuiet();
    } else {
      var front, g := actual[..|actual| - 1], actual[|actual| - 1];
      QuietRemovals(front, keys);
      var last := if g.key !in keys then [Remove(g.key, g.replicas)] else [];
      QuietAppend(PlanRemovals(front, keys), last);
      QuietOne(Remove(g.key, g.replicas));
      NothingQuiet();
      assert forall i :: 0 <= i < |front| ==> front[i] == actual[i];
    }
  }

  lemma WantedIsConverged(c: ServiceConfig, h: Host)
    requires WellFormed(h)
    ensures AsWanted(c, Have(h, c)) <==> ServiceConverged(c, Mine(h.live, KeyOf(c)))
  {
    hide Keep, NeedsReplace, WellFormed, GroupAll, Have;
    SawAll(c, h);
    Rearranged(Have(h, c), Mine(h.live, KeyOf(c)));
  }

  lemma GroupsAreServices(live: Live, keys: set<string>)
    ensures (forall i :: 0 <= i < |GroupAll(live)| ==> GroupAll(live)[i].key in keys)
        <==> (forall r :: r in live ==> ReplicaKey(r) in keys)
  {
    hide Keep, ReplicaKey, GroupAll;
    GroupFacts(live);
    var actual := GroupAll(live);
    forall i | 0 <= i < |actual| ensures exists r :: r in live && ReplicaKey(r) == actual[i].key {
      KeyFound(actual, i);
      Rearranged(actual[i].replicas, Mine(live, actual[i].key));
      var r := actual[i].replicas[0];
      assert r in Mine(live, actual[i].key);
    }
    forall r | r in live ensures exists i :: 0 <= i < |actual| && actual[i].key == ReplicaKey(r) {
      MemberMine(live, r);
      Rearranged(Lookup(actual, ReplicaKey(r)), Mine(live, ReplicaKey(r)));
      Listed(actual, ReplicaKey(r));
    }
  }

  /** The plan for long-lived services is quiet if and only if the node is converged. */
  lemma QuietIffConverged(desired: seq<ServiceConfig>, h: Host, ctx: Option<CronPlanContext>)
    requires WellFormed(h) && forall i :: 0 <= i < |desired| ==> LongLived(desired[i])
    ensures Quiet(Plan(desired, GroupAll(h.live), ctx)) <==> Converged(desired, h.live)
  {
    hide Keep, PlanServices, PlanRemovals, GroupAll, AsWanted, ServiceConverged, WellFormed, LongLived, DesiredKeys,
         ReplicaKey, Quiet;
    var actual := GroupAll(h.live);
    QuietServices(desired, actual, ctx);
    QuietRemovals(actual, DesiredKeys(desired));
    QuietAppend(PlanServices(desired, actual, ctx), PlanRemovals(actual, DesiredKeys(desired)));
    GroupsAreServices(h.live, DesiredKeys(desired));
    forall i | 0 <= i < |desired|
      ensures AsWanted(desired[i], Lookup(actual, KeyOf(desired[i]))) <==> ServiceConverged(desired[i], Mine(h.live, KeyOf(desired[i])))
    {
      WantedIsConverged(desired[i], h);
    }
  }

  // ---- what drift does not look at ----

  /** Changing how a service is routed, probed or rolled out is not drift. */
  lemma RoutingChangesAreNotDrift(r: ManagedReplica, c: ServiceConfig, ingress: Option<Ingress>,
            hc: Option<HealthCheck>, rollout: Rollout)
    ensures NeedsReplace(r, c.(ingress := ingress, healthCheck := hc, rollout := rollout)) == NeedsReplace(r, c)
  {
  }

  // ---- stopped replicas count as kept ----

  ghost predicate AnyRunning(s: Live) { exists r :: r in s && Running(r) }

  /**
   After a completed rollout the service runs if and only if it was short of matching
   replicas or one of the matching replicas runs: stopped ones count as if they served.
   */
  lemma RolloutLeavesRunning(b: Begin, live: Live, surged: Live)
    requires Begins(b) && Shape(b, live, |Old(b)|, surged) && |surged| == Max(0, b.c.replicas - Kept(b))
    ensures AnyRunning(Mine(live, Key(b))) <==> (Kept(b) < b.c.replicas || AnyRunning(Matching(b.current, b.c)))
  {
    hide Keep, ReplicaKey, NeedsReplace, NextIndex, WellFormed, IsSurged;
    FinalMembers(b, live, surged);
    var mine := Mine(live, Key(b));
    if surged != [] {
      SurgedRuns(b, surged);
      assert surged[|surged| - 1] in mine;
    }
  }

  lemma SurgedRuns(b: Begin, surged: Live)
    requires Surged(b, surged) && surged != []
    ensures Running(surged[|surged| - 1])
  {
    hide NextIndex, ReplicaKey;
    assert IsSurged(b, surged[|surged| - 1], |surged| - 1);
  }

  /**
   A completed rollout converges the service if and only if no more replicas matched than
   are wanted, and all that matched run: it starts none that is stopped and removes none
   that is too many.
   */
  lemma RolloutConvergesIff(b: Begin, live: Live, surged: Live)
    requires Begins(b) && Shape(b, live, |Old(b)|, surged) && |surged| == Max(0, b.c.replicas - Kept(b))
    ensures ServiceConverged(b.c, Mine(live, Key(b)))
        <==> Kept(b) <= b.c.replicas && forall r :: r in Matching(b.current, b.c) ==> Running(r)
  {
    hide Keep, ReplicaKey, NeedsReplace, NextIndex, WellFormed, IsSurged, Shape, Surged;
    OldFacts(b);
    ShapeCounts(b, live, |Old(b)|, surged);
    FinalMembers(b, live, surged);
    var mine := Mine(live, Key(b));
    forall r | r in surged ensures Running(r) && !NeedsReplace(r, b.c) { SurgedServes(b, live, |Old(b)|, surged, r); }
    forall r | r in Matching(b.current, b.c) ensures !NeedsReplace(r, b.c) { }
    if ServiceConverged(b.c, mine) {
      forall r | r in Matching(b.current, b.c) ensures Running(r) { assert r in mine; }
    }
  }

  lemma SurgedServes(b: Begin, live: Live, drained: nat, surged: Live, r: ManagedReplica)
    requires Shape(b, live, drained, surged) && r in surged
    ensures Running(r) && !NeedsReplace(r, b.c)
  {
    hide IsSurged, Without;
    var i :| 0 <= i < |surged| && surged[i] == r;
    SurgedMatchesAt(b, r, i);
  }

  lemma SurgedMatchesAt(b: Begin, r: ManagedReplica, i: nat)
    requires IsSurged(b, r, i)
    ensures Running(r) && !NeedsReplace(r, b.c)
  {
  }
}
