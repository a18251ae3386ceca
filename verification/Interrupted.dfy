/**
 What a rollout does not promise: a replica started just before a crash escapes its health
 gate, and a node that drains reads stale.
 */
module Interrupted {
  import opened Common
  import opened Text
  import opened Types
  import opened Lists
  import opened Containers
  import opened Health
  import opened Host
  import opened Planner
  import opened Docker
  import opened RolloutShape
  import opened Agent
  import opened Apply
  import opened StatusWrite

  /**
   The agent crashed after starting `n` in place of `a` and before waiting for its health:
   `n` matches the configuration and runs, but its gate has not opened.
   */
  ghost predicate CrashedBeforeGate(h: Host, c: ServiceConfig, a: ManagedReplica, n: ManagedReplica) {
    && WellFormed(h) && GateNeeded(c) && c.replicas == 1 && c.rollout.maxSurge >= 1
    && IsNamePart(c.project) && IsNamePart(c.service)
    && h.live == [a, n] && ReplicaKey(a) == KeyOf(c) && ReplicaKey(n) == KeyOf(c)
    && NeedsReplace(a, c) && !NeedsReplace(n, c) && Running(n) && n.hostPort.Some? && n.id !in h.passed && h.cached.None?
  }

  /** Such states are reached: it is where running the first surged replica leaves the node, the agent's memory gone. */
  lemma CrashIsPossible(h: Host, c: ServiceConfig, a: ManagedReplica, t: int, port: int)
    requires WellFormed(h) && GateNeeded(c) && c.replicas == 1 && c.rollout.maxSurge >= 1
    requires IsNamePart(c.project) && IsNamePart(c.service) && t >= h.now
    requires h.live == [a] && ReplicaKey(a) == KeyOf(c) && NeedsReplace(a, c) && a.index == 0
    requires h.nextId !in h.passed
    ensures var n := NewReplica(c, h.nextId, 1, "running", Some(port), None, None);
            CrashedBeforeGate(AfterRun(h, Verdict.Done, t, n).(cached := None), c, a, n)
  {
    hide ServiceKey, ContainerName, NeedsReplace, DistinctIds, DistinctNames;
    var n := NewReplica(c, h.nextId, 1, "running", Some(port), None, None);
    NewReplicaFacts(c, h.nextId, 1, Some(port), None, None);
    NameFree(h, c, 1);
    RunKeepsWellFormed(h, Verdict.Done, t, n);
  }

  /**
   The next tick counts `n` as a replica already replaced: a rollout that completes has
   stopped `a` and announced a shard that names `n` alone, whose gate was never waited for.
   */
  method UngatedTakesOver(agent: AppAgent, c: ServiceConfig, a: ManagedReplica, n: ManagedReplica) returns (end: RolloutEnd)
    requires agent.Valid() && agent.desired == [c] && CrashedBeforeGate(agent.host, c, a, n) && c.ingress.value.edge == agent.edge
    modifies agent`host, agent`step, agent`history, agent`effects, agent`ports, agent`errors
    ensures end.Completed? ==> agent.host.live == [n] && n.id !in agent.host.passed
    ensures end.Completed? ==> agent.host.cached == Some({Backend(n.id, n.hostPort.value, RouteOf(c))})
    ensures Smooth(agent.env, c.healthCheck, old(agent.step), agent.step) ==> end.Completed?
  {
    hide *;
    ghost var h := agent.host;
    ghost var b := Begin(c, [a, n], h, agent.ports, WebRoutes(agent.desired, agent.edge));
    CrashParts(h, c, a, n);
    OneRoute(c, agent.edge);
    ghost var drained, surged;
    end, drained, surged := agent.RolloutService(c, [a, n]);
    if end.Completed? {
      RoutingPart(b, agent.host);
      TakenOver(b, a, n, agent.host, surged);
    }
  }

  lemma CrashParts(h: Host, c: ServiceConfig, a: ManagedReplica, n: ManagedReplica)
    requires CrashedBeforeGate(h, c, a, n)
    ensures IsNamePart(c.project) && IsNamePart(c.service) && c.ingress.Some? && c.rollout.maxSurge >= 1
    ensures h.live == [a, n] && multiset([a, n]) == multiset(Mine(h.live, KeyOf(c)))
  {
    hide Keep, KeyOf, ReplicaKey, WellFormed, NeedsReplace;
    KeepAll([a, n], OfKey(KeyOf(c)));
  }

  lemma RoutingPart(b: Begin, h: Host)
    requires StepOk(b, h)
    ensures RoutingKept(b, h)
  {
    hide Bounded, Gated, RoutingKept;
  }

  lemma TakenOver(b: Begin, a: ManagedReplica, n: ManagedReplica, h: Host, surged: Live)
    requires b.current == [a, n] && b.c.ingress.Some? && b.web == {RouteOf(b.c)} && CrashedBeforeGate(b.host, b.c, a, n)
    requires Shape(b, h.live, |Old(b)|, surged) && RoutingKept(b, h) && Announced(h, b.web, {})
    requires |surged| == Max(0, b.c.replicas - Kept(b))
    ensures h.live == [n] && n.id !in h.passed && h.cached == Some({Backend(n.id, n.hostPort.value, RouteOf(b.c))})
  {
    hide Keep, KeyOf, ReplicaKey, NeedsReplace, Surged, Backends, Routed, Careful, Serving, InStep, RouteOf;
    OneDrifts(b, a, n);
    assert n in b.host.live && a in b.host.live && IdOf(b.host.live[0]) == a.id;
    assert surged == [] && Ids([a]) == {a.id} && [a][..1] == [a];
    FirstLeaves(a, n);
    assert h.live == [n] + [];
    assert [n] + [] == [n];
    OneBackend(b.c, n);
  }

  lemma OneDrifts(b: Begin, a: ManagedReplica, n: ManagedReplica)
    requires b.current == [a, n] && NeedsReplace(a, b.c) && !NeedsReplace(n, b.c)
    ensures Old(b) == [a] && Kept(b) == 1
  {
    hide Keep, NeedsReplace;
    KeepNone(DriftsFrom(b.c));
    KeepNone(Matches(b.c));
    KeepLast([], a, DriftsFrom(b.c));
    KeepLast([], a, Matches(b.c));
    KeepLast([a], n, DriftsFrom(b.c));
    KeepLast([a], n, Matches(b.c));
    assert [] + [a] == [a] && [a] + [n] == [a, n] && [] + [n] == [n];
  }

  lemma FirstLeaves(a: ManagedReplica, n: ManagedReplica)
    requires a.id != n.id
    ensures Without([a, n], {a.id}) == [n]
  {
    hide Keep;
    var keep := IdNotIn({a.id});
    KeepNone(keep);
    KeepLast([], a, keep);
    KeepLast([a], n, keep);
    assert [] + [a] == [a] && [a] + [n] == [a, n] && [] + [n] == [n];
  }

  lemma OneBackend(c: ServiceConfig, n: ManagedReplica)
    requires c.ingress.Some? && ReplicaKey(n) == KeyOf(c) && Running(n) && n.hostPort.Some?
    ensures Backends([n], {RouteOf(c)}, {}) == {Backend(n.id, n.hostPort.value, RouteOf(c))}
  {
    hide ReplicaKey, KeyOf;
    assert n in [n];
    assert Routable(n, RouteOf(c), {});
  }

  lemma OneRoute(c: ServiceConfig, edge: string)
    requires c.ingress.Some? && c.ingress.value.edge == edge
    ensures WebRoutes([c], edge) == {RouteOf(c)}
  {
    hide KeyOf;
    assert c in [c];
    assert RouteOf(c) in WebRoutes([c], edge);
  }

  /**
   A drain sleeps past the stale window if and only if the service has ingress. Nothing is
   written between its heartbeats, so the node then reads stale during each drain, although
   the heartbeats of a rollout are there to keep it fresh.
   */
  lemma DrainReadsStaleIff(c: ServiceConfig, r: ManagedReplica)
    ensures var script := DrainScript(c, r);
            && (c.ingress.Some? <==> exists i :: 0 <= i < |script| && script[i].Sleep? && script[i].ms > HEARTBEAT_STALE_MS)
            && (c.ingress.Some? ==> script[1] == Heartbeat && script[2] == Sleep(WaitMs(c)) && script[5] == Heartbeat
                                    && |script| == 6 && forall i :: 1 < i < 5 ==> script[i] != Heartbeat)
            && (c.ingress.None? ==> script == [Stop(r.id), Release(PortSlot(KeyOf(c), r.index)), Heartbeat])
    ensures c.ingress.Some? ==>
              forall beat, t :: beat + HEARTBEAT_STALE_MS < t <= beat + WaitMs(c) ==> HeartbeatStale(beat, t, HEARTBEAT_STALE_MS)
  {
    hide ParseDurationMs, PortSlot, WaitMs;
    DrainEffects(c, r);
    if c.ingress.Some? {
      LongEnough(c);
      assert DrainScript(c, r)[2] == Sleep(WaitMs(c));
    }
  }
}
