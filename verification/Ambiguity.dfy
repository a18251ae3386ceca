/**
 A shard can be stored although the agent is told that it was not. The agent then believes
 an older shard to be stored, and does not store that one again: the runs below end with a
 replica stopped while the edge routes to it, and with a stored shard that stays wrong.
 `Host.InStepAfterIff`, `Host.PublishShowsIff` and `Host.DrainedIff` say exactly when this
 happens.
 */
module Ambiguity {
  import opened Common
  import opened Text
  import opened Types
  import opened Lists
  import opened Containers
  import opened Host
  import opened Docker
  import opened Stamp
  import opened Agent
  import opened Apply

  /** The one route of a service with ingress. */
  function Web(c: ServiceConfig): set<Route> { if c.ingress.Some? then {RouteOf(c)} else {} }

  /** The node's one service is served by one replica, and its shard is stored and known to be. */
  ghost predicate OneServes(h: Host, c: ServiceConfig, a: ManagedReplica) {
    && WellFormed(h) && c.ingress.Some? && c.ingress.value.edge == h.edge && IsNamePart(c.project) && IsNamePart(c.service)
    && h.live == [a] && Running(a) && a.hostPort.Some? && ReplicaKey(a) == KeyOf(c) && a.index == 0
    && h.cached == Some(Backends([a], Web(c), {})) && InStep(h)
  }

  lemma OneRoute(c: ServiceConfig, edge: string)
    requires c.ingress.Some? && c.ingress.value.edge == edge
    ensures WebRoutes([c], edge) == Web(c) && Web(c) != {}
  {
    hide KeyOf;
    assert c in [c];
    assert RouteOf(c) in WebRoutes([c], edge);
  }

  /** The tables with and without the second replica. */
  lemma TwoTables(c: ServiceConfig, a: ManagedReplica, n: ManagedReplica)
    requires c.ingress.Some? && ReplicaKey(a) == KeyOf(c) == ReplicaKey(n) && a.id != n.id
    requires Running(a) && a.hostPort.Some? && Running(n) && n.hostPort.Some?
    ensures var web := Web(c);
            && Backend(n.id, n.hostPort.value, RouteOf(c)) in Backends([a, n], web, {})
            && Backends([a, n], web, {}) != Backends([a], web, {})
            && Backends([a, n], web, {n.id}) == Backends([a], web, {})
  {
    hide ReplicaKey, KeyOf;
    var web := Web(c);
    RouteKey(c);
    assert n in [a, n] && a in [a, n] && a in [a];
    assert Routable(n, RouteOf(c), {});
    forall e | e in Backends([a], web, {}) ensures e.id == a.id && e in Backends([a, n], web, {n.id}) {
      assert Routable(a, e.route, {n.id});
    }
    forall e | e in Backends([a, n], web, {n.id}) ensures e in Backends([a], web, {}) {
      assert Routable(a, e.route, {});
    }
  }

  lemma RouteKey(c: ServiceConfig)
    requires c.ingress.Some?
    ensures RouteOf(c).key == KeyOf(c)
  {
  }

  /** The second replica starts under a free name. */
  lemma SecondStarts(h: Host, c: ServiceConfig, a: ManagedReplica, v: Verdict, t: int, port: int)
    requires OneServes(h, c, a) && v.Done?
    ensures var n := NewReplica(c, h.nextId, 1, "running", Some(port), None, None);
            && !NameTaken(h.live, ContainerName(c.project, c.service, 1))
            && AfterRun(h, v, t, n).live == [a, n] && AfterRun(h, v, t, n).cached == h.cached && a.id != n.id
            && AfterRun(h, v, t, n).now == t && AfterRun(h, v, t, n).pubs == h.pubs && AfterRun(h, v, t, n).unsure == h.unsure
            && ReplicaKey(n) == KeyOf(c) && Running(n) && n.hostPort == Some(port) && n.id == h.nextId
  {
    hide ServiceKey, ContainerName, ServiceConfigStamp, DistinctIds, DistinctNames, Backends, InStep;
    NewReplicaFacts(c, h.nextId, 1, Some(port), None, None);
    NameFree(h, c, 1);
    assert a in h.live;
  }

  /** While the last stored table names a container that is gone, its service is not safe. */
  lemma NamesTheStopped(h: Host, key: string, e: Backend)
    requires h.pubs != [] && e in h.pubs[|h.pubs| - 1].table && e.route.key == key && forall r :: r in h.live ==> r.id != e.id
    ensures !NamesRunning(h.live, key, h.pubs[|h.pubs| - 1].table) && !RoutingSafe(h, key)
  {
    hide ReplicaKey;
    assert MayHold(h, |h.pubs| - 1);
  }

  /** A removal of a container the last stored table names cuts its service. */
  lemma CutsTheRouted(h: Host, n: ManagedReplica, e: Backend, t: int)
    requires n in h.live && h.pubs != [] && e in h.pubs[|h.pubs| - 1].table && e.id == n.id
    ensures ReplicaKey(n) in AfterRemoval(h, IdNotIn({n.id}), t).cut
    ensures AfterRemoval(h, IdNotIn({n.id}), t).pubs == h.pubs
  {
    hide ReplicaKey;
    assert MayHold(h, |h.pubs| - 1) && Names(h.pubs[|h.pubs| - 1].table, n.id);
    assert HeldNames(h, n.id);
  }

  lemma OneLeft(a: ManagedReplica, n: ManagedReplica)
    requires a.id != n.id
    ensures Without([a, n], {n.id}) == [a]
  {
    hide Keep;
    var keep := IdNotIn({n.id});
    KeepNone(keep);
    KeepLast([], a, keep);
    KeepLast([a], n, keep);
    assert [] + [a] == [a] && [a] + [n] == [a, n];
  }

  /** A second replica is started, and its shard is stored although the agent is told otherwise. */
  method SurgeUnknown(agent: AppAgent, c: ServiceConfig, a: ManagedReplica, port: int) returns (n: ManagedReplica)
    requires agent.Valid() && agent.desired == [c] && OneServes(agent.host, c, a)
    requires agent.env.verdict(agent.step).Done? && agent.env.verdict(agent.step + 1).FailedAfter?
    modifies agent`host, agent`step, agent`history, agent`effects
    ensures agent.Valid() && agent.step == old(agent.step) + 2 && agent.host.live == [a, n] && a.id != n.id
    ensures n == NewReplica(c, old(agent.host).nextId, 1, "running", Some(port), None, None)
    ensures agent.host.cached == old(agent.host).cached == Some(Backends([a, n], Web(c), {n.id}))
    ensures Shows(agent.host, Backends([a, n], Web(c), {})) && !InStep(agent.host)
    ensures Routed(old(agent.host), Web(c), KeyOf(c)) ==> Routed(agent.host, Web(c), KeyOf(c))
    ensures agent.host.pubs != [] && Backend(n.id, port, RouteOf(c)) in agent.host.pubs[|agent.host.pubs| - 1].table
  {
    hide *;
    ghost var h := agent.host;
    agent.ValidHost();
    ServesParts(h, c, a);
    SecondStarts(h, c, a, agent.env.verdict(agent.step), agent.Later(), port);
    n := NewReplica(c, agent.host.nextId, 1, "running", Some(port), None, None);
    var ran := agent.RunContainer(c, 1, Some(port), None, None);
    TwoTables(c, a, n);
    OneRoute(c, agent.edge);
    StoredUnknown(agent.host, agent.Later(), Backends([a, n], Web(c), {}));
    BothRouted(h, agent.host, c, a, n, agent.Later());
    var told := agent.RefreshRouting({});
  }

  lemma BothRouted(h: Host, h': Host, c: ServiceConfig, a: ManagedReplica, n: ManagedReplica, t: int)
    requires h.live == [a] && h'.live == [a, n] && h'.pubs == h.pubs && h.now <= h'.now <= t
    ensures Routed(h, Web(c), KeyOf(c)) ==>
        Routed(AfterPublish(h', Verdict.FailedAfter, t, Backends(h'.live, Web(c), {})), Web(c), KeyOf(c))
  {
    hide KeyOf, RoutingSafe, Backends, Web, ReplicaKey;
    var web := Web(c);
    if Routed(h, web, KeyOf(c)) {
      assert a in h'.live;
      RoutedCarries(h, h', web, KeyOf(c));
      RoutedPublish(h', Verdict.FailedAfter, t, web, {}, KeyOf(c));
    }
  }

  /** Waiting changes nothing for a reachable service. */
  lemma StillRouted(h: Host, h': Host, web: set<Route>, key: string)
    requires h'.live == h.live && h'.pubs == h.pubs && h.now <= h'.now
    ensures Routed(h, web, key) ==> Routed(h', web, key)
    ensures Routed(h, web, key) ==> RoutingSafe(h, key)
  {
    hide ReplicaKey, RoutingSafe, Ready;
    if Routed(h, web, key) { RoutedCarries(h, h', web, key); }
  }

  lemma ServesParts(h: Host, c: ServiceConfig, a: ManagedReplica)
    requires OneServes(h, c, a)
    ensures c.ingress.Some? && c.ingress.value.edge == h.edge && IsNamePart(c.project) && IsNamePart(c.service) && Running(a) && a.hostPort.Some?
    ensures h.live == [a] && ReplicaKey(a) == KeyOf(c) && h.cached == Some(Backends([a], Web(c), {}))
  {
    hide Backends, WellFormed;
  }

  lemma StoredUnknown(h: Host, t: int, table: set<Backend>)
    requires h.cached.Some? && h.cached.value != table
    ensures var h' := AfterPublish(h, Verdict.FailedAfter, t, table);
            h'.pubs != [] && Shows(h', table) && h'.pubs[|h'.pubs| - 1].table == table && h'.cached == h.cached && h'.live == h.live && !InStep(h')
  {
  }

  /** A publish the agent takes to be superfluous, or one that fails outright, changes nothing. */
  lemma NothingStored(h: Host, v: Verdict, t: int, table: set<Backend>)
    requires h.cached == Some(table) || v.FailedBefore?
    ensures AfterPublish(h, v, t, table) == h.(now := t)
  {
  }

  /**
   The publish that follows the new replica is stored without the agent's knowledge, the one
   at the end of the tick fails, and the configuration is rolled back. The new replica is now
   the one to drain; the shard without it equals the last one known to be stored, so nothing
   is stored, and after the wait it is stopped while the edge still routes to it.
   */
  method StopsARoutedReplica(agent: AppAgent, c: ServiceConfig, a: ManagedReplica, port: int) returns (told: bool)
    requires agent.Valid() && agent.desired == [c] && OneServes(agent.host, c, a)
    requires agent.env.verdict(agent.step).Done? && agent.env.verdict(agent.step + 1).FailedAfter?
    requires agent.env.verdict(agent.step + 2).FailedBefore? && agent.env.verdict(agent.step + 3).Done? && agent.env.others(agent.step + 3)
    modifies agent`host, agent`step, agent`history, agent`effects
    ensures told && agent.host.live == [a] && !RoutingSafe(agent.host, KeyOf(c)) && KeyOf(c) in agent.host.cut
    ensures Routed(old(agent.host), Web(c), KeyOf(c)) ==>
              |agent.history| >= 2 && RoutingSafe(agent.history[|agent.history| - 2], KeyOf(c))
  {
    hide *;
    ghost var h := agent.host;
    ServesParts(h, c, a);
    agent.ValidHost();
    OneRoute(c, agent.edge);
    RouteKey(c);
    var n := SurgeUnknown(agent, c, a, port);
    NewReplicaFacts(c, h.nextId, 1, Some(port), None, None);
    ghost var e, table := Backend(n.id, port, RouteOf(c)), Backends([a, n], Web(c), {});
    NothingStored(agent.host, agent.env.verdict(agent.step), agent.Later(), table);
    ghost var web, was := Web(c), agent.host;
    var atEnd := agent.RefreshRouting({});
    NothingStored(agent.host, agent.env.verdict(agent.step), agent.Later(), Backends([a, n], Web(c), {n.id}));
    told := agent.RefreshRouting({n.id});
    MaxFacts(0, WaitMs(c));
    agent.SleepMs(WaitMs(c));
    StillRouted(was, agent.host, web, KeyOf(c));
    StillRouted(agent.host, agent.host, web, KeyOf(c));
    assert n in agent.host.live by { assert agent.host.live[1] == n; }
    CutsTheRouted(agent.host, n, e, agent.Later());
    RemovalFacts(agent.host, IdNotIn({n.id}), agent.Later());
    OneLeft(a, n);
    WithoutIs([a, n], {n.id});
    agent.StopContainer(n.id, GraceSeconds(c));
    NamesTheStopped(agent.host, KeyOf(c), e);
  }

  /**
   The new replica is scaled down again instead. The publish that ends the tick is answered
   with success, yet what is stored still names the container that is gone.
   */
  method StoredShardStaysWrong(agent: AppAgent, c: ServiceConfig, a: ManagedReplica, port: int) returns (told: bool)
    requires agent.Valid() && agent.desired == [c] && OneServes(agent.host, c, a)
    requires agent.env.verdict(agent.step).Done? && agent.env.verdict(agent.step + 1).FailedAfter?
    requires agent.env.verdict(agent.step + 3).Done? && agent.env.others(agent.step + 3)
    modifies agent`host, agent`step, agent`history, agent`effects
    ensures told && agent.host.live == [a] && agent.host.cached == Some(Backends(agent.host.live, WebRoutes(agent.desired, agent.edge), {}))
    ensures agent.host.pubs != [] && !NamesRunning(agent.host.live, KeyOf(c), agent.host.pubs[|agent.host.pubs| - 1].table)
  {
    hide *;
    ghost var h := agent.host;
    ServesParts(h, c, a);
    agent.ValidHost();
    OneRoute(c, agent.edge);
    RouteKey(c);
    var n := SurgeUnknown(agent, c, a, port);
    NewReplicaFacts(c, h.nextId, 1, Some(port), None, None);
    ghost var e := Backend(n.id, port, RouteOf(c));
    assert n in agent.host.live by { assert agent.host.live[1] == n; }
    CutsTheRouted(agent.host, n, e, agent.Later());
    RemovalCache(agent.host, IdNotIn({n.id}), agent.Later());
    OneLeft(a, n);
    WithoutIs([a, n], {n.id});
    agent.RemoveContainer(n.id);
    NothingStored(agent.host, agent.env.verdict(agent.step), agent.Later(), Backends([a], Web(c), {}));
    told := agent.RefreshRouting({});
    NamesTheStopped(agent.host, KeyOf(c), e);
  }

  lemma RemovalCache(h: Host, keep: ManagedReplica -> bool, t: int)
    ensures AfterRemoval(h, keep, t).live == Keep(h.live, keep) && AfterRemoval(h, keep, t).cached == h.cached
  {
  }
}
