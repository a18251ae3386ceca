/**
 Pushing shards and cross-reading statuses give the same routing table; draining containers
 are routed as if they were not there.
 */
module RoutingProofs {
  import opened Common
  import opened Text
  import opened Types
  import opened Lists
  import opened Containers
  import opened Planner
  import opened Routing
  import opened CrossReading
  import H = Host

  /** An app node: its desired services, its containers as inspected, and which of them are draining. */
  datatype AppNode = AppNode(
    nodeId: string, privateIp: string, services: seq<ServiceConfig>, actual: seq<Group>, draining: set<nat>)

  /** The groups without the given containers. */
  function DropFrom(actual: seq<Group>, ids: set<nat>): (g: seq<Group>)
    ensures |g| == |actual|
    ensures forall i :: 0 <= i < |g| ==> g[i] == Group(actual[i].key, Without(actual[i].replicas, ids))
  {
    if actual == [] then []
    else [Group(actual[0].key, Without(actual[0].replicas, ids))] + DropFrom(actual[1..], ids)
  }

  /** What an edge cross-reads of the node once its draining containers are gone. */
  function View(n: AppNode): ClusterNode {
    ClusterNode(n.nodeId, Some(n.privateIp), Some(n.services), Some(BuildStatus(n.services, DropFrom(n.actual, n.draining))))
  }

  function Views(nodes: seq<AppNode>): (v: seq<ClusterNode>)
    ensures |v| == |nodes| && forall i :: 0 <= i < |v| ==> v[i] == View(nodes[i])
  {
    seq(|nodes|, i requires 0 <= i < |nodes| => View(nodes[i]))
  }

  /** The node's shard for the edge, if it publishes one. */
  function Pushed(edge: string, n: AppNode, now: string): seq<UpstreamShard> {
    if edge in Edges(n.services)
    then [UpstreamShard(n.nodeId, n.privateIp, now, ShardBackends(n.services, n.actual, n.draining, edge))]
    else []
  }

  function AllPushed(edge: string, nodes: seq<AppNode>, now: string): seq<UpstreamShard> {
    if nodes == [] then [] else AllPushed(edge, nodes[..|nodes| - 1], now) + Pushed(edge, nodes[|nodes| - 1], now)
  }

  // ---- draining containers ----

  lemma {:induction false} LookupDropped(actual: seq<Group>, ids: set<nat>, key: string)
    ensures Lookup(DropFrom(actual, ids), key) == Without(Lookup(actual, key), ids)
    decreases |actual|
  {
    hide Keep;
    if actual == [] {
      KeepNone(IdNotIn(ids));
    } else {
      LookupDropped(actual[1..], ids, key);
      assert DropFrom(actual, ids)[1..] == DropFrom(actual[1..], ids);
    }
  }

  lemma ShippedDropped(have: Live, ids: set<nat>)
    ensures Shipped(have, ids) == Shipped(Without(have, ids), {})
  {
    hide Keep;
    KeepBoth(have, IdNotIn(ids), Ships({}), Ships(ids));
  }

  // ---- one service ----

  function Addressed(ip: string, b: UpstreamBackend): EdgeBackend { EdgeBackend(b.domain, ip, b.hostPort) }

  function AddressAll(ip: string, s: seq<UpstreamBackend>): (r: seq<EdgeBackend>)
    ensures |r| == |s| && forall i :: 0 <= i < |r| ==> r[i] == Addressed(ip, s[i])
  {
    seq(|s|, i requires 0 <= i < |s| => Addressed(ip, s[i]))
  }

  lemma AddressAppend(ip: string, a: seq<UpstreamBackend>, b: seq<UpstreamBackend>)
    ensures AddressAll(ip, a + b) == AddressAll(ip, a) + AddressAll(ip, b)
  {
  }

  lemma RunningIsServing(r: ManagedReplica)
    ensures Serves(ReplicaStatusOf(r)) <==> Ships({})(r)
  {
  }

  lemma ShippedNext(front: Live, r: ManagedReplica)
    ensures Shipped(front + [r], {}) == if Ships({})(r) then Shipped(front, {}) + [r] else Shipped(front, {})
  {
    hide Keep;
    KeepLast(front, r, Ships({}));
  }

  lemma StatusesNext(c: ServiceConfig, ip: string, front: Live, r: ManagedReplica)
    requires c.ingress.Some?
    ensures var st := ReplicaStatusOf(r);
            ReplicaBackends(c, ip, ReplicaStatuses(front + [r]))
            == ReplicaBackends(c, ip, ReplicaStatuses(front))
               + if Serves(st) then [EdgeBackend(c.ingress.value.domain, ip, st.hostPort.value)] else []
  {
    hide ReplicaStatusOf, Serves;
    var s := ReplicaStatuses(front + [r]);
    assert s[..|s| - 1] == ReplicaStatuses(front);
  }

  lemma ServiceBackendsNext(c: ServiceConfig, ip: string, front: Live, r: ManagedReplica)
    requires c.ingress.Some? && r.hostPort.Some? && forall i :: 0 <= i < |front| ==> front[i].hostPort.Some?
    ensures AddressAll(ip, ServiceBackends(c, front + [r]))
         == AddressAll(ip, ServiceBackends(c, front)) + [EdgeBackend(c.ingress.value.domain, ip, r.hostPort.value)]
  {
  }

  lemma {:induction false} SameReplicas(c: ServiceConfig, ip: string, have: Live)
    requires c.ingress.Some?
    ensures ReplicaBackends(c, ip, ReplicaStatuses(have)) == AddressAll(ip, ServiceBackends(c, Shipped(have, {})))
    decreases |have|
  {
    hide Keep, ReplicaBackends, ServiceBackends, Shipped, AddressAll;
    if have == [] {
      NoReplicas(c, ip);
    } else {
      var front, r := have[..|have| - 1], have[|have| - 1];
      SplitLast(have);
      SameReplicas(c, ip, front);
      StatusesNext(c, ip, front, r);
      RunningIsServing(r);
      ShippedNext(front, r);
      if Ships({})(r) { ServiceBackendsNext(c, ip, Shipped(front, {}), r); }
    }
  }

  lemma NoReplicas(c: ServiceConfig, ip: string)
    requires c.ingress.Some?
    ensures ReplicaBackends(c, ip, ReplicaStatuses([])) == [] == AddressAll(ip, ServiceBackends(c, Shipped([], {})))
  {
    KeepNone(Ships({}));
  }

  lemma {:induction false} OwnStatus(services: seq<ServiceConfig>, actual: seq<Group>, n: nat, i: nat)
    requires UniqueKeys(services) && i < n <= |services|
    ensures StatusOf(BuildStatus(services, actual)[..n], KeyOf(services[i])) == Some(BuildStatus(services, actual)[i])
    decreases n
  {
    hide Lookup, ServiceKey, ReplicaStatuses;
    var s := BuildStatus(services, actual)[..n];
    assert StatusKey(s[n - 1]) == KeyOf(services[n - 1]);
    if i < n - 1 {
      OwnStatus(services, actual, n - 1, i);
      assert s[..n - 1] == BuildStatus(services, actual)[..n - 1];
    }
  }

  lemma SameService(edge: string, ip: string, services: seq<ServiceConfig>, actual: seq<Group>, draining: set<nat>, i: nat)
    requires UniqueKeys(services) && i < |services|
    ensures CrossService(edge, ip, services[i], BuildStatus(services, DropFrom(actual, draining)))
         == AddressAll(ip, OneService(services[i], actual, draining, edge))
  {
    hide Lookup, ServiceKey, ReplicaStatuses, ReplicaBackends, ServiceBackends, Shipped, Without;
    var c, dropped := services[i], DropFrom(actual, draining);
    var status := BuildStatus(services, dropped);
    if ToEdge(c, edge) {
      OwnStatus(services, dropped, |services|, i);
      assert status[..|services|] == status;
      LookupDropped(actual, draining, KeyOf(c));
      ShippedDropped(Lookup(actual, KeyOf(c)), draining);
      SameReplicas(c, ip, Lookup(dropped, KeyOf(c)));
    }
  }

  // ---- one node, then all ----

  lemma {:induction false} SameServices(edge: string, ip: string, services: seq<ServiceConfig>, actual: seq<Group>,
            draining: set<nat>, n: nat)
    requires UniqueKeys(services) && n <= |services|
    ensures CrossServices(edge, ip, services[..n], BuildStatus(services, DropFrom(actual, draining)))
         == AddressAll(ip, ShardBackends(services[..n], actual, draining, edge))
    decreases n
  {
    hide CrossService, OneService, BuildStatus, DropFrom;
    if n > 0 {
      SameServices(edge, ip, services, actual, draining, n - 1);
      SameService(edge, ip, services, actual, draining, n - 1);
      var s := services[..n];
      assert s[..n - 1] == services[..n - 1];
      AddressAppend(ip, ShardBackends(s[..n - 1], actual, draining, edge), OneService(s[n - 1], actual, draining, edge));
    }
  }

  lemma {:induction false} NotRouted(edge: string, services: seq<ServiceConfig>, actual: seq<Group>, draining: set<nat>)
    requires edge !in Edges(services)
    ensures ShardBackends(services, actual, draining, edge) == []
    decreases |services|
  {
    hide OneService;
    if services != [] {
      SplitLast(services);
      NotRouted(edge, services[..|services| - 1], actual, draining);
      assert services[|services| - 1] in services;
      OneServiceIs(services[|services| - 1], actual, draining, edge);
    }
  }

  lemma SameNode(edge: string, n: AppNode, now: string)
    requires UniqueKeys(n.services) && n.nodeId != edge && n.privateIp != ""
    ensures CrossNode(edge, View(n)) == Flat(Pushed(edge, n, now))
  {
    hide CrossServices, ShardBackends, BuildStatus, DropFrom;
    SameServices(edge, n.privateIp, n.services, n.actual, n.draining, |n.services|);
    assert n.services[..|n.services|] == n.services;
    if edge in Edges(n.services) {
      var shard := UpstreamShard(n.nodeId, n.privateIp, now, ShardBackends(n.services, n.actual, n.draining, edge));
      assert [shard][..0] == [];
      assert Flat([shard]) == OneShard(shard);
      assert OneShard(shard) == AddressAll(n.privateIp, shard.backends);
    } else {
      NotRouted(edge, n.services, n.actual, n.draining);
    }
  }

  lemma FlatAppend(a: seq<UpstreamShard>, b: seq<UpstreamShard>)
    requires |b| <= 1
    ensures Flat(a + b) == Flat(a) + Flat(b)
  {
    if b == [] {
      assert a + b == a;
      assert Flat(a) + [] == Flat(a);
    } else {
      assert (a + b)[..|a|] == a && b[..0] == [];
      assert Flat(b) == [] + OneShard(b[0]);
    }
  }

  /**
   Push routing refines cross-reading: over any nodes with unique service keys, grouping the
   pushed shards gives the table cross-reading gives, domain by domain and in the same
   order, on statuses built from the same containers minus those draining.
   */
  lemma {:induction false} PushIsCrossRead(edge: string, nodes: seq<AppNode>, now: string)
    requires forall i :: 0 <= i < |nodes| ==> UniqueKeys(nodes[i].services) && nodes[i].nodeId != edge && nodes[i].privateIp != ""
    ensures Flat(AllPushed(edge, nodes, now)) == CrossFlat(edge, Views(nodes))
    ensures ByDomain(Flat(AllPushed(edge, nodes, now))) == ByDomain(CrossFlat(edge, Views(nodes)))
    decreases |nodes|
  {
    hide CrossNode, View, Pushed, ByDomain, Flat, UniqueKeys;
    if nodes == [] {
      NoShards();
    } else {
      var front, n := nodes[..|nodes| - 1], nodes[|nodes| - 1];
      PushIsCrossRead(edge, front, now);
      SameNode(edge, n, now);
      PushedOnce(edge, n, now);
      FlatAppend(AllPushed(edge, front, now), Pushed(edge, n, now));
      var views := Views(nodes);
      assert views[..|views| - 1] == Views(front);
    }
  }

  lemma NoShards()
    ensures Flat([]) == []
  {
  }

  lemma PushedOnce(edge: string, n: AppNode, now: string)
    ensures |Pushed(edge, n, now)| <= 1
  {
  }

  /** With nothing draining, the statuses are those of all containers. */
  lemma NothingDropped(actual: seq<Group>)
    ensures DropFrom(actual, {}) == actual
  {
    hide Keep;
    forall i | 0 <= i < |actual| ensures Without(actual[i].replicas, {}) == actual[i].replicas {
      KeepAll(actual[i].replicas, IdNotIn({}));
    }
  }

  // ---- shards and the set of routable containers ----

  /** The lines of the shard for one edge, with the container behind each. */
  function ShippedLines(services: seq<ServiceConfig>, edge: string, actual: seq<Group>, excluded: set<nat>): set<H.Backend> {
    set c, r | c in services && c.ingress.Some? && c.ingress.value.edge == edge && r in Shipped(Lookup(actual, KeyOf(c)), excluded)
      :: H.Backend(r.id, if r.hostPort.Some? then r.hostPort.value else 0, H.RouteOf(c))
  }

  /** The table a rollout publishes for an edge has exactly the lines its shard lists. */
  lemma ShardsNameRoutable(services: seq<ServiceConfig>, edge: string, actual: seq<Group>, live: Live, excluded: set<nat>)
    requires forall k :: multiset(Lookup(actual, k)) == multiset(Mine(live, k))
    ensures ShippedLines(services, edge, actual, excluded) == H.Backends(live, H.WebRoutes(services, edge), excluded)
  {
    hide Keep, KeyOf, ReplicaKey, Lookup;
    forall k, r ensures r in Lookup(actual, k) <==> r in live && ReplicaKey(r) == k {
      Rearranged(Lookup(actual, k), Mine(live, k));
    }
    var web := H.WebRoutes(services, edge);
    var table := H.Backends(live, web, excluded);
    forall e | e in table ensures e in ShippedLines(services, edge, actual, excluded) {
      var r, w :| r in live && w in web && H.Routable(r, w, excluded) && e == H.Backend(r.id, r.hostPort.value, w);
      var c :| c in services && c.ingress.Some? && c.ingress.value.edge == edge && H.RouteOf(c) == w;
      assert r in Lookup(actual, KeyOf(c));
      assert r in Shipped(Lookup(actual, KeyOf(c)), excluded);
    }
    forall e | e in ShippedLines(services, edge, actual, excluded) ensures e in table {
      var c, r :| c in services && c.ingress.Some? && c.ingress.value.edge == edge && r in Shipped(Lookup(actual, KeyOf(c)), excluded)
                  && e == H.Backend(r.id, if r.hostPort.Some? then r.hostPort.value else 0, H.RouteOf(c));
      assert r in live && H.Routable(r, H.RouteOf(c), excluded);
    }
  }
}
