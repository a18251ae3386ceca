/**
 Routing by push (`upstream.rs`, `edge.rs`): each app node publishes a shard of backends
 per edge, and the edge groups the shards it reads by domain.
 */
module Routing {
  import opened Common
  import opened Text
  import opened Types
  import opened Lists
  import opened Containers
  import opened Planner

  datatype UpstreamBackend = UpstreamBackend(domain: string, hostPort: int, healthPath: Option<string>)

  datatype UpstreamShard = UpstreamShard(nodeId: string, privateIp: string, updatedAt: string, backends: seq<UpstreamBackend>)

  datatype EdgeBackend = EdgeBackend(domain: string, privateIp: string, hostPort: int)

  // ---- what a node publishes ----

  /** A running container with a published port that is not draining. */
  function Ships(excluded: set<nat>): ManagedReplica -> bool {
    (r: ManagedReplica) => Running(r) && r.hostPort.Some? && r.id !in excluded
  }

  function Shipped(have: Live, excluded: set<nat>): (s: Live)
    ensures forall i :: 0 <= i < |s| ==> s[i].hostPort.Some?
  {
    var s := Keep(have, Ships(excluded));
    assert forall i :: 0 <= i < |s| ==> s[i] in s;
    s
  }

  /** The backends of one service, in replica order. */
  function ServiceBackends(c: ServiceConfig, shipped: Live): (b: seq<UpstreamBackend>)
    requires c.ingress.Some? && forall i :: 0 <= i < |shipped| ==> shipped[i].hostPort.Some?
    ensures |b| == |shipped|
    ensures forall i :: 0 <= i < |b| ==>
              b[i] == UpstreamBackend(c.ingress.value.domain, shipped[i].hostPort.value,
                                      if c.healthCheck.Some? then Some(c.healthCheck.value.path) else None)
  {
    if shipped == [] then []
    else
      ServiceBackends(c, shipped[..|shipped| - 1])
      + [UpstreamBackend(c.ingress.value.domain, shipped[|shipped| - 1].hostPort.value,
                         if c.healthCheck.Some? then Some(c.healthCheck.value.path) else None)]
  }

  predicate ToEdge(c: ServiceConfig, edge: string) { c.ingress.Some? && c.ingress.value.edge == edge }

  function OneService(c: ServiceConfig, actual: seq<Group>, excluded: set<nat>, edge: string): seq<UpstreamBackend> {
    if ToEdge(c, edge) then ServiceBackends(c, Shipped(Lookup(actual, KeyOf(c)), excluded)) else []
  }

  /** The backends of all services routed by one edge, in configuration order. */
  function ShardBackends(services: seq<ServiceConfig>, actual: seq<Group>, excluded: set<nat>,
            edge: string): seq<UpstreamBackend> {
    if services == [] then []
    else ShardBackends(services[..|services| - 1], actual, excluded, edge)
         + OneService(services[|services| - 1], actual, excluded, edge)
  }

  function Edges(services: seq<ServiceConfig>): set<string> {
    set c | c in services && c.ingress.Some? :: c.ingress.value.edge
  }

  /** Every edge named by a service gets a shard, even an empty one. */
  ghost predicate ShardsBuilt(shards: map<string, UpstreamShard>, nodeId: string, privateIp: string, services: seq<ServiceConfig>,
                              actual: seq<Group>, excluded: set<nat>, now: string)
  {
    && shards.Keys == Edges(services)
    && forall e :: e in shards ==> shards[e] == UpstreamShard(nodeId, privateIp, now, ShardBackends(services, actual, excluded, e))
  }

  lemma EdgesNext(services: seq<ServiceConfig>, i: nat)
    requires i < |services|
    ensures Edges(services[..i + 1])
         == Edges(services[..i]) + if services[i].ingress.Some? then {services[i].ingress.value.edge} else {}
  {
    assert services[..i + 1] == services[..i] + [services[i]];
  }

  /** Push one service's backends onto its shard. */
  method PushBackends(shard0: UpstreamShard, c: ServiceConfig, reps: Live) returns (shard: UpstreamShard)
    requires c.ingress.Some? && forall i :: 0 <= i < |reps| ==> reps[i].hostPort.Some?
    ensures shard == shard0.(backends := shard0.backends + ServiceBackends(c, reps))
  {
    shard := shard0;
    for j := 0 to |reps|
      invariant shard == shard0.(backends := shard0.backends + ServiceBackends(c, reps[..j]))
    {
      assert reps[..j + 1][..j] == reps[..j];
      shard := shard.(backends := shard.backends
        + [UpstreamBackend(c.ingress.value.domain, reps[j].hostPort.value,
                           if c.healthCheck.Some? then Some(c.healthCheck.value.path) else None)]);
    }
    assert reps[..|reps|] == reps;
  }

  lemma BackendsNext(services: seq<ServiceConfig>, i: nat, actual: seq<Group>, excluded: set<nat>, edge: string)
    requires i < |services|
    ensures ShardBackends(services[..i + 1], actual, excluded, edge)
         == ShardBackends(services[..i], actual, excluded, edge) + OneService(services[i], actual, excluded, edge)
  {
    hide OneService;
    assert services[..i + 1][..i] == services[..i];
  }

  lemma OneServiceIs(c: ServiceConfig, actual: seq<Group>, excluded: set<nat>, edge: string)
    ensures ToEdge(c, edge) ==>
        OneService(c, actual, excluded, edge) == ServiceBackends(c, Shipped(Lookup(actual, KeyOf(c)), excluded))
    ensures !ToEdge(c, edge) ==> OneService(c, actual, excluded, edge) == []
  {
    hide Lookup, Shipped, ServiceBackends;
  }

  /** An empty shard for every edge named by a service. */
  method EmptyShards(nodeId: string, privateIp: string, services: seq<ServiceConfig>, now: string)
    returns (shards: map<string, UpstreamShard>)
    ensures shards.Keys == Edges(services)
    ensures forall e :: e in shards ==> shards[e] == UpstreamShard(nodeId, privateIp, now, [])
  {
    shards := map[];
    assert Edges(services[..0]) == {};
    for i := 0 to |services|
      invariant shards.Keys == Edges(services[..i])
      invariant forall e :: e in shards ==> shards[e] == UpstreamShard(nodeId, privateIp, now, [])
    {
      EdgesNext(services, i);
      var c := services[i];
      if c.ingress.Some? && c.ingress.value.edge !in shards {
        shards := shards[c.ingress.value.edge := UpstreamShard(nodeId, privateIp, now, [])];
      }
    }
    assert services[..|services|] == services;
  }

  method BuildUpstreamShards(nodeId: string, privateIp: string, services: seq<ServiceConfig>, actual: seq<Group>,
                             excluded: set<nat>, now: string)
    returns (shards: map<string, UpstreamShard>)
    ensures ShardsBuilt(shards, nodeId, privateIp, services, actual, excluded, now)
  {
    hide Keep, KeyOf, Lookup, ShardBackends, OneService, ServiceBackends, Shipped;
    shards := EmptyShards(nodeId, privateIp, services, now);
    forall e ensures ShardBackends(services[..0], actual, excluded, e) == [] { NoBackends(actual, excluded, e); }
    for i := 0 to |services|
      invariant shards.Keys == Edges(services)
      invariant forall e :: e in shards ==>
                  shards[e] == UpstreamShard(nodeId, privateIp, now, ShardBackends(services[..i], actual, excluded, e))
    {
      var c := services[i];
      forall e ensures ShardBackends(services[..i + 1], actual, excluded, e)
                    == ShardBackends(services[..i], actual, excluded, e) + OneService(c, actual, excluded, e)
        ensures !ToEdge(c, e) ==> OneService(c, actual, excluded, e) == []
      {
        BackendsNext(services, i, actual, excluded, e);
        OneServiceIs(c, actual, excluded, e);
      }
      if c.ingress.Some? {
        var edge := c.ingress.value.edge;
        assert c in services;
        OneServiceIs(c, actual, excluded, edge);
        var shard := PushBackends(shards[edge], c, Shipped(Lookup(actual, KeyOf(c)), excluded));
        shards := shards[edge := shard];
      }
    }
    assert services[..|services|] == services;
  }

  lemma NoBackends(actual: seq<Group>, excluded: set<nat>, edge: string)
    ensures ShardBackends([], actual, excluded, edge) == []
  {
  }

  // ---- grouping by domain ----

  function OnDomain(d: string): EdgeBackend -> bool { (b: EdgeBackend) => b.domain == d }

  /** The domains in order of first appearance. */
  function Domains(flat: seq<EdgeBackend>): (ds: seq<string>)
    ensures forall d :: d in ds <==> exists b :: b in flat && b.domain == d
    ensures forall i, j :: 0 <= i < j < |ds| ==> ds[i] != ds[j]
  {
    if flat == [] then []
    else
      SplitLast(flat);
      var front, last := Domains(flat[..|flat| - 1]), flat[|flat| - 1];
      if last.domain in front then front else front + [last.domain]
  }

  function Listed(ds: seq<string>, flat: seq<EdgeBackend>): (r: seq<(string, seq<EdgeBackend>)>)
    ensures |r| == |ds| && forall i :: 0 <= i < |r| ==> r[i] == (ds[i], Keep(flat, OnDomain(ds[i])))
  {
    if ds == [] then [] else Listed(ds[..|ds| - 1], flat) + [(ds[|ds| - 1], Keep(flat, OnDomain(ds[|ds| - 1])))]
  }

  /** Domain by domain, in order of first appearance, the backends in order. */
  function ByDomain(flat: seq<EdgeBackend>): seq<(string, seq<EdgeBackend>)> { Listed(Domains(flat), flat) }

  /** A table under construction holds the first part of the list. */
  ghost predicate Holds(order: seq<string>, table: map<string, seq<EdgeBackend>>, flat: seq<EdgeBackend>) {
    && order == Domains(flat)
    && (forall d :: d in table <==> d in order)
    && (forall d :: d in table ==> table[d] == Keep(flat, OnDomain(d)))
  }

  lemma DomainsNext(flat: seq<EdgeBackend>, b: EdgeBackend)
    ensures Domains(flat + [b]) == if b.domain in Domains(flat) then Domains(flat) else Domains(flat) + [b.domain]
  {
    assert (flat + [b])[..|flat|] == flat;
  }

  lemma KeepNext(flat: seq<EdgeBackend>, b: EdgeBackend, d: string)
    ensures Keep(flat + [b], OnDomain(d)) == if b.domain == d then Keep(flat, OnDomain(d)) + [b] else Keep(flat, OnDomain(d))
  {
    hide Keep;
    KeepLast(flat, b, OnDomain(d));
  }

  lemma KeepAbsent(flat: seq<EdgeBackend>, d: string)
    requires d !in Domains(flat)
    ensures Keep(flat, OnDomain(d)) == []
  {
    hide Keep;
    KeepsNothing(flat, OnDomain(d));
  }

  lemma GrownTable(table: map<string, seq<EdgeBackend>>, d: string, s: seq<EdgeBackend>)
    ensures var t := table[d := s]; t[d] == s && (forall e :: e in t <==> e in table || e == d) && forall e :: e in table && e != d ==> t[e] == table[e]
  {
  }

  /** Adding one more backend to the table. */
  lemma HoldsNext(order: seq<string>, table: map<string, seq<EdgeBackend>>, flat: seq<EdgeBackend>, b: EdgeBackend)
    requires Holds(order, table, flat)
    ensures Holds(if b.domain in table then order else order + [b.domain],
                  table[b.domain := (if b.domain in table then table[b.domain] else []) + [b]], flat + [b])
  {
    hide Keep, Domains, OnDomain;
    var entry := (if b.domain in table then table[b.domain] else []) + [b];
    var t := table[b.domain := entry];
    GrownTable(table, b.domain, entry);
    DomainsNext(flat, b);
    KeepNext(flat, b, b.domain);
    if b.domain !in table { KeepAbsent(flat, b.domain); }
    forall d | d in t ensures t[d] == Keep(flat + [b], OnDomain(d)) {
      KeepNext(flat, b, d);
    }
  }

  lemma HoldsNothing()
    ensures Holds([], map[], [])
  {
  }

  /** Read the finished table off in order. */
  method ReadOff(order: seq<string>, table: map<string, seq<EdgeBackend>>, ghost flat: seq<EdgeBackend>)
    returns (out: seq<(string, seq<EdgeBackend>)>)
    requires Holds(order, table, flat)
    ensures out == ByDomain(flat)
  {
    hide Keep;
    out := [];
    for i := 0 to |order|
      invariant out == Listed(order[..i], flat)
    {
      assert order[..i + 1][..i] == order[..i];
      out := out + [(order[i], table[order[i]])];
    }
    assert order[..|order|] == order;
  }

  function OneShard(s: UpstreamShard): (r: seq<EdgeBackend>)
    ensures |r| == |s.backends|
    ensures forall i :: 0 <= i < |r| ==> r[i] == EdgeBackend(s.backends[i].domain, s.privateIp, s.backends[i].hostPort)
  {
    seq(|s.backends|, i requires 0 <= i < |s.backends| => EdgeBackend(s.backends[i].domain, s.privateIp, s.backends[i].hostPort))
  }

  /** The backends of all shards, in order. */
  function Flat(shards: seq<UpstreamShard>): seq<EdgeBackend> {
    if shards == [] then [] else Flat(shards[..|shards| - 1]) + OneShard(shards[|shards| - 1])
  }

  method BuildEdgeBackendsFromShards(shards: seq<UpstreamShard>) returns (out: seq<(string, seq<EdgeBackend>)>)
    ensures out == ByDomain(Flat(shards))
  {
    hide Keep, Holds, Domains, ByDomain;
    var order: seq<string> := [];
    var table: map<string, seq<EdgeBackend>> := map[];
    HoldsNothing();
    for i := 0 to |shards|
      invariant Holds(order, table, Flat(shards[..i]))
    {
      var s := shards[i];
      ghost var flat := Flat(shards[..i]);
      assert flat + OneShard(s)[..0] == flat;
      for j := 0 to |s.backends|
        invariant Holds(order, table, flat + OneShard(s)[..j])
      {
        var b := EdgeBackend(s.backends[j].domain, s.privateIp, s.backends[j].hostPort);
        HoldsNext(order, table, flat + OneShard(s)[..j], b);
        assert flat + OneShard(s)[..j] + [b] == flat + OneShard(s)[..j + 1];
        if b.domain !in table {
          order := order + [b.domain];
        }
        table := table[b.domain := (if b.domain in table then table[b.domain] else []) + [b]];
      }
      assert OneShard(s)[..|s.backends|] == OneShard(s);
      assert shards[..i + 1][..i] == shards[..i];
    }
    assert shards[..|shards|] == shards;
    out := ReadOff(order, table, Flat(shards));
  }

  /** Whether backend `j` of shard `i` carries a health path for the domain. */
  ghost predicate HasPath(shards: seq<UpstreamShard>, domain: string, i: nat, j: nat) {
    && i < |shards| && j < |shards[i].backends|
    && shards[i].backends[j].domain == domain && shards[i].backends[j].healthPath.Some?
  }

  /** No backend before `j` of shard `i`, in reading order, carries a path for the domain. */
  ghost predicate NoPathBefore(shards: seq<UpstreamShard>, domain: string, i: nat, j: nat) {
    forall a: nat, b: nat :: (a < i || (a == i && b < j)) ==> !HasPath(shards, domain, a, b)
  }

  /** The first health path published for a domain. */
  method EdgeHealthPathForDomain(shards: seq<UpstreamShard>, domain: string) returns (path: Option<string>)
    ensures path.Some? ==> exists i: nat, j: nat ::
              HasPath(shards, domain, i, j) && NoPathBefore(shards, domain, i, j) && path == shards[i].backends[j].healthPath
    ensures path.None? ==> NoPathBefore(shards, domain, |shards|, 0)
  {
    for i := 0 to |shards|
      invariant NoPathBefore(shards, domain, i, 0)
    {
      for j := 0 to |shards[i].backends|
        invariant NoPathBefore(shards, domain, i, j)
      {
        var b := shards[i].backends[j];
        if b.domain == domain && b.healthPath.Some? {
          assert HasPath(shards, domain, i, j);
          return b.healthPath;
        }
      }
    }
    return None;
  }
}

/**
 The simple form of routing (`buildEdgeBackendsByCrossRead` in `edge.ts`): join every node's
 desired services with its published status. Pushing and cross-reading give the same table.
 */
module CrossReading {
  import opened Common
  import opened Text
  import opened Types
  import opened Lists
  import opened Containers
  import opened Planner
  import opened Routing

  datatype ServiceState = PendingState | StartingState | RunningState | StoppedState

  datatype ReplicaStatus = ReplicaStatus(
    index: int, containerId: nat, hostPort: Option<int>, state: ServiceState, image: string, healthy: bool)

  datatype ServiceStatus = ServiceStatus(project: string, service: string, replicas: seq<ReplicaStatus>)

  /** One cluster member joined with its stored state, as the reading edge sees it. */
  datatype ClusterNode = ClusterNode(
    nodeId: string, privateIp: Option<string>, desired: Option<seq<ServiceConfig>>, status: Option<seq<ServiceStatus>>)

  function MapDockerState(state: string): ServiceState {
    if state == "running" then RunningState
    else if state == "exited" || state == "dead" then StoppedState
    else if state == "created" || state == "restarting" then StartingState
    else PendingState
  }

  function ReplicaStatusOf(r: ManagedReplica): ReplicaStatus {
    var state := MapDockerState(r.state);
    ReplicaStatus(r.index, r.id, r.hostPort, state, r.image, state == RunningState)
  }

  function ReplicaStatuses(have: Live): (s: seq<ReplicaStatus>)
    ensures |s| == |have| && forall i :: 0 <= i < |s| ==> s[i] == ReplicaStatusOf(have[i])
  {
    seq(|have|, i requires 0 <= i < |have| => ReplicaStatusOf(have[i]))
  }

  /** The replicas a node reports, one entry per desired service (`build_status` in `status.rs`). */
  function BuildStatus(services: seq<ServiceConfig>, actual: seq<Group>): (s: seq<ServiceStatus>)
    ensures |s| == |services|
    ensures forall i :: 0 <= i < |s| ==>
              s[i] == ServiceStatus(services[i].project, services[i].service, ReplicaStatuses(Lookup(actual, KeyOf(services[i]))))
  {
    seq(|services|, i requires 0 <= i < |services| =>
          ServiceStatus(services[i].project, services[i].service, ReplicaStatuses(Lookup(actual, KeyOf(services[i])))))
  }

  function StatusKey(s: ServiceStatus): string { ServiceKey(s.project, s.service) }

  /** The last entry of the key, as a map built from the list would hold. */
  function StatusOf(status: seq<ServiceStatus>, key: string): Option<ServiceStatus> {
    if status == [] then None
    else if StatusKey(status[|status| - 1]) == key then Some(status[|status| - 1])
    else StatusOf(status[..|status| - 1], key)
  }

  predicate Serves(r: ReplicaStatus) { r.state == RunningState && r.healthy && r.hostPort.Some? }

  function ReplicaBackends(c: ServiceConfig, ip: string, replicas: seq<ReplicaStatus>): seq<EdgeBackend>
    requires c.ingress.Some?
  {
    if replicas == [] then []
    else
      var r := replicas[|replicas| - 1];
      ReplicaBackends(c, ip, replicas[..|replicas| - 1])
      + if Serves(r) then [EdgeBackend(c.ingress.value.domain, ip, r.hostPort.value)] else []
  }

  function CrossService(edge: string, ip: string, c: ServiceConfig, status: seq<ServiceStatus>): seq<EdgeBackend> {
    if !ToEdge(c, edge) then []
    else match StatusOf(status, KeyOf(c))
         case None => []
         case Some(st) => ReplicaBackends(c, ip, st.replicas)
  }

  function CrossServices(edge: string, ip: string, services: seq<ServiceConfig>, status: seq<ServiceStatus>): seq<EdgeBackend> {
    if services == [] then []
    else CrossServices(edge, ip, services[..|services| - 1], status) + CrossService(edge, ip, services[|services| - 1], status)
  }

  predicate Readable(edge: string, n: ClusterNode) {
    n.nodeId != edge && n.privateIp.Some? && n.privateIp.value != "" && n.desired.Some? && n.status.Some?
  }

  function CrossNode(edge: string, n: ClusterNode): seq<EdgeBackend> {
    if Readable(edge, n) then CrossServices(edge, n.privateIp.value, n.desired.value, n.status.value) else []
  }

  function CrossFlat(edge: string, nodes: seq<ClusterNode>): seq<EdgeBackend> {
    if nodes == [] then [] else CrossFlat(edge, nodes[..|nodes| - 1]) + CrossNode(edge, nodes[|nodes| - 1])
  }

  /** A table of the statuses by key; a later entry replaces an earlier one. */
  method IndexStatus(status: seq<ServiceStatus>) returns (byKey: map<string, ServiceStatus>)
    ensures forall key :: (key in byKey <==> StatusOf(status, key).Some?) && (key in byKey ==> StatusOf(status, key) == Some(byKey[key]))
  {
    hide StatusKey;
    byKey := map[];
    for i := 0 to |status|
      invariant forall key :: (key in byKey <==> StatusOf(status[..i], key).Some?)
                           && (key in byKey ==> StatusOf(status[..i], key) == Some(byKey[key]))
    {
      assert status[..i + 1][..i] == status[..i];
      byKey := byKey[StatusKey(status[i]) := status[i]];
    }
    assert status[..|status|] == status;
  }

  /** Push one service's serving replicas onto the table. */
  method PushReplicas(c: ServiceConfig, ip: string, replicas: seq<ReplicaStatus>, order0: seq<string>,
                      table0: map<string, seq<EdgeBackend>>, ghost flat: seq<EdgeBackend>)
    returns (order: seq<string>, table: map<string, seq<EdgeBackend>>)
    requires c.ingress.Some? && Holds(order0, table0, flat)
    ensures Holds(order, table, flat + ReplicaBackends(c, ip, replicas))
  {
    hide Holds;
    order, table := order0, table0;
    assert flat + [] == flat;
    for j := 0 to |replicas|
      invariant Holds(order, table, flat + ReplicaBackends(c, ip, replicas[..j]))
    {
      var r := replicas[j];
      assert replicas[..j + 1][..j] == replicas[..j];
      ghost var before := flat + ReplicaBackends(c, ip, replicas[..j]);
      if Serves(r) {
        var b := EdgeBackend(c.ingress.value.domain, ip, r.hostPort.value);
        HoldsNext(order, table, before, b);
        assert before + [b] == flat + ReplicaBackends(c, ip, replicas[..j + 1]);
        if b.domain !in table {
          order := order + [b.domain];
        }
        table := table[b.domain := (if b.domain in table then table[b.domain] else []) + [b]];
      } else {
        assert before == flat + ReplicaBackends(c, ip, replicas[..j + 1]);
      }
    }
    assert replicas[..|replicas|] == replicas;
  }

  method BuildEdgeBackendsByCrossRead(edge: string, nodes: seq<ClusterNode>) returns (out: seq<(string, seq<EdgeBackend>)>)
    ensures out == ByDomain(CrossFlat(edge, nodes))
  {
    hide Holds, ByDomain, ReplicaBackends;
    var order: seq<string> := [];
    var table: map<string, seq<EdgeBackend>> := map[];
    HoldsNothing();
    for i := 0 to |nodes|
      invariant Holds(order, table, CrossFlat(edge, nodes[..i]))
    {
      var n := nodes[i];
      assert nodes[..i + 1][..i] == nodes[..i];
      ghost var flat := CrossFlat(edge, nodes[..i]);
      if Readable(edge, n) {
        var ip, services, status := n.privateIp.value, n.desired.value, n.status.value;
        var byKey := IndexStatus(status);
        assert flat + [] == flat;
        for k := 0 to |services|
          invariant Holds(order, table, flat + CrossServices(edge, ip, services[..k], status))
        {
          var c := services[k];
          assert services[..k + 1][..k] == services[..k];
          ghost var before := flat + CrossServices(edge, ip, services[..k], status);
          assert before + CrossService(edge, ip, c, status) == flat + CrossServices(edge, ip, services[..k + 1], status);
          if ToEdge(c, edge) && KeyOf(c) in byKey {
            order, table := PushReplicas(c, ip, byKey[KeyOf(c)].replicas, order, table, before);
          } else {
            assert before + [] == before;
          }
        }
        assert services[..|services|] == services;
      } else {
        assert flat + [] == flat;
      }
    }
    assert nodes[..|nodes|] == nodes;
    out := ReadOff(order, table, CrossFlat(edge, nodes));
  }
}
