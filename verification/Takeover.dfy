/**
 What goes over the wire is a port. A line of a table the edge can hold reaches the container
 it names exactly while that one runs; afterwards the port can be another's, whose health
 gate has not opened.
 */
module Takeover {
  import opened Common
  import opened Text
  import opened Types
  import opened Lists
  import opened Containers
  import opened Health
  import opened Host
  import opened Docker
  import opened RolloutShape
  import opened Agent
  import opened Apply

  /** No two running containers publish one port. */
  ghost predicate DistinctPorts(live: Live) {
    forall a, b :: a in live && b in live && Running(a) && Running(b) && a.hostPort.Some? && a.hostPort == b.hostPort ==> a == b
  }

  /** Requests sent along the line arrive at this container. */
  predicate Arrives(e: Backend, r: ManagedReplica) { Running(r) && r.hostPort == Some(e.port) }

  /** Requests sent along the line arrive at the container it names, of its own service, and only there. */
  ghost predicate ReachesItsOwn(live: Live, key: string, e: Backend) {
    && (exists r :: r in live && Arrives(e, r))
    && (forall r :: r in live && Arrives(e, r) ==> r.id == e.id && ReplicaKey(r) == key)
  }

  /** A line reaches its own container if and only if that container runs. */
  lemma ReachesIff(h: Host, key: string, e: Backend)
    requires WellFormed(h) && DistinctPorts(h.live)
    ensures ReachesItsOwn(h.live, key, e) <==> Answers(h.live, key, e)
  {
    hide ReplicaKey, DistinctIds, DistinctNames;
    if Answers(h.live, key, e) {
      var r :| r in h.live && r.id == e.id && ReplicaKey(r) == key && Running(r) && r.hostPort == Some(e.port);
      assert Arrives(e, r);
    }
  }

  /** So every line of a reachable service that the edge can hold reaches its own container. */
  lemma SafeLinesReach(h: Host, key: string, i: nat, e: Backend)
    requires WellFormed(h) && DistinctPorts(h.live) && RoutingSafe(h, key) && MayHold(h, i)
    requires e in h.pubs[i].table && e.route.key == key
    ensures ReachesItsOwn(h.live, key, e)
  {
    hide ReplicaKey, DistinctIds, DistinctNames, DistinctPorts, ReachesItsOwn;
    ReachesIff(h, key, e);
  }

  /** A replica `x` of a service about to shrink, named by the table last stored, at the port filed for it. */
  ghost predicate Shrinking(h: Host, ports: map<string, int>, x: ManagedReplica, e: Backend) {
    && WellFormed(h) && h.live == [x] && Running(x) && x.hostPort == Some(e.port)
    && h.pubs != [] && e in h.pubs[|h.pubs| - 1].table && e.id == x.id && e.route.key == ReplicaKey(x)
    && h.nextId !in h.passed
  }

  /**
   A scale-down removes `x` and frees its port; another service, rolled out next, is given the
   port for its new replica. Before that replica's health is even asked for, requests the edge
   sends along the line it still holds arrive there.
   */
  method ReachesAnUngatedReplica(agent: AppAgent, c: ServiceConfig, x: ManagedReplica, ghost e: Backend) returns (n: ManagedReplica)
    requires agent.Valid() && Shrinking(agent.host, agent.ports, x, e)
    requires KeyOf(c) != ReplicaKey(x) && IsNamePart(c.project) && IsNamePart(c.service)
    requires PortSlot(KeyOf(c), 1) !in agent.ports
    requires agent.env.port(agent.step + 2) == e.port && agent.env.verdict(agent.step + 3).Done?
    modifies agent`host, agent`step, agent`history, agent`effects, agent`ports
    ensures agent.host.live == [n] && ReplicaKey(n) == KeyOf(c) && n.id !in agent.host.passed
    ensures agent.host.pubs != [] && MayHold(agent.host, |agent.host.pubs| - 1) && e in agent.host.pubs[|agent.host.pubs| - 1].table
    ensures e.route.key != KeyOf(c) && Arrives(e, n) && !ReachesItsOwn(agent.host.live, e.route.key, e)
  {
    hide *;
    ghost var h := agent.host;
    ShrinkingParts(h, agent.ports, x, e);
    RemovalFacts(h, IdNotIn({x.id}), agent.Later());
    RemovalPubs(h, IdNotIn({x.id}), agent.Later());
    DropOnly(x);
    agent.RemoveContainer(x.id);
    agent.ReleasePort(ReplicaKey(x), x.index);
    var port := agent.AllocatePort(KeyOf(c), 1);
    agent.ValidHost();
    NewReplicaFacts(c, agent.host.nextId, 1, Some(port), None, None);
    NameFree(agent.host, c, 1);
    n := NewReplica(c, agent.host.nextId, 1, "running", Some(port), None, None);
    RanFacts(agent.host, agent.env.verdict(agent.step), agent.Later(), n);
    var ran := agent.RunContainer(c, 1, Some(port), None, None);
    assert [] + [n] == [n];
    PortOf(c, port, n, h.nextId);
    TakenBy(agent.host, e, n);
  }

  lemma ShrinkingParts(h: Host, ports: map<string, int>, x: ManagedReplica, e: Backend)
    requires Shrinking(h, ports, x, e)
    ensures WellFormed(h) && h.live == [x] && e.id == x.id && e.route.key == ReplicaKey(x) && h.nextId !in h.passed
    ensures h.pubs != [] && e in h.pubs[|h.pubs| - 1].table
  {
    hide WellFormed, ReplicaKey;
  }

  lemma RemovalPubs(h: Host, keep: ManagedReplica -> bool, t: int)
    ensures AfterRemoval(h, keep, t).pubs == h.pubs
  {
  }

  lemma DropOnly(x: ManagedReplica)
    ensures Keep([x], IdNotIn({x.id})) == []
  {
    assert [x][..0] == [];
  }

  lemma PortOf(c: ServiceConfig, port: int, n: ManagedReplica, id: nat)
    requires n == NewReplica(c, id, 1, "running", Some(port), None, None)
    ensures n.hostPort == Some(port) && n.id == id && Running(n)
  {
  }

  lemma TakenBy(h: Host, e: Backend, n: ManagedReplica)
    requires h.live == [n] && Running(n) && n.hostPort == Some(e.port) && ReplicaKey(n) != e.route.key
    requires h.pubs != []
    ensures Arrives(e, n) && MayHold(h, |h.pubs| - 1) && !ReachesItsOwn(h.live, e.route.key, e)
  {
    hide ReplicaKey;
    assert n in h.live;
  }
}
