/**
 What lies outside the agent's process: the containers of one node, the routing shards it
 has published, and a clock. Every effect the agent drives may fail, before or after it
 took hold; the environment decides.
 */
module Host {
  import opened Common
  import opened Text
  import opened Types
  import opened Lists
  import opened Containers
  import opened Health

  datatype Verdict = Done | FailedBefore | FailedAfter

  /** The environment's answers, by the number of the effect that asks. */
  datatype Env = Env(
    verdict: nat -> Verdict,
    /** the publish succeeds for every edge but the one watched */ others: nat -> bool,
    delay: nat -> nat,
    port: nat -> int,
    probe: nat -> (nat -> bool),
    clock: nat -> (nat -> int))

  /** Where a service's traffic enters: the edge in front of it, the domain, and the path that edge probes. */
  datatype Route = Route(key: string, edge: string, domain: string, healthPath: Option<string>)

  /** One line of a routing table: the container meant, and the host port that goes over the wire. */
  datatype Backend = Backend(id: nat, port: int, route: Route)

  /** A routing shard as stored: when, and what it says. */
  datatype Publish = Publish(at: int, table: set<Backend>)

  /** A node as one edge, any edge, is concerned: `pubs` and `cached` are that edge's shards alone. */
  datatype Host = Host(
    edge: string, live: Live, nextId: nat, now: int, pubs: seq<Publish>,
    /** the shard the agent last stored for certain; forgotten when it restarts */ cached: Option<set<Backend>>,
    /** how often a shard was stored although the agent was told otherwise */ unsure: nat,
    /** services of which a container was removed while the edge could still hold a table naming it */ cut: set<string>,
    /** containers whose health gate opened */ passed: set<nat>,
    /** runs the container runtime refused because the name was taken */ clashes: nat)

  /** An edge follows the stored shard within this long (`REMOTE_EDGE_DRAIN_FLOOR_MS`). */
  const DRAIN_FLOOR_MS := 90_000

  /** The edge can still hold shard `i`: its successor, if any, is not yet adopted for sure. */
  predicate MayHold(h: Host, i: nat) {
    i < |h.pubs| && (i + 1 < |h.pubs| ==> h.now < h.pubs[i + 1].at + DRAIN_FLOOR_MS)
  }

  predicate Names(table: set<Backend>, id: nat) { exists e :: e in table && e.id == id }

  /** Some table the edge can hold names the container. */
  predicate HeldNames(h: Host, id: nat) {
    exists i :: 0 <= i < |h.pubs| && MayHold(h, i) && Names(h.pubs[i].table, id)
  }

  ghost predicate OrderedPubs(h: Host) {
    && (forall i, j :: 0 <= i <= j < |h.pubs| ==> h.pubs[i].at <= h.pubs[j].at)
    && (forall i :: 0 <= i < |h.pubs| ==> h.pubs[i].at <= h.now)
  }

  /** Tables name only containers that have existed. */
  ghost predicate KnownTables(h: Host) {
    forall i, e :: 0 <= i < |h.pubs| && e in h.pubs[i].table ==> e.id < h.nextId
  }

  /** Identifiers and names are unique, and names are built from label-shaped parts. */
  ghost predicate WellFormed(h: Host) {
    && DistinctIds(h.live) && DistinctNames(h.live)
    && (forall r :: r in h.live ==> r.id < h.nextId && IsNamePart(r.project) && IsNamePart(r.service))
    && OrderedPubs(h) && KnownTables(h)
  }

  // ---- what is published ----

  function RouteOf(c: ServiceConfig): Route
    requires c.ingress.Some?
  {
    Route(KeyOf(c), c.ingress.value.edge, c.ingress.value.domain,
          if c.healthCheck.Some? then Some(c.healthCheck.value.path) else None)
  }

  /** The desired services in front of which the edge stands. */
  function WebRoutes(desired: seq<ServiceConfig>, edge: string): set<Route> {
    set c | c in desired && c.ingress.Some? && c.ingress.value.edge == edge :: RouteOf(c)
  }

  /** Some desired service has ingress, at whatever edge. */
  predicate HasWeb(desired: seq<ServiceConfig>) { exists c :: c in desired && c.ingress.Some? }

  lemma RoutesMeanWeb(desired: seq<ServiceConfig>, edge: string)
    ensures WebRoutes(desired, edge) != {} ==> HasWeb(desired)
  {
    hide RouteOf;
  }

  predicate Routable(r: ManagedReplica, w: Route, excluded: set<nat>) {
    Running(r) && r.hostPort.Some? && ReplicaKey(r) == w.key && r.id !in excluded
  }

  /** What the edge's shard says: the running containers with a port, not draining, of each service behind the edge. */
  function Backends(live: Live, web: set<Route>, excluded: set<nat>): set<Backend> {
    set r, w | r in live && w in web && Routable(r, w, excluded) :: Backend(r.id, r.hostPort.value, w)
  }

  /** The shard last stored. */
  ghost predicate Shows(h: Host, table: set<Backend>) { h.pubs != [] && h.pubs[|h.pubs| - 1].table == table }

  /** What the agent believes to be stored is what is stored. */
  ghost predicate InStep(h: Host) { h.cached.Some? ==> Shows(h, h.cached.value) }

  /** A shard equal to the last one stored for certain is not stored again. */
  function AfterPublish(h: Host, v: Verdict, t: int, table: set<Backend>): Host {
    if h.cached == Some(table) then h.(now := t)
    else match v
      case Done => h.(now := t, pubs := h.pubs + [Publish(t, table)], cached := Some(table))
      case FailedAfter => h.(now := t, pubs := h.pubs + [Publish(t, table)], unsure := h.unsure + 1)
      case FailedBefore => h.(now := t)
  }

  /** A publish that succeeds leaves its table stored if and only if it was stored now, or the agent was in step. */
  lemma PublishShowsIff(h: Host, v: Verdict, t: int, table: set<Backend>)
    requires v.Done?
    ensures AfterPublish(h, v, t, table).cached == Some(table)
    ensures Shows(AfterPublish(h, v, t, table), table) <==> h.cached != Some(table) || InStep(h)
  {
  }

  /**
   Agent and store stay in step through every publish but one that is stored without the
   agent's knowledge; any publish known to be stored brings them back in step.
   */
  lemma InStepAfterIff(h: Host, v: Verdict, t: int, table: set<Backend>)
    ensures var h' := AfterPublish(h, v, t, table);
            && h.unsure <= h'.unsure <= h.unsure + 1
            && (h'.unsure == h.unsure ==> (InStep(h') <==> InStep(h) || (v.Done? && h.cached != Some(table))))
            && (h'.unsure > h.unsure ==> (InStep(h') <==> h.cached.None?) && v.FailedAfter?)
  {
  }

  // ---- removing containers ----

  function CutBy(h: Host, keep: ManagedReplica -> bool): set<string> {
    set r | r in h.live && !keep(r) && HeldNames(h, r.id) :: ReplicaKey(r)
  }

  /** Containers go at once, whether or not the edge still routes to them; `cut` remembers if it could. */
  function AfterRemoval(h: Host, keep: ManagedReplica -> bool, t: int): Host {
    h.(now := t, live := Keep(h.live, keep), cut := h.cut + CutBy(h, keep))
  }

  // ---- routing safety, service by service ----

  /** The container a line names runs, as part of the service and at the line's port. */
  ghost predicate Answers(live: Live, key: string, e: Backend) {
    exists r :: r in live && r.id == e.id && ReplicaKey(r) == key && Running(r) && r.hostPort == Some(e.port)
  }

  /** Every container the table names for the service is running. */
  ghost predicate NamesRunning(live: Live, key: string, table: set<Backend>) {
    forall e :: e in table && e.route.key == key ==> Answers(live, key, e)
  }

  ghost predicate NamesSome(key: string, table: set<Backend>) { exists e :: e in table && e.route.key == key }

  /**
   Whatever table the edge holds, every container it names for the service is running, so
   none has been stopped too early, and it names at least one.
   */
  ghost predicate RoutingSafe(h: Host, key: string) {
    forall i: nat :: MayHold(h, i) ==> NamesRunning(h.live, key, h.pubs[i].table) && NamesSome(key, h.pubs[i].table)
  }

  /** The next shard will name a container of the service. */
  ghost predicate Ready(live: Live, web: set<Route>, key: string, excluded: set<nat>) {
    exists r, w :: r in live && w in web && w.key == key && Routable(r, w, excluded)
  }

  /** The service is reachable now, and stays so when the next shard is published. */
  ghost predicate Routed(h: Host, web: set<Route>, key: string) { RoutingSafe(h, key) && Ready(h.live, web, key, {}) }

  /** Every running container of the service is still there. */
  ghost predicate Survive(before: Live, live: Live, key: string) {
    forall r :: r in before && ReplicaKey(r) == key && Running(r) ==> r in live
  }

  /** No table the edge can hold names the container. */
  ghost predicate Unrouted(h: Host, id: nat) { forall i: nat :: MayHold(h, i) ==> !Names(h.pubs[i].table, id) }

  /** Time passing only rules tables out; a service whose running containers survive stays reachable. */
  lemma RoutedCarries(h: Host, h': Host, web: set<Route>, key: string)
    requires Routed(h, web, key) && h'.pubs == h.pubs && h.now <= h'.now && Survive(h.live, h'.live, key)
    ensures Routed(h', web, key)
  {
    hide ReplicaKey;
    forall i: nat | MayHold(h', i)
      ensures NamesRunning(h'.live, key, h'.pubs[i].table) && NamesSome(key, h'.pubs[i].table)
    {
      assert MayHold(h, i);
      forall e | e in h.pubs[i].table && e.route.key == key ensures Answers(h'.live, key, e) { assert Answers(h.live, key, e); }
    }
    var r, w :| r in h.live && w in web && w.key == key && Routable(r, w, {});
    assert r in h'.live;
  }

  lemma BackendsRun(live: Live, web: set<Route>, excluded: set<nat>, key: string)
    ensures NamesRunning(live, key, Backends(live, web, excluded))
    ensures Ready(live, web, key, excluded) <==> NamesSome(key, Backends(live, web, excluded))
  {
    hide ReplicaKey;
    if Ready(live, web, key, excluded) {
      var r, w :| r in live && w in web && w.key == key && Routable(r, w, excluded);
      assert Backend(r.id, r.hostPort.value, w) in Backends(live, web, excluded);
    }
  }

  /** A new shard keeps the service reachable when it names one of its containers. */
  lemma RoutedPublish(h: Host, v: Verdict, t: int, web: set<Route>, excluded: set<nat>, key: string)
    requires Routed(h, web, key) && t >= h.now && Ready(h.live, web, key, excluded)
    ensures Routed(AfterPublish(h, v, t, Backends(h.live, web, excluded)), web, key)
  {
    hide ReplicaKey, NamesRunning, NamesSome, Ready, Backends;
    var table := Backends(h.live, web, excluded);
    var h' := AfterPublish(h, v, t, table);
    BackendsRun(h.live, web, excluded, key);
    forall i: nat | MayHold(h', i)
      ensures NamesRunning(h'.live, key, h'.pubs[i].table) && NamesSome(key, h'.pubs[i].table)
    {
      if i < |h.pubs| {
        assert h'.pubs[i] == h.pubs[i];
        if i + 1 < |h.pubs| { assert h'.pubs[i + 1] == h.pubs[i + 1]; }
        assert MayHold(h, i);
      }
    }
  }

  /** Removing containers no held table names keeps the service reachable, if one is left, and cuts nothing. */
  lemma RoutedRemoval(h: Host, keep: ManagedReplica -> bool, t: int, web: set<Route>, key: string)
    requires t >= h.now && forall r :: r in h.live && !keep(r) ==> Unrouted(h, r.id)
    ensures AfterRemoval(h, keep, t).cut == h.cut
    ensures Routed(h, web, key) && Ready(Keep(h.live, keep), web, key, {}) ==> Routed(AfterRemoval(h, keep, t), web, key)
  {
    hide ReplicaKey, Ready;
    var h' := AfterRemoval(h, keep, t);
    forall r | r in h.live && !keep(r) ensures !HeldNames(h, r.id) { }
    assert CutBy(h, keep) == {};
    forall i: nat | Routed(h, web, key) && MayHold(h', i)
      ensures NamesRunning(h'.live, key, h'.pubs[i].table) && NamesSome(key, h'.pubs[i].table)
    {
      assert MayHold(h, i);
      forall e | e in h.pubs[i].table && e.route.key == key ensures Answers(h'.live, key, e) {
        assert Answers(h.live, key, e);
        var r :| r in h.live && r.id == e.id && ReplicaKey(r) == key && Running(r) && r.hostPort == Some(e.port);
        assert Names(h.pubs[i].table, r.id);
        assert r in h'.live;
      }
    }
  }

  /** Once the floor has passed since the last publish, the edge holds that shard alone. */
  lemma OnlyLastHeld(h: Host, i: nat)
    requires OrderedPubs(h) && h.pubs != []
    requires h.now >= h.pubs[|h.pubs| - 1].at + DRAIN_FLOOR_MS
    requires MayHold(h, i)
    ensures i == |h.pubs| - 1
  {
    assert forall k :: 0 <= k < |h.pubs| ==> h.pubs[k].at <= h.pubs[|h.pubs| - 1].at;
  }

  /** After a publish that succeeds and the floor, a container it leaves out is safe to stop exactly when it was really stored. */
  lemma DrainedIff(h: Host, v: Verdict, t: int, until: int, table: set<Backend>, id: nat)
    requires WellFormed(h) && h.now <= t && t + DRAIN_FLOOR_MS <= until && v.Done? && !Names(table, id)
    ensures var h' := AfterPublish(h, v, t, table).(now := until);
            Unrouted(h', id) <==> h.cached != Some(table) || h.pubs == [] || !Names(h.pubs[|h.pubs| - 1].table, id)
  {
    hide DistinctIds, DistinctNames, Names;
    var stored := AfterPublish(h, v, t, table);
    var h' := stored.(now := until);
    if h'.pubs != [] {
      assert MayHold(h', |h'.pubs| - 1);
      forall i: nat | MayHold(h', i) ensures i == |h'.pubs| - 1 { OnlyLastHeld(h', i); }
    }
  }

  // ---- what an action of one service does to routing ----

  /**
   What only grows: shards stored for the edge, none at all while no service is behind it;
   identifiers; and gates opened, all of containers started since.
   */
  ghost predicate Onward(web: set<Route>, a: Host, h: Host) {
    && h.edge == a.edge && a.nextId <= h.nextId && a.pubs <= h.pubs
    && (web == {} ==> h.pubs == a.pubs && h.cached == a.cached && h.unsure == a.unsure)
    && a.passed <= h.passed && (forall id :: id in h.passed ==> id in a.passed || id >= a.nextId)
  }

  lemma OnwardJoin(web: set<Route>, a: Host, m: Host, h: Host)
    requires Onward(web, a, m) && Onward(web, m, h)
    ensures Onward(web, a, h)
  {
  }

  /**
   From `a` to `h` an action of the service `key` was at work. Other services stay reachable
   if they were; a careful action cuts nothing and a serving one keeps its own service
   reachable too; agent and store stay in step unless a shard was stored unknown to it.
   */
  ghost predicate RoutesKept(web: set<Route>, key: string, careful: bool, serving: bool, a: Host, h: Host) {
    && Onward(web, a, h)
    && a.unsure <= h.unsure && (InStep(a) && h.unsure == a.unsure ==> InStep(h))
    && a.cut <= h.cut <= a.cut + {key} && (careful ==> h.cut == a.cut)
    && (forall k :: k != key && Routed(a, web, k) ==> Routed(h, web, k))
    && (serving && Routed(a, web, key) ==> Routed(h, web, key))
  }

  /** Steps that publish nothing. */
  lemma RoutesCarry(web: set<Route>, key: string, careful: bool, serving: bool, a: Host, h: Host, h': Host)
    requires RoutesKept(web, key, careful, serving, a, h)
    requires h'.pubs == h.pubs && h'.cached == h.cached && h'.unsure == h.unsure && h.now <= h'.now
    requires h'.edge == h.edge && h.nextId <= h'.nextId && h.passed <= h'.passed
    requires forall id :: id in h'.passed ==> id in h.passed || id >= a.nextId
    requires h.cut <= h'.cut <= h.cut + {key} && (careful ==> h'.cut == h.cut)
    requires Others(h'.live, key) == Others(h.live, key)
    requires serving && Routed(h, web, key) ==> Routed(h', web, key)
    ensures RoutesKept(web, key, careful, serving, a, h')
  {
    hide ReplicaKey, Routed, Keep;
    forall k | k != key && Routed(h, web, k) ensures Routed(h', web, k) {
      forall r | r in h.live && ReplicaKey(r) == k ensures r in h'.live {
        assert r in Others(h.live, key);
      }
      RoutedCarries(h, h', web, k);
    }
  }

  /** A publish that leaves out none but the service's own containers. */
  lemma RoutesPublish(web: set<Route>, key: string, careful: bool, serving: bool, a: Host, h: Host,
                      v: Verdict, t: int, excluded: set<nat>)
    requires RoutesKept(web, key, careful, serving, a, h) && t >= h.now && web != {}
    requires forall r :: r in h.live && r.id in excluded ==> ReplicaKey(r) == key
    requires serving && Routed(h, web, key) ==> Ready(h.live, web, key, excluded)
    ensures RoutesKept(web, key, careful, serving, a, AfterPublish(h, v, t, Backends(h.live, web, excluded)))
  {
    hide ReplicaKey, RoutingSafe, Keep, Backends;
    var table := Backends(h.live, web, excluded);
    InStepAfterIff(h, v, t, table);
    forall k | (k != key || serving) && Routed(h, web, k) ensures Routed(AfterPublish(h, v, t, table), web, k) {
      if k != key {
        var r, w :| r in h.live && w in web && w.key == k && Routable(r, w, {});
        assert Routable(r, w, excluded);
      }
      RoutedPublish(h, v, t, web, excluded, k);
    }
  }

  /** Actions one after the other, the second promising what is asked of both. */
  lemma RoutesJoin(web: set<Route>, key: string, careful: bool, serving: bool, careful': bool, serving': bool,
                   a: Host, m: Host, h: Host)
    requires RoutesKept(web, key, careful, serving, a, m) && RoutesKept(web, key, careful', serving', m, h)
    requires (careful ==> careful') && (serving ==> serving')
    ensures RoutesKept(web, key, careful, serving, a, h)
  {
    hide Routed, InStep, Onward;
    OnwardJoin(web, a, m, h);
  }
}
