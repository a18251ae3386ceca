/**
 An edge's shard is rewritten only while some desired service is behind that edge. When the
 last one goes, the shard stays, and the containers it names are removed all the same.
 `Pass.ToldIff` is the exact condition.
 */
module Retraction {
  import opened Common
  import opened Types
  import opened Containers
  import opened Host
  import opened Planner
  import opened Agent
  import opened Pass

  /**
   Nothing is desired any more: the pass removes the one container, its publish is answered
   with success, and the stored shard still names what is gone.
   */
  method LastShardStays(agent: AppAgent, r: ManagedReplica, ctx: Option<CronPlanContext>) returns (ok: bool)
    requires agent.Valid() && agent.desired == [] && agent.host.live == [r]
    requires exists e :: e in Stored(agent.host) && e.id == r.id && e.route.key == ReplicaKey(r)
    modifies agent`host, agent`step, agent`history, agent`effects, agent`ports, agent`fires, agent`errors
    ensures ok && agent.host.live == [] && Stored(agent.host) == old(Stored(agent.host))
    ensures !NamesRunning(agent.host.live, ReplicaKey(r), Stored(agent.host))
    ensures !Shows(agent.host, Wanted(agent.desired, agent.host))
  {
    hide *;
    ghost var before := agent.host;
    agent.ValidHost();
    NothingDesired(before.edge);
    ghost var aborts, marks;
    ok, aborts, marks := TickAndPublish(agent, ctx);
    agent.ValidHost();
    NothingForTheEdge([], before, agent.host);
    StoredSame(before, agent.host);
    NoneLive(agent.host);
    StillNamed(agent.host, r);
    NothingWanted(agent.host);
  }

  lemma NothingDesired(edge: string)
    ensures UniqueKeys([]) && WellNamed([]) && !HasWeb([]) && WebRoutes([], edge) == {} && DesiredKeys([]) == {}
  {
  }

  lemma StoredSame(a: Host, h: Host)
    requires h.pubs == a.pubs
    ensures Stored(h) == Stored(a)
  {
  }

  lemma NoneLive(h: Host)
    ensures (forall r :: r in h.live ==> ReplicaKey(r) in {}) ==> h.live == []
  {
    hide ReplicaKey;
    if h.live != [] { assert h.live[0] in h.live; }
  }

  lemma StillNamed(h: Host, r: ManagedReplica)
    requires h.live == [] && exists e :: e in Stored(h) && e.id == r.id && e.route.key == ReplicaKey(r)
    ensures !NamesRunning(h.live, ReplicaKey(r), Stored(h))
  {
    hide ReplicaKey, Stored;
    var e :| e in Stored(h) && e.id == r.id && e.route.key == ReplicaKey(r);
    assert !Answers(h.live, ReplicaKey(r), e);
  }

  lemma NothingWanted(h: Host)
    requires h.live == []
    ensures Wanted([], h) == {} && (Stored(h) != {} ==> !Shows(h, {}))
  {
  }
}
