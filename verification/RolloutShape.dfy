/**
 The exact shape of the container list while a rollout runs: the first few drifted
 replicas gone, the first few surged replicas appended. Everything a rollout promises
 follows from it.
 */
module RolloutShape {
  import opened Common
  import opened Text
  import opened Types
  import opened Lists
  import opened Containers
  import opened Host
  import opened Planner
  import opened Stamp
  import opened Docker

  /** What was there when the rollout began. */
  datatype Begin = Begin(c: ServiceConfig, current: Live, host: Host, ports: map<string, int>, web: set<Route>)

  function Key(b: Begin): string { KeyOf(b.c) }

  function Old(b: Begin): Live { Drifted(b.current, b.c) }

  /** Replicas that already match; stopped ones count too. */
  function Kept(b: Begin): nat { |Matching(b.current, b.c)| }

  /** One past the greatest live index, or 0. */
  function NextIndex(s: Live): (n: int)
    ensures s == [] ==> n == 0
    ensures forall r :: r in s ==> r.index < n
    ensures s != [] ==> exists r :: r in s && r.index == n - 1
  {
    if s == [] then 0
    else
      SplitLast(s);
      var f, r := s[..|s| - 1], s[|s| - 1];
      assert r in s;
      if f == [] then r.index + 1 else Max(NextIndex(f), r.index + 1)
  }

  /** The rollout starts from the service's own live containers, listed in some order. */
  ghost predicate Begins(b: Begin) {
    && WellFormed(b.host)
    && multiset(b.current) == multiset(Mine(b.host.live, Key(b)))
    && IsNamePart(b.c.project) && IsNamePart(b.c.service)
  }

  /** The `i`-th surged replica. */
  ghost predicate IsSurged(b: Begin, r: ManagedReplica, i: nat) {
    && r == NewReplica(b.c, b.host.nextId + i, NextIndex(b.current) + i, "running", r.hostPort, None, None)
    && (r.hostPort.Some? <==> b.c.ingress.Some?)
  }

  ghost predicate Surged(b: Begin, surged: Live) {
    forall i :: 0 <= i < |surged| ==> IsSurged(b, surged[i], i)
  }

  /** `drained` drifted replicas are gone and `surged` have been appended. */
  ghost predicate Shape(b: Begin, live: Live, drained: nat, surged: Live) {
    && drained <= |Old(b)|
    && live == Without(b.host.live, Ids(Old(b)[..drained])) + surged
    && Surged(b, surged)
  }

  function Slots(key: string, s: Live): set<string> { set r | r in s :: PortSlot(key, r.index) }

  /** Ports: those of drained replicas freed, those of surged replicas filed. */
  ghost predicate PortShape(b: Begin, ports: map<string, int>, drained: nat, surged: Live) {
    && drained <= |Old(b)|
    && ports.Keys == (b.ports.Keys - Slots(Key(b), Old(b)[..drained]))
                     + (if b.c.ingress.Some? then Slots(Key(b), surged) else {})
    && (forall r :: r in surged && r.hostPort.Some? ==>
         PortSlot(Key(b), r.index) in ports && ports[PortSlot(Key(b), r.index)] == r.hostPort.value)
  }

  // ---- facts about the drifted replicas ----

  lemma OldFacts(b: Begin)
    requires Begins(b)
    ensures DistinctIds(b.current) && DistinctNames(b.current)
    ensures DistinctIds(Old(b)) && Ids(Old(b)) <= Ids(b.current)
    ensures forall r :: r in Old(b) ==> r in b.host.live && ReplicaKey(r) == Key(b)
    ensures |Old(b)| + Kept(b) == |b.current| == |Mine(b.host.live, Key(b))|
    ensures DistinctIds(Mine(b.host.live, Key(b))) && Ids(b.current) == Ids(Mine(b.host.live, Key(b)))
    ensures forall r :: r in b.current <==> r in Mine(b.host.live, Key(b))
  {
    hide ReplicaKey, NameOf, NeedsReplace, Keep;
    var mine := Mine(b.host.live, Key(b));
    DistinctKeep(b.host.live, OfKey(Key(b)), IdOf);
    DistinctKeep(b.host.live, OfKey(Key(b)), NameOf);
    Rearranged(b.current, mine);
    RearrangedDistinct(b.current, mine, IdOf);
    RearrangedDistinct(b.current, mine, NameOf);
    DistinctKeep(b.current, DriftsFrom(b.c), IdOf);
    KeepCount(b.current, DriftsFrom(b.c), Matches(b.c));
  }

  lemma PrefixFacts(b: Begin, n: nat)
    requires Begins(b) && n <= |Old(b)|
    ensures var ids := Ids(Old(b)[..n]);
            && |ids| == n && ids <= Ids(b.current)
            && forall r :: r in b.host.live && r.id in ids ==> ReplicaKey(r) == Key(b)
  {
    hide ReplicaKey, NameOf, NeedsReplace, Keep;
    OldFacts(b);
    var pre := Old(b)[..n];
    assert forall i :: 0 <= i < n ==> pre[i] == Old(b)[i];
    DistinctCount(pre, IdOf);
    forall r | r in b.host.live && r.id in Ids(pre) ensures ReplicaKey(r) == Key(b) {
      var o :| o in pre && o.id == r.id;
      DistinctInjective(b.host.live, IdOf, r, o);
    }
  }

  lemma {:induction false} SurgedMine(b: Begin, surged: Live)
    requires Surged(b, surged)
    ensures Mine(surged, Key(b)) == surged && Others(surged, Key(b)) == []
  {
    hide Keep, ServiceConfigStamp, NextIndex;
    forall r | r in surged ensures ReplicaKey(r) == Key(b) {
      var i :| 0 <= i < |surged| && surged[i] == r;
      assert IsSurged(b, surged[i], i);
    }
    KeepAll(surged, OfKey(Key(b)));
    KeepCount(surged, OfKey(Key(b)), NotOfKey(Key(b)));
  }

  /** The service's share, its size, and everybody else's share, at any point of a rollout. */
  lemma ShapeCounts(b: Begin, live: Live, drained: nat, surged: Live)
    requires Begins(b) && Shape(b, live, drained, surged)
    ensures Mine(live, Key(b)) == Without(Mine(b.host.live, Key(b)), Ids(Old(b)[..drained])) + surged
    ensures |Mine(live, Key(b))| == |b.current| - drained + |surged|
    ensures Others(live, Key(b)) == Others(b.host.live, Key(b))
  {
    hide ReplicaKey, NameOf, NeedsReplace, Keep, IsSurged, NextIndex;
    var ids := Ids(Old(b)[..drained]);
    OldFacts(b);
    PrefixFacts(b, drained);
    MineWithout(b.host.live, ids, Key(b));
    OthersWithout(b.host.live, ids, Key(b));
    MineAppend(Without(b.host.live, ids), surged, Key(b));
    SurgedMine(b, surged);
    WithoutCount(Mine(b.host.live, Key(b)), ids);
  }

  /** Who the service's containers are at any point of a rollout. */
  lemma ShapeMembers(b: Begin, live: Live, drained: nat, surged: Live)
    requires Begins(b) && Shape(b, live, drained, surged)
    ensures forall r :: r in live && ReplicaKey(r) == Key(b) ==>
              r in surged || (r in b.current && r.id !in Ids(Old(b)[..drained]))
    ensures forall r :: r in live && ReplicaKey(r) == Key(b) ==> r.index < NextIndex(b.current) + |surged|
    ensures forall r :: r in live && r !in surged ==> r in b.host.live
  {
    hide NameOf, NeedsReplace, ServiceConfigStamp, ReplicaKey, NextIndex;
    OldFacts(b);
    forall r | r in live && ReplicaKey(r) == Key(b)
      ensures r in surged || (r in b.current && r.id !in Ids(Old(b)[..drained]))
      ensures r.index < NextIndex(b.current) + |surged|
    {
      if r in surged {
        var i :| 0 <= i < |surged| && surged[i] == r;
        assert IsSurged(b, surged[i], i);
      } else {
        assert r in b.host.live;
        assert r in b.current;
        BelowNext(b.current, r);
      }
    }
  }

  lemma KeptStays(b: Begin, r: ManagedReplica)
    requires Begins(b) && r in b.current && r !in Old(b)
    ensures r in Without(Mine(b.host.live, Key(b)), Ids(Old(b)))
  {
    hide Keep, ReplicaKey, NeedsReplace, WellFormed;
    OldFacts(b);
    forall o | o in Old(b) ensures IdOf(o) != r.id {
      if IdOf(o) == r.id { DistinctInjective(b.current, IdOf, r, o); }
    }
  }

  lemma NotOld(b: Begin, r: ManagedReplica)
    requires r in b.current && r.id !in Ids(Old(b))
    ensures r in Matching(b.current, b.c)
  {
    hide Keep, ReplicaKey, NeedsReplace;
    assert r in Old(b) ==> IdOf(r) in Ids(Old(b));
  }

  /** A completed rollout leaves exactly the surged replicas and those that matched from the start. */
  lemma FinalMembers(b: Begin, live: Live, surged: Live)
    requires Begins(b) && Shape(b, live, |Old(b)|, surged)
    ensures forall r :: r in Mine(live, Key(b)) <==> r in surged || r in Matching(b.current, b.c)
  {
    hide Keep, ReplicaKey, NeedsReplace, NextIndex, WellFormed, IsSurged;
    assert Old(b)[..|Old(b)|] == Old(b);
    OldFacts(b);
    ShapeCounts(b, live, |Old(b)|, surged);
    forall r | r in Matching(b.current, b.c) ensures r in Mine(live, Key(b)) {
      assert r !in Old(b);
      KeptStays(b, r);
    }
    forall r | r in Mine(live, Key(b)) && r !in surged ensures r in Matching(b.current, b.c) {
      assert r in b.current && r.id !in Ids(Old(b));
      NotOld(b, r);
    }
  }

  lemma BelowNext(s: Live, r: ManagedReplica)
    requires r in s
    ensures r.index < NextIndex(s)
  {
  }

  lemma NameDiffers(r: ManagedReplica, c: ServiceConfig, n: int)
    requires IsNamePart(r.project) && IsNamePart(r.service) && IsNamePart(c.project) && IsNamePart(c.service)
    requires ReplicaKey(r) == KeyOf(c) ==> r.index < n
    ensures NameOf(r) != ContainerName(c.project, c.service, n)
  {
    hide ContainerName, ServiceKey;
    if NameOf(r) == ContainerName(c.project, c.service, n) {
      ContainerNameInjective(r.project, r.service, r.index, c.project, c.service, n);
    }
  }

  /** The next surge index is free: no live container holds the name it will use. */
  lemma SurgeNameFree(b: Begin, live: Live, drained: nat, surged: Live)
    requires Begins(b) && Shape(b, live, drained, surged)
    ensures forall r :: r in live ==> NameOf(r) != ContainerName(b.c.project, b.c.service, NextIndex(b.current) + |surged|)
  {
    hide NeedsReplace, ServiceConfigStamp, NextIndex, ContainerName, NameOf, Keep;
    ShapeMembers(b, live, drained, surged);
    var n := NextIndex(b.current) + |surged|;
    forall r | r in live ensures NameOf(r) != ContainerName(b.c.project, b.c.service, n) {
      if r in surged {
        var i :| 0 <= i < |surged| && surged[i] == r;
        assert IsSurged(b, surged[i], i);
      }
      NameDiffers(r, b.c, n);
    }
  }

  lemma IdsAppend(a: Live, r: ManagedReplica)
    ensures Ids(a + [r]) == Ids(a) + {r.id}
  {
    assert IdOf(r) in Ids(a + [r]);
  }

  lemma ShapeSurge(b: Begin, live: Live, drained: nat, surged: Live, r: ManagedReplica)
    requires Shape(b, live, drained, surged) && IsSurged(b, r, |surged|)
    ensures Shape(b, live + [r], drained, surged + [r])
  {
    hide IsSurged, Drifted, Without;
    var base := Without(b.host.live, Ids(Old(b)[..drained]));
    assert base + surged + [r] == base + (surged + [r]);
  }

  lemma ShapeDrain(b: Begin, live: Live, drained: nat, surged: Live)
    requires Begins(b) && Shape(b, live, drained, surged) && drained < |Old(b)|
    ensures Shape(b, Without(live, {Old(b)[drained].id}), drained + 1, surged)
  {
    hide ReplicaKey, NameOf, NeedsReplace, Keep, NextIndex, ServiceConfigStamp;
    OldFacts(b);
    var olds, id := Old(b), Old(b)[drained].id;
    var ids := Ids(olds[..drained]);
    assert olds[drained] in olds;
    assert id < b.host.nextId;
    WithoutTwice(b.host.live, ids, {id});
    assert Ids(olds[..drained + 1]) == ids + {id} by {
      assert olds[..drained + 1] == olds[..drained] + [olds[drained]];
      IdsAppend(olds[..drained], olds[drained]);
    }
    WithoutAppend(Without(b.host.live, ids), surged, {id});
    forall r | r in surged ensures r.id != id {
      var i :| 0 <= i < |surged| && surged[i] == r;
      assert IsSurged(b, surged[i], i);
    }
    KeepAll(surged, IdNotIn({id}));
  }

  lemma SlotsApart(b: Begin, surged: Live)
    requires Surged(b, surged) && Begins(b)
    ensures Slots(Key(b), Old(b)) !! Slots(Key(b), surged)
    ensures forall r, i :: r in surged && i >= NextIndex(b.current) + |surged| ==> PortSlot(Key(b), r.index) != PortSlot(Key(b), i)
  {
    hide ReplicaKey, NameOf, NeedsReplace, NextIndex, ServiceConfigStamp, PortSlot;
    OldFacts(b);
    forall r, o | r in surged && o in Old(b) ensures PortSlot(Key(b), r.index) != PortSlot(Key(b), o.index) {
      var i :| 0 <= i < |surged| && surged[i] == r;
      assert IsSurged(b, surged[i], i);
      BelowNext(b.current, o);
      if PortSlot(Key(b), r.index) == PortSlot(Key(b), o.index) { PortSlotInjective(Key(b), r.index, o.index); }
    }
    forall r, i | r in surged && i >= NextIndex(b.current) + |surged| ensures PortSlot(Key(b), r.index) != PortSlot(Key(b), i) {
      var k :| 0 <= k < |surged| && surged[k] == r;
      assert IsSurged(b, surged[k], k);
      if PortSlot(Key(b), r.index) == PortSlot(Key(b), i) { PortSlotInjective(Key(b), r.index, i); }
    }
  }

  lemma PortSurge(b: Begin, ports: map<string, int>, drained: nat, surged: Live, r: ManagedReplica, port: int)
    requires Begins(b) && Surged(b, surged) && PortShape(b, ports, drained, surged)
    requires IsSurged(b, r, |surged|)
    requires r.hostPort == if b.c.ingress.Some? then Some(port) else None
    ensures PortShape(b, if b.c.ingress.Some? then ports[PortSlot(Key(b), r.index) := port] else ports, drained, surged + [r])
  {
    hide ReplicaKey, NameOf, NeedsReplace, NextIndex, ServiceConfigStamp, PortSlot, Keep;
    SlotsApart(b, surged);
    assert Slots(Key(b), surged + [r]) == Slots(Key(b), surged) + {PortSlot(Key(b), r.index)};
  }

  lemma PortDrain(b: Begin, ports: map<string, int>, drained: nat, surged: Live)
    requires Begins(b) && Surged(b, surged) && PortShape(b, ports, drained, surged) && drained < |Old(b)|
    ensures PortShape(b, ports - {PortSlot(Key(b), Old(b)[drained].index)}, drained + 1, surged)
  {
    hide ReplicaKey, NameOf, NeedsReplace, NextIndex, ServiceConfigStamp, PortSlot, Keep;
    SlotsApart(b, surged);
    var olds := Old(b);
    var slot := PortSlot(Key(b), olds[drained].index);
    assert olds[drained] in olds;
    assert slot in Slots(Key(b), olds);
    assert olds[..drained + 1] == olds[..drained] + [olds[drained]];
    assert Slots(Key(b), olds[..drained + 1]) == Slots(Key(b), olds[..drained]) + {slot};
  }
}
