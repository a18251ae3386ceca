/**
 Grouping inspected containers by service (`parse_inspect` in `docker.rs`): groups in key
 order, each sorted by replica index.
 */
module Inspect {
  import opened Common
  import opened Text
  import opened Types
  import opened Lists
  import opened Containers
  import opened Planner

  /** Insert after every replica of the same or a smaller index. */
  function InsertByIndex(r: ManagedReplica, s: Live): (t: Live)
    ensures multiset(t) == multiset(s) + multiset{r}
  {
    if s == [] || r.index < s[0].index then [r] + s
    else
      assert s == [s[0]] + s[1..];
      [s[0]] + InsertByIndex(r, s[1..])
  }

  /** File a replica under its key. */
  function File(groups: seq<Group>, r: ManagedReplica): seq<Group> {
    var key := ReplicaKey(r);
    if groups == [] then [Group(key, [r])]
    else if groups[0].key == key then [Group(key, InsertByIndex(r, groups[0].replicas))] + groups[1..]
    else if StringLess(key, groups[0].key) then [Group(key, [r])] + groups
    else [groups[0]] + File(groups[1..], r)
  }

  function GroupAll(live: Live): seq<Group> {
    if live == [] then [] else File(GroupAll(live[..|live| - 1]), live[|live| - 1])
  }

  ghost predicate KeyOrdered(groups: seq<Group>) {
    forall i, j :: 0 <= i < j < |groups| ==> StringLess(groups[i].key, groups[j].key)
  }

  ghost predicate NoneEmpty(groups: seq<Group>) {
    forall i :: 0 <= i < |groups| ==> groups[i].replicas != []
  }

  function Keys(groups: seq<Group>): set<string> { set g | g in groups :: g.key }

  lemma LookupAbsent(groups: seq<Group>, key: string)
    requires forall i :: 0 <= i < |groups| ==> groups[i].key != key
    ensures Lookup(groups, key) == []
  {
  }

  /** Filing into the rest: the head keeps its place. */
  lemma FiledBehind(groups: seq<Group>, rest: seq<Group>, key: string)
    requires groups != [] && KeyOrdered(groups) && KeyOrdered(rest) && StringLess(groups[0].key, key)
    requires forall i :: 0 <= i < |rest| ==>
               rest[i].key == key || exists j :: 0 <= j < |groups[1..]| && groups[1..][j].key == rest[i].key
    ensures KeyOrdered([groups[0]] + rest)
    ensures forall i :: 0 <= i < |[groups[0]] + rest| ==>
              ([groups[0]] + rest)[i].key == key || exists j :: 0 <= j < |groups| && groups[j].key == ([groups[0]] + rest)[i].key
  {
    hide StringLess;
    var out := [groups[0]] + rest;
    forall i | 0 <= i < |rest|
      ensures StringLess(groups[0].key, rest[i].key) && (rest[i].key == key || exists j :: 0 <= j < |groups| && groups[j].key == rest[i].key)
    {
      if rest[i].key != key {
        var j :| 0 <= j < |groups[1..]| && groups[1..][j].key == rest[i].key;
        assert groups[j + 1].key == rest[i].key;
      }
    }
    forall i | 0 <= i < |out|
      ensures out[i].key == key || exists j :: 0 <= j < |groups| && groups[j].key == out[i].key
    {
      if i == 0 { assert groups[0].key == out[0].key; } else { assert out[i] == rest[i - 1]; }
    }
  }

  lemma FiledFirst(groups: seq<Group>, r: ManagedReplica)
    requires groups != [] && KeyOrdered(groups) && StringLess(ReplicaKey(r), groups[0].key)
    ensures KeyOrdered([Group(ReplicaKey(r), [r])] + groups) && Lookup(groups, ReplicaKey(r)) == []
  {
    hide ReplicaKey, StringLess;
    var key := ReplicaKey(r);
    forall i | 0 <= i < |groups| ensures StringLess(key, groups[i].key) && groups[i].key != key {
      if i > 0 { StringLessTransitive(key, groups[0].key, groups[i].key); }
      StringLessIrreflexive(key);
    }
    LookupAbsent(groups, key);
  }

  lemma FiledInto(groups: seq<Group>, r: ManagedReplica)
    requires groups != [] && KeyOrdered(groups) && NoneEmpty(groups) && groups[0].key == ReplicaKey(r)
    ensures var out := [Group(ReplicaKey(r), InsertByIndex(r, groups[0].replicas))] + groups[1..];
            && KeyOrdered(out) && NoneEmpty(out) && |out| == |groups| && forall i :: 0 <= i < |out| ==> out[i].key == groups[i].key
  {
    hide ReplicaKey, StringLess, InsertByIndex;
    assert |multiset(InsertByIndex(r, groups[0].replicas))| > 0;
  }

  /** A filed replica joins its own group, in key order, and no other group changes. */
  lemma {:induction false} FileFacts(groups: seq<Group>, r: ManagedReplica)
    requires KeyOrdered(groups) && NoneEmpty(groups)
    ensures KeyOrdered(File(groups, r)) && NoneEmpty(File(groups, r))
    ensures forall i :: 0 <= i < |File(groups, r)| ==>
              File(groups, r)[i].key == ReplicaKey(r) || exists j :: 0 <= j < |groups| && groups[j].key == File(groups, r)[i].key
    ensures multiset(Lookup(File(groups, r), ReplicaKey(r))) == multiset(Lookup(groups, ReplicaKey(r))) + multiset{r}
    ensures forall k :: k != ReplicaKey(r) ==> Lookup(File(groups, r), k) == Lookup(groups, k)
    decreases |groups|
  {
    hide ReplicaKey, StringLess, InsertByIndex;
    var key := ReplicaKey(r);
    var out := File(groups, r);
    if groups == [] {
    } else if groups[0].key == key {
      FiledInto(groups, r);
      assert out[1..] == groups[1..];
    } else if StringLess(key, groups[0].key) {
      FiledFirst(groups, r);
      assert out[1..] == groups;
      forall i | 0 < i < |out| ensures out[i].key == groups[i - 1].key { }
    } else {
      StringLessTotal(key, groups[0].key);
      FileFacts(groups[1..], r);
      var rest := File(groups[1..], r);
      assert out[1..] == rest;
      FiledBehind(groups, rest, key);
    }
  }

  /** Each group lists exactly its service's containers, and only live services have groups. */
  lemma {:induction false} GroupFacts(live: Live)
    ensures KeyOrdered(GroupAll(live)) && NoneEmpty(GroupAll(live))
    ensures forall k :: multiset(Lookup(GroupAll(live), k)) == multiset(Mine(live, k))
    decreases |live|
  {
    hide ReplicaKey, File, Keep, StringLess;
    if live == [] {
      forall k ensures Mine(live, k) == [] { KeepNone(OfKey(k)); }
    } else {
      var f, r := live[..|live| - 1], live[|live| - 1];
      SplitLast(live);
      GroupFacts(f);
      FileFacts(GroupAll(f), r);
      forall k ensures multiset(Lookup(GroupAll(live), k)) == multiset(Mine(live, k)) {
        KeepLast(f, r, OfKey(k));
      }
    }
  }

  ghost predicate ByIndex(s: Live) { forall i, j :: 0 <= i < j < |s| ==> s[i].index <= s[j].index }

  ghost predicate AllByIndex(groups: seq<Group>) { forall i :: 0 <= i < |groups| ==> ByIndex(groups[i].replicas) }

  lemma {:induction false} InsertKeepsOrder(r: ManagedReplica, s: Live)
    requires ByIndex(s)
    ensures ByIndex(InsertByIndex(r, s))
    decreases |s|
  {
    if s != [] && r.index >= s[0].index {
      InsertKeepsOrder(r, s[1..]);
      var t := InsertByIndex(r, s[1..]);
      forall i | 0 <= i < |t| ensures s[0].index <= t[i].index {
        assert t[i] in multiset(t);
        assert t[i] == r || t[i] in s[1..];
      }
    }
  }

  lemma {:induction false} FileKeepsOrder(groups: seq<Group>, r: ManagedReplica)
    requires AllByIndex(groups)
    ensures AllByIndex(File(groups, r))
    decreases |groups|
  {
    hide ReplicaKey, StringLess, InsertByIndex, ByIndex;
    OneInOrder(r);
    if groups != [] {
      InsertInOrder(r, groups[0].replicas);
      FileKeepsOrder(groups[1..], r);
    }
  }

  lemma OneInOrder(r: ManagedReplica)
    ensures ByIndex([r])
  {
  }

  lemma InsertInOrder(r: ManagedReplica, s: Live)
    ensures ByIndex(s) ==> ByIndex(InsertByIndex(r, s))
  {
    if ByIndex(s) { InsertKeepsOrder(r, s); }
  }

  /** Within each group, containers are listed by replica index. */
  lemma {:induction false} GroupsInIndexOrder(live: Live)
    ensures AllByIndex(GroupAll(live))
    decreases |live|
  {
    hide File, ByIndex;
    if live != [] {
      GroupsInIndexOrder(live[..|live| - 1]);
      FileKeepsOrder(GroupAll(live[..|live| - 1]), live[|live| - 1]);
    }
  }

  lemma KeyFound(groups: seq<Group>, i: nat)
    requires KeyOrdered(groups) && i < |groups|
    ensures Lookup(groups, groups[i].key) == groups[i].replicas
    decreases |groups|
  {
    hide StringLess;
    if i > 0 {
      StringLessIrreflexive(groups[i].key);
      assert StringLess(groups[0].key, groups[i].key);
      KeyFound(groups[1..], i - 1);
    }
  }
}
