/** Lists of live containers: one service's share, removal by identifier, and counting. */
module Containers {
  import opened Common
  import opened Text
  import opened Types
  import opened Lists

  type Live = seq<ManagedReplica>

  function IdOf(r: ManagedReplica): nat { r.id }

  function OfKey(key: string): ManagedReplica -> bool { (r: ManagedReplica) => ReplicaKey(r) == key }

  function NotOfKey(key: string): ManagedReplica -> bool { (r: ManagedReplica) => ReplicaKey(r) != key }

  function IdIn(ids: set<nat>): ManagedReplica -> bool { (r: ManagedReplica) => r.id in ids }

  function IdNotIn(ids: set<nat>): ManagedReplica -> bool { (r: ManagedReplica) => r.id !in ids }

  /** The containers of one service. */
  function Mine(live: Live, key: string): Live { Keep(live, OfKey(key)) }

  /** The containers of every other service. */
  function Others(live: Live, key: string): Live { Keep(live, NotOfKey(key)) }

  function Without(live: Live, ids: set<nat>): Live { Keep(live, IdNotIn(ids)) }

  function Ids(live: Live): set<nat> { Labels(live, IdOf) }

  ghost predicate DistinctIds(live: Live) { DistinctBy(live, IdOf) }

  ghost predicate DistinctNames(live: Live) { DistinctBy(live, NameOf) }

  lemma MineWithout(live: Live, ids: set<nat>, key: string)
    ensures Mine(Without(live, ids), key) == Without(Mine(live, key), ids)
  {
    KeepTwice(live, IdNotIn(ids), OfKey(key));
  }

  lemma OthersWithout(live: Live, ids: set<nat>, key: string)
    requires forall r :: r in live && r.id in ids ==> ReplicaKey(r) == key
    ensures Others(Without(live, ids), key) == Others(live, key)
  {
    hide Keep, ReplicaKey;
    KeepBoth(live, IdNotIn(ids), NotOfKey(key), NotOfKey(key));
  }

  lemma WithoutTwice(live: Live, a: set<nat>, b: set<nat>)
    ensures Without(Without(live, a), b) == Without(live, a + b)
  {
    hide Keep;
    KeepBoth(live, IdNotIn(a), IdNotIn(b), IdNotIn(a + b));
  }

  /** Removing identifiers that are all present removes exactly as many containers. */
  lemma WithoutCount(live: Live, ids: set<nat>)
    requires DistinctIds(live) && ids <= Ids(live)
    ensures |Without(live, ids)| == |live| - |ids|
  {
    hide Keep;
    var gone := Keep(live, IdIn(ids));
    KeepCount(live, IdNotIn(ids), IdIn(ids));
    DistinctKeep(live, IdIn(ids), IdOf);
    DistinctCount(gone, IdOf);
    assert Labels(gone, IdOf) == ids by {
      forall id | id in ids ensures id in Labels(gone, IdOf) {
        var r :| r in live && r.id == id;
        assert r in gone;
      }
    }
  }

  lemma MineAppend(a: Live, b: Live, key: string)
    ensures Mine(a + b, key) == Mine(a, key) + Mine(b, key)
    ensures Others(a + b, key) == Others(a, key) + Others(b, key)
  {
    KeepAppend(a, b, OfKey(key));
    KeepAppend(a, b, NotOfKey(key));
  }

  lemma WithoutAppend(a: Live, b: Live, ids: set<nat>)
    ensures Without(a + b, ids) == Without(a, ids) + Without(b, ids)
  {
    KeepAppend(a, b, IdNotIn(ids));
  }

  /** The replica list of a key other than `key` is untouched when only `key`'s change. */
  lemma MineOfOthers(live: Live, key: string, other: string)
    requires other != key
    ensures Mine(Others(live, key), other) == Mine(live, other)
  {
    hide Keep, ReplicaKey;
    KeepBoth(live, NotOfKey(key), OfKey(other), OfKey(other));
  }
}
