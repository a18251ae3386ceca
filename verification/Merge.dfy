/**
 Ownership-aware publishing (`merge.ts`): a deploy replaces, or upserts, only the entries of
 its own owner in a node's set of services.
 */
module Merge {
  import opened Common
  import opened Text
  import opened Types
  import opened Lists

  datatype MergeResult = Merged(services: seq<ServiceConfig>) | NotOwned(key: string) | DuplicateService(key: string)

  function OwnedBy(owner: string): ServiceConfig -> bool { (s: ServiceConfig) => s.project == owner }

  function NotOwnedBy(owner: string): ServiceConfig -> bool { (s: ServiceConfig) => s.project != owner }

  // ---- the two checks ----

  /** The first entry not owned by the caller. */
  function Foreign(owner: string, incoming: seq<ServiceConfig>): (r: Option<string>)
    ensures r.None? <==> forall i :: 0 <= i < |incoming| ==> incoming[i].project == owner
  {
    if incoming == [] then None
    else if incoming[0].project != owner then Some(KeyOf(incoming[0]))
    else
      var rest := Foreign(owner, incoming[1..]);
      assert rest.None? ==> forall i :: 0 < i < |incoming| ==> incoming[1..][i - 1] == incoming[i];
      rest
  }

  /** The first key met twice. */
  function Repeated(services: seq<ServiceConfig>): (r: Option<string>)
    ensures r.None? <==> UniqueKeys(services)
  {
    if services == [] then None
    else
      var front, s := services[..|services| - 1], services[|services| - 1];
      var earlier := Repeated(front);
      UniqueLast(services);
      if earlier.Some? then earlier
      else if exists q :: q in front && KeyOf(q) == KeyOf(s) then Some(KeyOf(s))
      else None
  }

  lemma UniqueLast(services: seq<ServiceConfig>)
    requires services != []
    ensures var front, s := services[..|services| - 1], services[|services| - 1];
            UniqueKeys(services) <==> UniqueKeys(front) && forall q :: q in front ==> KeyOf(q) != KeyOf(s)
  {
    hide KeyOf;
    var front, s := services[..|services| - 1], services[|services| - 1];
    assert forall i :: 0 <= i < |front| ==> front[i] == services[i];
    if UniqueKeys(services) {
      forall q | q in front ensures KeyOf(q) != KeyOf(s) {
        var i :| 0 <= i < |front| && front[i] == q;
        assert services[i] == q;
      }
    } else if UniqueKeys(front) {
      var i, j :| 0 <= i < j < |services| && KeyOf(services[i]) == KeyOf(services[j]);
      assert services[i] in front;
    }
  }

  method AssertOwned(owner: string, incoming: seq<ServiceConfig>) returns (r: Option<string>)
    ensures r == Foreign(owner, incoming)
  {
    assert incoming[0..] == incoming;
    for i := 0 to |incoming|
      invariant Foreign(owner, incoming) == Foreign(owner, incoming[i..])
    {
      assert incoming[i..][1..] == incoming[i + 1..];
      if incoming[i].project != owner {
        return Some(KeyOf(incoming[i]));
      }
    }
    return None;
  }

  lemma {:induction false} RepeatedStays(services: seq<ServiceConfig>, n: nat)
    requires n <= |services| && Repeated(services[..n]).Some?
    ensures Repeated(services) == Repeated(services[..n])
    decreases |services| - n
  {
    if n == |services| {
      assert services[..n] == services;
    } else {
      assert services[..n + 1][..n] == services[..n];
      RepeatedStays(services, n + 1);
    }
  }

  method AssertNoDuplicates(merged: seq<ServiceConfig>) returns (r: Option<string>)
    ensures r == Repeated(merged)
  {
    hide KeyOf;
    var seen: set<string> := {};
    for i := 0 to |merged|
      invariant Repeated(merged[..i]).None?
      invariant seen == set s | s in merged[..i] :: KeyOf(s)
    {
      var key := KeyOf(merged[i]);
      assert merged[..i + 1][..i] == merged[..i];
      if key in seen {
        RepeatedStays(merged, i + 1);
        return Some(key);
      }
      assert merged[..i + 1] == merged[..i] + [merged[i]];
      seen := seen + {key};
    }
    assert merged[..|merged|] == merged;
    return None;
  }

  function Checked(owner: string, incoming: seq<ServiceConfig>, merged: seq<ServiceConfig>): MergeResult {
    if Foreign(owner, incoming).Some? then NotOwned(Foreign(owner, incoming).value)
    else if Repeated(merged).Some? then DuplicateService(Repeated(merged).value)
    else Merged(merged)
  }

  // ---- the full merge ----

  /** Drop everything the owner had and append what it publishes. */
  function Replaced(existing: seq<ServiceConfig>, owner: string, incoming: seq<ServiceConfig>): seq<ServiceConfig> {
    Keep(existing, NotOwnedBy(owner)) + incoming
  }

  method MergeProjectServices(existing: seq<ServiceConfig>, owner: string, incoming: seq<ServiceConfig>) returns (r: MergeResult)
    ensures r == Checked(owner, incoming, Replaced(existing, owner, incoming))
  {
    var foreign := AssertOwned(owner, incoming);
    if foreign.Some? {
      return NotOwned(foreign.value);
    }
    var others := Keep(existing, NotOwnedBy(owner));
    var merged := others + incoming;
    var duplicate := AssertNoDuplicates(merged);
    if duplicate.Some? {
      return DuplicateService(duplicate.value);
    }
    return Merged(merged);
  }

  // ---- the partial merge ----

  /** The last incoming entry of the name. */
  function Named(incoming: seq<ServiceConfig>, name: string): (r: Option<ServiceConfig>)
    ensures r.Some? ==> r.value in incoming && r.value.service == name
    ensures r.None? ==> forall s :: s in incoming ==> s.service != name
  {
    if incoming == [] then None
    else if incoming[|incoming| - 1].service == name then Some(incoming[|incoming| - 1])
    else
      SplitLast(incoming);
      Named(incoming[..|incoming| - 1], name)
  }

  function Upsert(s: ServiceConfig, owner: string, incoming: seq<ServiceConfig>): ServiceConfig {
    if s.project == owner && Named(incoming, s.service).Some? then Named(incoming, s.service).value else s
  }

  function UpsertAll(existing: seq<ServiceConfig>, owner: string, incoming: seq<ServiceConfig>): (r: seq<ServiceConfig>)
    ensures |r| == |existing| && forall i :: 0 <= i < |r| ==> r[i] == Upsert(existing[i], owner, incoming)
  {
    if existing == [] then [] else UpsertAll(existing[..|existing| - 1], owner, incoming) + [Upsert(existing[|existing| - 1], owner, incoming)]
  }

  /** The names of the owner's existing entries that were replaced. */
  function AppliedNames(existing: seq<ServiceConfig>, owner: string, incoming: seq<ServiceConfig>): set<string> {
    set s | s in existing && s.project == owner && Named(incoming, s.service).Some? :: s.service
  }

  function NameNotIn(names: set<string>): ServiceConfig -> bool { (s: ServiceConfig) => s.service !in names }

  /** Replace in place, then append what was not there. */
  function Upserted(existing: seq<ServiceConfig>, owner: string, incoming: seq<ServiceConfig>): seq<ServiceConfig> {
    UpsertAll(existing, owner, incoming) + Keep(incoming, NameNotIn(AppliedNames(existing, owner, incoming)))
  }

  method IndexByName(incoming: seq<ServiceConfig>) returns (byName: map<string, ServiceConfig>)
    ensures forall n :: (n in byName <==> Named(incoming, n).Some?) && (n in byName ==> Named(incoming, n) == Some(byName[n]))
  {
    byName := map[];
    for i := 0 to |incoming|
      invariant forall n :: (n in byName <==> Named(incoming[..i], n).Some?) && (n in byName ==> Named(incoming[..i], n) == Some(byName[n]))
    {
      assert incoming[..i + 1][..i] == incoming[..i];
      byName := byName[incoming[i].service := incoming[i]];
    }
    assert incoming[..|incoming|] == incoming;
  }

  lemma AppliedNext(existing: seq<ServiceConfig>, i: nat, owner: string, incoming: seq<ServiceConfig>)
    requires i < |existing|
    ensures var s, applied := existing[i], AppliedNames(existing[..i], owner, incoming);
            AppliedNames(existing[..i + 1], owner, incoming)
            == applied + if s.project == owner && Named(incoming, s.service).Some? then {s.service} else {}
  {
    hide Named;
    assert existing[..i + 1] == existing[..i] + [existing[i]];
  }

  /** Replace the owner's entries of incoming names in place, noting the names. */
  method ReplaceInPlace(existing: seq<ServiceConfig>, owner: string, incoming: seq<ServiceConfig>)
    returns (merged: seq<ServiceConfig>, applied: set<string>)
    ensures merged == UpsertAll(existing, owner, incoming) && applied == AppliedNames(existing, owner, incoming)
  {
    hide Named, AppliedNames, UpsertAll;
    var byName := IndexByName(incoming);
    merged, applied := [], {};
    NoneApplied(existing, owner, incoming);
    for i := 0 to |existing|
      invariant merged == UpsertAll(existing[..i], owner, incoming)
      invariant applied == AppliedNames(existing[..i], owner, incoming)
    {
      var s := existing[i];
      UpsertNext(existing, i, owner, incoming);
      AppliedNext(existing, i, owner, incoming);
      if s.project == owner && s.service in byName {
        merged := merged + [byName[s.service]];
        NamedName(incoming, s.service);
        applied := applied + {byName[s.service].service};
      } else {
        merged := merged + [s];
      }
    }
    assert existing[..|existing|] == existing;
  }

  lemma UpsertNext(existing: seq<ServiceConfig>, i: nat, owner: string, incoming: seq<ServiceConfig>)
    requires i < |existing|
    ensures UpsertAll(existing[..i + 1], owner, incoming) == UpsertAll(existing[..i], owner, incoming) + [Upsert(existing[i], owner, incoming)]
  {
    hide Upsert;
    assert existing[..i + 1][..i] == existing[..i];
  }

  /** Append the incoming entries whose names were not replaced. */
  method AppendNew(upserted: seq<ServiceConfig>, incoming: seq<ServiceConfig>,
            applied: set<string>) returns (merged: seq<ServiceConfig>)
    ensures merged == upserted + Keep(incoming, NameNotIn(applied))
  {
    hide Keep;
    merged := upserted;
    KeepNone(NameNotIn(applied));
    for i := 0 to |incoming|
      invariant merged == upserted + Keep(incoming[..i], NameNotIn(applied))
    {
      assert incoming[..i + 1] == incoming[..i] + [incoming[i]];
      KeepLast(incoming[..i], incoming[i], NameNotIn(applied));
      if incoming[i].service !in applied {
        merged := merged + [incoming[i]];
      }
    }
    assert incoming[..|incoming|] == incoming;
  }

  method MergeProjectServicesPartial(existing: seq<ServiceConfig>, owner: string, incoming: seq<ServiceConfig>)
    returns (r: MergeResult)
    ensures r == Checked(owner, incoming, Upserted(existing, owner, incoming))
  {
    hide Keep, Foreign, Repeated, UpsertAll, AppliedNames;
    var foreign := AssertOwned(owner, incoming);
    if foreign.Some? {
      return NotOwned(foreign.value);
    }
    var merged, applied := ReplaceInPlace(existing, owner, incoming);
    merged := AppendNew(merged, incoming, applied);
    var duplicate := AssertNoDuplicates(merged);
    if duplicate.Some? {
      return DuplicateService(duplicate.value);
    }
    return Merged(merged);
  }

  lemma NoneApplied(existing: seq<ServiceConfig>, owner: string, incoming: seq<ServiceConfig>)
    ensures AppliedNames(existing[..0], owner, incoming) == {} && UpsertAll(existing[..0], owner, incoming) == []
  {
  }

  lemma NamedName(incoming: seq<ServiceConfig>, name: string)
    ensures Named(incoming, name).Some? ==> Named(incoming, name).value.service == name
  {
  }
}
