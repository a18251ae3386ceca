/** What merging promises: owners are isolated from each other, and their deploys commute. */
module MergeProofs {
  import opened Common
  import opened Text
  import opened Types
  import opened Lists
  import opened Merge

  datatype Deploy = Full(owner: string, incoming: seq<ServiceConfig>) | Part(owner: string, incoming: seq<ServiceConfig>)

  function Published(existing: seq<ServiceConfig>, d: Deploy): seq<ServiceConfig> {
    match d
    case Full(owner, incoming) => Replaced(existing, owner, incoming)
    case Part(owner, incoming) => Upserted(existing, owner, incoming)
  }

  function Publish(existing: seq<ServiceConfig>, d: Deploy): MergeResult {
    Checked(d.owner, d.incoming, Published(existing, d))
  }

  ghost predicate Owned(d: Deploy) { forall s :: s in d.incoming ==> s.project == d.owner }

  function Share(services: seq<ServiceConfig>, owner: string): seq<ServiceConfig> { Keep(services, OwnedBy(owner)) }

  lemma OwnedIffNoForeign(d: Deploy)
    ensures Owned(d) <==> Foreign(d.owner, d.incoming).None?
  {
    if Foreign(d.owner, d.incoming).Some? {
      var i :| 0 <= i < |d.incoming| && d.incoming[i].project != d.owner;
      assert d.incoming[i] in d.incoming;
    }
  }

  // ---- isolation ----

  lemma UpsertKeepsProject(s: ServiceConfig, owner: string, incoming: seq<ServiceConfig>)
    requires forall i :: i in incoming ==> i.project == owner
    ensures var u := Upsert(s, owner, incoming); u.project == s.project && u.service == s.service && (s.project != owner ==>
        u == s)
  {
  }

  lemma UpsertLast(front: seq<ServiceConfig>, s: ServiceConfig, owner: string, incoming: seq<ServiceConfig>)
    ensures UpsertAll(front + [s], owner, incoming) == UpsertAll(front, owner, incoming) + [Upsert(s, owner, incoming)]
  {
    hide Upsert;
  }

  lemma {:induction false} UpsertShares(existing: seq<ServiceConfig>, owner: string, incoming: seq<ServiceConfig>)
    requires forall i :: i in incoming ==> i.project == owner
    ensures Keep(UpsertAll(existing, owner, incoming), NotOwnedBy(owner)) == Keep(existing, NotOwnedBy(owner))
    ensures Share(UpsertAll(existing, owner, incoming), owner) == UpsertAll(Share(existing, owner), owner, incoming)
    decreases |existing|
  {
    hide Keep, Upsert, UpsertAll;
    if existing == [] {
      KeepNone(NotOwnedBy(owner));
      KeepNone(OwnedBy(owner));
    } else {
      var front, s := existing[..|existing| - 1], existing[|existing| - 1];
      SplitLast(existing);
      UpsertShares(front, owner, incoming);
      UpsertKeepsProject(s, owner, incoming);
      UpsertLast(front, s, owner, incoming);
      KeepLast(front, s, NotOwnedBy(owner));
      KeepLast(front, s, OwnedBy(owner));
      KeepLast(UpsertAll(front, owner, incoming), Upsert(s, owner, incoming), NotOwnedBy(owner));
      KeepLast(UpsertAll(front, owner, incoming), Upsert(s, owner, incoming), OwnedBy(owner));
      if s.project == owner { UpsertLast(Share(front, owner), s, owner, incoming); }
    }
  }

  lemma AppliedFromShare(existing: seq<ServiceConfig>, owner: string, incoming: seq<ServiceConfig>)
    ensures AppliedNames(Share(existing, owner), owner, incoming) == AppliedNames(existing, owner, incoming)
  {
    hide Keep, Named;
  }

  /** What the owner ends up with depends only on what it had and what it publishes. */
  function OwnShare(d: Deploy, had: seq<ServiceConfig>): seq<ServiceConfig> {
    match d
    case Full(_, incoming) => incoming
    case Part(owner, incoming) => Upserted(had, owner, incoming)
  }

  /** Every other owner's entries are untouched, in order; the owner's own are its affair alone. */
  lemma OwnersIsolated(existing: seq<ServiceConfig>, d: Deploy)
    requires Owned(d)
    ensures Keep(Published(existing, d), NotOwnedBy(d.owner)) == Keep(existing, NotOwnedBy(d.owner))
    ensures Share(Published(existing, d), d.owner) == OwnShare(d, Share(existing, d.owner))
  {
    hide Keep, UpsertAll, AppliedNames;
    var owner, incoming := d.owner, d.incoming;
    var before, tail :=
      if d.Full? then Keep(existing, NotOwnedBy(owner)) else UpsertAll(existing, owner, incoming),
      if d.Full? then incoming else Keep(incoming, NameNotIn(AppliedNames(existing, owner, incoming)));
    KeepAppend(before, tail, NotOwnedBy(owner));
    KeepAppend(before, tail, OwnedBy(owner));
    KeepsNothing(tail, NotOwnedBy(owner));
    KeepAll(tail, OwnedBy(owner));
    if d.Full? {
      KeepAll(before, NotOwnedBy(owner));
      KeepsNothing(before, OwnedBy(owner));
    } else {
      UpsertShares(existing, owner, incoming);
      AppliedFromShare(existing, owner, incoming);
    }
  }

  lemma OtherShare(existing: seq<ServiceConfig>, d: Deploy, o: string)
    requires Owned(d) && o != d.owner
    ensures Share(Published(existing, d), o) == Share(existing, o)
  {
    hide Keep, Published;
    OwnersIsolated(existing, d);
    KeepBoth(existing, NotOwnedBy(d.owner), OwnedBy(o), OwnedBy(o));
    KeepBoth(Published(existing, d), NotOwnedBy(d.owner), OwnedBy(o), OwnedBy(o));
  }

  // ---- commuting ----

  /** Deploys of different owners, in either order, leave every owner the same entries in the same order. */
  lemma DeploysCommute(existing: seq<ServiceConfig>, a: Deploy, b: Deploy, o: string)
    requires Owned(a) && Owned(b) && a.owner != b.owner
    ensures Share(Published(Published(existing, a), b), o) == Share(Published(Published(existing, b), a), o)
  {
    hide Keep, Published, Owned, OwnShare;
    var ea, eb := Published(existing, a), Published(existing, b);
    if o == a.owner {
      OtherShare(ea, b, o);
      OwnersIsolated(existing, a);
      OwnersIsolated(eb, a);
      OtherShare(existing, b, o);
    } else if o == b.owner {
      OtherShare(eb, a, o);
      OwnersIsolated(existing, b);
      OwnersIsolated(ea, b);
      OtherShare(existing, a, o);
    } else {
      OtherShare(ea, b, o);
      OtherShare(existing, a, o);
      OtherShare(eb, a, o);
      OtherShare(existing, b, o);
    }
  }

  ghost predicate SlashFree(services: seq<ServiceConfig>) { forall s :: s in services ==> '/' !in s.project }

  lemma UniqueIsDistinct(services: seq<ServiceConfig>)
    ensures UniqueKeys(services) <==> DistinctBy(services, KeyOf)
  {
    hide KeyOf;
  }

  lemma SameOwnerOfKey(a: ServiceConfig, b: ServiceConfig)
    requires '/' !in a.project && '/' !in b.project && KeyOf(a) == KeyOf(b)
    ensures a.project == b.project && a.service == b.service
  {
    ServiceKeyInjective(a.project, a.service, b.project, b.service);
  }

  /** Keys are unique on a node exactly when they are unique within each owner. */
  lemma {:induction false} UniqueByOwner(services: seq<ServiceConfig>)
    requires SlashFree(services)
    ensures UniqueKeys(services) <==> forall o :: UniqueKeys(Share(services, o))
    decreases |services|
  {
    hide Keep, KeyOf, UniqueKeys;
    UniqueIsDistinct(services);
    forall o ensures UniqueKeys(Share(services, o)) <==> DistinctBy(Share(services, o), KeyOf) { UniqueIsDistinct(Share(services, o)); }
    if DistinctBy(services, KeyOf) {
      forall o ensures DistinctBy(Share(services, o), KeyOf) { DistinctKeep(services, OwnedBy(o), KeyOf); }
    }
    if services != [] && forall o :: DistinctBy(Share(services, o), KeyOf) {
      var front, s := services[..|services| - 1], services[|services| - 1];
      SplitLast(services);
      forall o ensures UniqueKeys(Share(front, o)) {
        KeepLast(front, s, OwnedBy(o));
        UniqueIsDistinct(Share(front, o));
        DistinctPrefix(Share(front, o), Share(services, o));
      }
      UniqueByOwner(front);
      UniqueIsDistinct(front);
      KeepLast(front, s, OwnedBy(s.project));
      assert DistinctBy(Share(services, s.project), KeyOf);
      assert Share(services, s.project) == Share(front, s.project) + [s];
      forall q | q in front ensures KeyOf(q) != KeyOf(s) {
        if KeyOf(q) == KeyOf(s) { SameOwnerOfKey(q, s); }
        LastIsNew(Share(front, s.project), s);
      }
      DistinctAppend(front, s, KeyOf);
    }
  }

  lemma DistinctPrefix(front: seq<ServiceConfig>, all: seq<ServiceConfig>)
    requires front <= all && DistinctBy(all, KeyOf)
    ensures DistinctBy(front, KeyOf)
  {
    hide KeyOf;
    assert forall i :: 0 <= i < |front| ==> front[i] == all[i];
  }

  lemma LastIsNew(front: seq<ServiceConfig>, s: ServiceConfig)
    requires DistinctBy(front + [s], KeyOf)
    ensures forall q :: q in front ==> KeyOf(q) != KeyOf(s)
  {
    hide KeyOf;
    var all := front + [s];
    forall q | q in front ensures KeyOf(q) != KeyOf(s) {
      var i :| 0 <= i < |front| && front[i] == q;
      assert all[i] == q && all[|front|] == s;
    }
  }

  lemma PublishedSlashFree(existing: seq<ServiceConfig>, d: Deploy)
    requires SlashFree(existing) && SlashFree(d.incoming)
    ensures SlashFree(Published(existing, d))
  {
    hide Keep;
    var p := Published(existing, d);
    forall s | s in p ensures '/' !in s.project {
      if d.Part? && s !in Keep(d.incoming, NameNotIn(AppliedNames(existing, d.owner, d.incoming))) {
        var u := UpsertAll(existing, d.owner, d.incoming);
        assert s in u;
        var i :| 0 <= i < |u| && u[i] == s;
        assert existing[i] in existing;
      }
    }
  }

  /** A published node keeps its keys unique; whether both orders of two owners' deploys are accepted agrees. */
  lemma CommutingIsAccepted(existing: seq<ServiceConfig>, a: Deploy, b: Deploy)
    requires Owned(a) && Owned(b) && a.owner != b.owner
    requires SlashFree(existing) && SlashFree(a.incoming) && SlashFree(b.incoming)
    ensures Publish(Published(existing, a), b).Merged? <==> Publish(Published(existing, b), a).Merged?
  {
    hide Keep, Published, Owned, UniqueKeys, SlashFree;
    var ab, ba := Published(Published(existing, a), b), Published(Published(existing, b), a);
    PublishedSlashFree(existing, a);
    PublishedSlashFree(existing, b);
    PublishedSlashFree(Published(existing, a), b);
    PublishedSlashFree(Published(existing, b), a);
    UniqueByOwner(ab);
    UniqueByOwner(ba);
    forall o ensures Share(ab, o) == Share(ba, o) { DeploysCommute(existing, a, b, o); }
    OwnedIffNoForeign(a);
    OwnedIffNoForeign(b);
  }

  // ---- what is accepted ----

  lemma AcceptedIff(existing: seq<ServiceConfig>, d: Deploy)
    ensures Publish(existing, d).Merged? <==> Owned(d) && UniqueKeys(Published(existing, d))
    ensures Publish(existing, d).Merged? ==> Publish(existing, d).services == Published(existing, d)
  {
    hide Published, UniqueKeys, Foreign;
    OwnedIffNoForeign(d);
  }

  /**
   A partial deploy listing one service twice is not refused when the node already runs the
   service: the last entry silently wins.
   */
  lemma RepeatedUpsertSlipsThrough(a: ServiceConfig, b: ServiceConfig, c: ServiceConfig)
    requires a.project == b.project == c.project && a.service == b.service == c.service
    ensures Publish([a], Part(a.project, [b, c])) == Merged([c])
    ensures Publish([], Part(a.project, [b, c])) == DuplicateService(KeyOf(a))
  {
    hide KeyOf, Upserted, Foreign, Repeated;
    SameKey(a, b);
    SameKey(a, c);
    UpsertedPresent(a, b, c);
    UpsertedAbsent(a.project, b, c);
    RepeatedPair(b, c);
  }

  lemma UpsertedPresent(a: ServiceConfig, b: ServiceConfig, c: ServiceConfig)
    requires a.project == b.project == c.project && a.service == b.service == c.service
    ensures Upserted([a], a.project, [b, c]) == [c]
  {
    hide Keep, Named;
    NamedTwice(b, c);
    assert AppliedNames([a], a.project, [b, c]) == {a.service};
    KeepsNothing([b, c], NameNotIn({a.service}));
    assert UpsertAll([a], a.project, [b, c]) == [c];
    assert [c] + [] == [c];
  }

  lemma UpsertedAbsent(owner: string, b: ServiceConfig, c: ServiceConfig)
    ensures Upserted([], owner, [b, c]) == [b, c]
  {
    hide Keep, Named;
    assert AppliedNames([], owner, [b, c]) == {};
    KeepAll([b, c], NameNotIn({}));
  }

  lemma RepeatedPair(b: ServiceConfig, c: ServiceConfig)
    requires KeyOf(b) == KeyOf(c)
    ensures Repeated([b, c]) == Some(KeyOf(b)) && Repeated([c]) == None
    ensures b.project == c.project ==> Foreign(b.project, [b, c]) == None
  {
    hide KeyOf;
    assert [b, c][..1] == [b] && UniqueKeys([b]) && UniqueKeys([c]);
    assert b in [b];
  }

  lemma SameKey(a: ServiceConfig, b: ServiceConfig)
    requires a.project == b.project && a.service == b.service
    ensures KeyOf(a) == KeyOf(b)
  {
  }

  lemma NamedTwice(b: ServiceConfig, c: ServiceConfig)
    requires b.service == c.service
    ensures Named([b, c], c.service) == Some(c)
  {
  }

  /** No two selected entries share a label. */
  ghost predicate SelectedDistinct(s: seq<ServiceConfig>, p: ServiceConfig -> bool) {
    forall i, j :: 0 <= i < j < |s| && p(s[i]) && p(s[j]) ==> KeyOf(s[i]) != KeyOf(s[j])
  }

  lemma {:induction false} SelectedDistinctIff(s: seq<ServiceConfig>, p: ServiceConfig -> bool)
    ensures DistinctBy(Keep(s, p), KeyOf) <==> SelectedDistinct(s, p)
    decreases |s|
  {
    hide Keep, KeyOf, SelectedDistinct, DistinctBy;
    if s == [] {
      KeepNone(p);
      NoneSelected(p);
    } else {
      var front, x := s[..|s| - 1], s[|s| - 1];
      SplitLast(s);
      SelectedDistinctIff(front, p);
      KeepLast(front, x, p);
      SelectedLast(front, x, p);
      if p(x) { AppendDistinctIff(Keep(front, p), x); }
    }
  }

  lemma NoneSelected(p: ServiceConfig -> bool)
    ensures SelectedDistinct([], p) && DistinctBy([], KeyOf)
  {
  }

  lemma SelectedLast(front: seq<ServiceConfig>, x: ServiceConfig, p: ServiceConfig -> bool)
    ensures SelectedDistinct(front + [x], p)
        <==> SelectedDistinct(front, p) && (p(x) ==> forall q :: q in Keep(front, p) ==> KeyOf(q) != KeyOf(x))
  {
    hide Keep, KeyOf;
    var s := front + [x];
    assert forall i :: 0 <= i < |front| ==> front[i] == s[i];
    if SelectedDistinct(s, p) && p(x) {
      forall q | q in Keep(front, p) ensures KeyOf(q) != KeyOf(x) {
        var i :| 0 <= i < |front| && front[i] == q;
        assert p(s[i]) && p(s[|front|]);
      }
    } else if !SelectedDistinct(s, p) && SelectedDistinct(front, p) {
      var i, j :| 0 <= i < j < |s| && p(s[i]) && p(s[j]) && KeyOf(s[i]) == KeyOf(s[j]);
      assert j == |front| && s[i] in front;
    }
  }

  lemma AppendDistinctIff(s: seq<ServiceConfig>, x: ServiceConfig)
    ensures DistinctBy(s + [x], KeyOf) <==> DistinctBy(s, KeyOf) && forall q :: q in s ==> KeyOf(q) != KeyOf(x)
  {
    hide KeyOf;
    if DistinctBy(s + [x], KeyOf) {
      DistinctPrefix(s, s + [x]);
      LastIsNew(s, x);
    } else if forall q :: q in s ==> KeyOf(q) != KeyOf(x) {
      if DistinctBy(s, KeyOf) { DistinctAppend(s, x, KeyOf); }
    }
  }

  lemma {:induction false} ConcatDistinctIff(a: seq<ServiceConfig>, b: seq<ServiceConfig>)
    requires DistinctBy(a, KeyOf) && forall x, y :: x in a && y in b ==> KeyOf(x) != KeyOf(y)
    ensures DistinctBy(a + b, KeyOf) <==> DistinctBy(b, KeyOf)
  {
    hide KeyOf;
    var s := a + b;
    if DistinctBy(s, KeyOf) {
      forall i, j | 0 <= i < j < |b| ensures KeyOf(b[i]) != KeyOf(b[j]) {
        assert s[|a| + i] == b[i] && s[|a| + j] == b[j];
      }
    }
    if DistinctBy(b, KeyOf) {
      forall i, j | 0 <= i < j < |s| ensures KeyOf(s[i]) != KeyOf(s[j]) {
        if j >= |a| { assert s[j] == b[j - |a|]; }
        if i >= |a| { assert s[i] == b[i - |a|]; } else { assert s[i] in a; }
      }
    }
  }

  lemma UpsertKeepsKeys(existing: seq<ServiceConfig>, d: Deploy)
    requires Owned(d) && UniqueKeys(existing)
    ensures DistinctBy(UpsertAll(existing, d.owner, d.incoming), KeyOf)
  {
    hide Upsert;
    var u := UpsertAll(existing, d.owner, d.incoming);
    forall i | 0 <= i < |u| ensures KeyOf(u[i]) == KeyOf(existing[i]) { UpsertKeepsProject(existing[i], d.owner, d.incoming); }
  }

  /** The owner already runs a service of this name. */
  ghost predicate Present(existing: seq<ServiceConfig>, owner: string, name: string) {
    exists s :: s in existing && s.project == owner && s.service == name
  }

  /** An incoming entry that is appended has a key no upserted entry has. */
  lemma AppendedIsNew(existing: seq<ServiceConfig>, d: Deploy, u: ServiceConfig, t: ServiceConfig)
    requires Owned(d) && SlashFree(existing) && '/' !in d.owner
    requires u in UpsertAll(existing, d.owner, d.incoming)
    requires t in d.incoming && t.service !in AppliedNames(existing, d.owner, d.incoming)
    ensures KeyOf(u) != KeyOf(t)
  {
    hide Upsert, KeyOf, Named;
    var all := UpsertAll(existing, d.owner, d.incoming);
    var i :| 0 <= i < |all| && all[i] == u;
    UpsertKeepsProject(existing[i], d.owner, d.incoming);
    assert existing[i] in existing;
    NamedWhenListed(d.incoming, t);
    if KeyOf(u) == KeyOf(t) { SameOwnerOfKey(u, t); }
  }

  lemma NamedWhenListed(incoming: seq<ServiceConfig>, t: ServiceConfig)
    requires t in incoming
    ensures Named(incoming, t.service).Some?
  {
  }

  lemma AppliedIffPresent(existing: seq<ServiceConfig>, d: Deploy, t: ServiceConfig)
    requires t in d.incoming
    ensures t.service in AppliedNames(existing, d.owner, d.incoming) <==> Present(existing, d.owner, t.service)
  {
    hide Named;
    NamedWhenListed(d.incoming, t);
  }

  /** On a node with unique keys a partial deploy is accepted exactly when every name it lists twice is already there. */
  lemma PartialAcceptedIff(existing: seq<ServiceConfig>, d: Deploy)
    requires d.Part? && Owned(d) && UniqueKeys(existing) && SlashFree(existing) && '/' !in d.owner
    ensures Publish(existing, d).Merged? <==>
              forall i, j :: 0 <= i < j < |d.incoming| && d.incoming[i].service == d.incoming[j].service ==>
                Present(existing, d.owner, d.incoming[i].service)
  {
    hide *;
    var u, names := UpsertAll(existing, d.owner, d.incoming), AppliedNames(existing, d.owner, d.incoming);
    var tail := Keep(d.incoming, NameNotIn(names));
    AcceptedIff(existing, d);
    PublishedIs(existing, d);
    UniqueIsDistinct(u + tail);
    UpsertKeepsKeys(existing, d);
    TailIsNew(existing, d, tail);
    ConcatDistinctIff(u, tail);
    SelectedDistinctIff(d.incoming, NameNotIn(names));
    TwiceListed(existing, d, names);
  }

  lemma PublishedIs(existing: seq<ServiceConfig>, d: Deploy)
    requires d.Part?
    ensures Published(existing, d)
         == UpsertAll(existing, d.owner, d.incoming) + Keep(d.incoming, NameNotIn(AppliedNames(existing, d.owner, d.incoming)))
  {
    hide Keep, UpsertAll, AppliedNames;
  }

  lemma TailIsNew(existing: seq<ServiceConfig>, d: Deploy, tail: seq<ServiceConfig>)
    requires Owned(d) && SlashFree(existing) && '/' !in d.owner
    requires tail == Keep(d.incoming, NameNotIn(AppliedNames(existing, d.owner, d.incoming)))
    ensures forall x, y :: x in UpsertAll(existing, d.owner, d.incoming) && y in tail ==> KeyOf(x) != KeyOf(y)
  {
    hide Keep, KeyOf, UpsertAll, AppliedNames, Owned, SlashFree;
    forall x, y | x in UpsertAll(existing, d.owner, d.incoming) && y in tail ensures KeyOf(x) != KeyOf(y) {
      AppendedIsNew(existing, d, x, y);
    }
  }

  lemma SameNameSameKey(d: Deploy, a: ServiceConfig, b: ServiceConfig)
    requires Owned(d) && '/' !in d.owner && a in d.incoming && b in d.incoming
    ensures KeyOf(a) == KeyOf(b) <==> a.service == b.service
  {
    hide KeyOf;
    if KeyOf(a) == KeyOf(b) { SameOwnerOfKey(a, b); }
    if a.service == b.service { SameKey(a, b); }
  }

  /** Appended entries are distinct exactly when every name listed twice is present. */
  lemma TwiceListed(existing: seq<ServiceConfig>, d: Deploy, names: set<string>)
    requires Owned(d) && '/' !in d.owner && names == AppliedNames(existing, d.owner, d.incoming)
    ensures SelectedDistinct(d.incoming, NameNotIn(names)) <==>
              forall i, j :: 0 <= i < j < |d.incoming| && d.incoming[i].service == d.incoming[j].service ==>
                Present(existing, d.owner, d.incoming[i].service)
  {
    hide KeyOf, AppliedNames, Owned, Present;
    forall i, j | 0 <= i < j < |d.incoming|
      ensures KeyOf(d.incoming[i]) == KeyOf(d.incoming[j]) <==> d.incoming[i].service == d.incoming[j].service
      ensures d.incoming[i].service in names <==> Present(existing, d.owner, d.incoming[i].service)
    {
      assert d.incoming[i] in d.incoming && d.incoming[j] in d.incoming;
      SameNameSameKey(d, d.incoming[i], d.incoming[j]);
      AppliedIffPresent(existing, d, d.incoming[i]);
    }
  }

  // ---- owners ----

  /** `componentOwner`: the project alone, or project and component around the separator. */
  function ComponentOwner(project: string, component: Option<string>): string {
    match component case None => project case Some(c) => project + "--" + c
  }

  function EnvProject(project: string, env: Option<string>): string {
    match env case None => project case Some(e) => project + "-" + e
  }

  function FootprintOwner(project: string, component: Option<string>, env: Option<string>): string {
    EnvProject(ComponentOwner(project, component), env)
  }

  ghost predicate HasSeparator(s: string) { exists i :: 0 <= i < |s| - 1 && s[i] == '-' && s[i + 1] == '-' }

  /** What the configuration schema demands of a project or component name. */
  ghost predicate OwnerPart(s: string) { IsLabel(s) && !HasSeparator(s) }

  lemma SeparatorInside(p: string, c: string)
    ensures HasSeparator(p + "--" + c)
  {
    var s := p + "--" + c;
    assert s[|p|] == '-' && s[|p| + 1] == '-';
  }

  /** A longer first part would reach into the other's separator. */
  lemma LongerReachesSeparator(p: string, c: string, q: string, d: string)
    requires p + "--" + c == q + "--" + d && |p| < |q|
    ensures HasSeparator(q) || q[|q| - 1] == '-'
  {
    var s := p + "--" + c;
    assert s == q + "--" + d;
    assert q[|p|] == s[|p|] == '-';
    if |p| + 1 < |q| {
      assert q[|p| + 1] == s[|p| + 1] == '-';
    }
  }

  lemma SameCut(p: string, c: string, q: string, d: string)
    requires p + "--" + c == q + "--" + d && |p| == |q|
    ensures p == q && c == d
  {
    var s := p + "--" + c;
    assert p == s[..|p|] && q == s[..|q|];
    assert c == s[|p| + 2..] && d == s[|q| + 2..];
  }

  /** Distinct (project, component) pairs have distinct owners. */
  lemma OwnersDistinct(p: string, c: Option<string>, q: string, d: Option<string>)
    requires OwnerPart(p) && OwnerPart(q) && (c.Some? ==> OwnerPart(c.value)) && (d.Some? ==> OwnerPart(d.value))
    requires ComponentOwner(p, c) == ComponentOwner(q, d)
    ensures p == q && c == d
  {
    hide HasSeparator;
    if c.Some? { SeparatorInside(p, c.value); }
    if d.Some? { SeparatorInside(q, d.value); }
    if c.Some? && d.Some? {
      if |p| < |q| { LongerReachesSeparator(p, c.value, q, d.value); }
      else if |q| < |p| { LongerReachesSeparator(q, d.value, p, c.value); }
      else { SameCut(p, c.value, q, d.value); }
    }
  }

  /** Within one environment footprints stay apart. */
  lemma FootprintsDistinctInOneEnv(p: string, c: Option<string>, q: string, d: Option<string>, env: Option<string>)
    requires OwnerPart(p) && OwnerPart(q) && (c.Some? ==> OwnerPart(c.value)) && (d.Some? ==> OwnerPart(d.value))
    requires FootprintOwner(p, c, env) == FootprintOwner(q, d, env)
    ensures p == q && c == d
  {
    var a, b := ComponentOwner(p, c), ComponentOwner(q, d);
    if env.Some? {
      assert a == (a + "-" + env.value)[..|a|] && b == (b + "-" + env.value)[..|b|];
    }
    OwnersDistinct(p, c, q, d);
  }

  /** The environment `env` of owner `a` reads as the rest of the longer owner `b`, deployed to `other`. */
  ghost predicate Completes(a: string, env: Option<string>, b: string, other: Option<string>) {
    exists piece :: b == a + "-" + piece && env == Some(EnvProject(piece, other))
  }

  /**
   Across environments two footprints are the same if and only if they are deployments of
   the same owner to the same environment, or one owner extends the other by a dash and a
   piece that, with its own environment, is the other's environment.
   */
  lemma FootprintsCollideIff(p: string, c: Option<string>, env: Option<string>, q: string, d: Option<string>, other: Option<string>)
    requires OwnerPart(p) && OwnerPart(q) && (c.Some? ==> OwnerPart(c.value)) && (d.Some? ==> OwnerPart(d.value))
    ensures FootprintOwner(p, c, env) == FootprintOwner(q, d, other)
        <==> (p == q && c == d && env == other)
             || Completes(ComponentOwner(p, c), env, ComponentOwner(q, d), other)
             || Completes(ComponentOwner(q, d), other, ComponentOwner(p, c), env)
  {
    hide OwnerPart, ComponentOwner, Completes;
    var a, b := ComponentOwner(p, c), ComponentOwner(q, d);
    CompletesCollides(a, env, b, other);
    CompletesCollides(b, other, a, env);
    if EnvProject(a, env) == EnvProject(b, other) {
      if |a| < |b| { LongerCompletes(a, env, b, other); }
      else if |b| < |a| { LongerCompletes(b, other, a, env); }
      else {
        SameOwnerSameEnv(a, env, b, other);
        OwnersDistinct(p, c, q, d);
      }
    }
  }

  lemma CompletesCollides(a: string, env: Option<string>, b: string, other: Option<string>)
    ensures Completes(a, env, b, other) ==> EnvProject(a, env) == EnvProject(b, other)
  {
    if piece :| b == a + "-" + piece && env == Some(EnvProject(piece, other)) {
      if other.Some? { assert a + "-" + (piece + "-" + other.value) == a + "-" + piece + "-" + other.value; }
    }
  }

  lemma LongerCompletes(a: string, env: Option<string>, b: string, other: Option<string>)
    requires EnvProject(a, env) == EnvProject(b, other) && |a| < |b|
    ensures Completes(a, env, b, other)
  {
    var s := EnvProject(a, env);
    assert s[..|a|] == a && s[..|b|] == b && b[|a|] == s[|a|];
    var piece := b[|a| + 1..];
    assert b == a + "-" + piece;
    assert env.value == s[|a| + 1..];
    assert EnvProject(piece, other) == s[|a| + 1..];
  }

  lemma SameOwnerSameEnv(a: string, env: Option<string>, b: string, other: Option<string>)
    requires EnvProject(a, env) == EnvProject(b, other) && |a| == |b|
    ensures a == b && env == other
  {
    var s := EnvProject(a, env);
    assert s[..|a|] == a && s[..|b|] == b;
    if env.Some? { assert env.value == s[|a| + 1..]; }
    if other.Some? { assert other.value == s[|b| + 1..]; }
  }

  /** Across environments they can collide: an environment reads like the end of a name. */
  lemma FootprintsCollideAcrossEnvs()
    ensures FootprintOwner("blog", None, Some("staging")) == FootprintOwner("blog-staging", None, None)
    ensures OwnerPart("blog") && OwnerPart("blog-staging") && OwnerPart("staging")
  {
    assert "blog" + "-" + "staging" == "blog-staging";
  }
}
