/**
 The edge's routes (`routes.rs`): one per domain, from the shards; routes of one domain are
 merged by joining their upstreams.
 */
module Routes {
  import opened Common
  import opened Text
  import opened Lists
  import opened Routing

  datatype WebRoute = WebRoute(domain: string, upstreams: seq<string>, healthPath: Option<string>)

  function Upstream(b: EdgeBackend): string { b.privateIp + ":" + SignedDecimal(b.hostPort) }

  function Upstreams(s: seq<EdgeBackend>): (r: seq<string>)
    ensures |r| == |s| && forall i :: 0 <= i < |r| ==> r[i] == Upstream(s[i])
  {
    seq(|s|, i requires 0 <= i < |s| => Upstream(s[i]))
  }

  /** The route's health path is the first the shards carry for its domain. */
  ghost predicate FirstPath(shards: seq<UpstreamShard>, domain: string, path: Option<string>) {
    match path
    case None => NoPathBefore(shards, domain, |shards|, 0)
    case Some(_) => exists i: nat, j: nat ::
      HasPath(shards, domain, i, j) && NoPathBefore(shards, domain, i, j) && path == shards[i].backends[j].healthPath
  }

  /** One route per domain, in order of first appearance, with the domain's backends in order. */
  ghost predicate RoutesOf(shards: seq<UpstreamShard>, routes: seq<WebRoute>) {
    var groups := ByDomain(Flat(shards));
    && |routes| == |groups|
    && forall i :: 0 <= i < |routes| ==>
         && routes[i].domain == groups[i].0 && routes[i].upstreams == Upstreams(groups[i].1)
         && FirstPath(shards, routes[i].domain, routes[i].healthPath)
  }

  method BuildShardRoutes(shards: seq<UpstreamShard>) returns (routes: seq<WebRoute>)
    ensures RoutesOf(shards, routes)
  {
    hide ByDomain, Flat, Upstreams, NoPathBefore, HasPath;
    var groups := BuildEdgeBackendsFromShards(shards);
    routes := [];
    for k := 0 to |groups|
      invariant |routes| == k
      invariant forall i :: 0 <= i < k ==>
                  && routes[i].domain == groups[i].0 && routes[i].upstreams == Upstreams(groups[i].1)
                  && FirstPath(shards, routes[i].domain, routes[i].healthPath)
    {
      var path := EdgeHealthPathForDomain(shards, groups[k].0);
      routes := routes + [WebRoute(groups[k].0, Upstreams(groups[k].1), path)];
    }
  }

  // ---- merging ----

  /** Two routes of one domain: the upstreams of both, the first health path. */
  function Joined(a: WebRoute, r: WebRoute): WebRoute {
    WebRoute(r.domain, a.upstreams + r.upstreams, if a.healthPath.Some? then a.healthPath else r.healthPath)
  }

  /** Join a route into the list: into the route of its domain, or at the end. */
  function Join(merged: seq<WebRoute>, r: WebRoute): seq<WebRoute> {
    if merged == [] then [r]
    else if merged[0].domain == r.domain then
      [Joined(merged[0], r)] + merged[1..]
    else [merged[0]] + Join(merged[1..], r)
  }

  function Merged(routes: seq<WebRoute>): seq<WebRoute> {
    if routes == [] then [] else Join(Merged(routes[..|routes| - 1]), routes[|routes| - 1])
  }

  ghost predicate DistinctDomains(routes: seq<WebRoute>) {
    forall i, j :: 0 <= i < j < |routes| ==> routes[i].domain != routes[j].domain
  }

  /** The merge under construction: `table` holds the routes so far, `order` their domains. */
  ghost predicate Tabled(order: seq<string>, table: map<string, WebRoute>, merged: seq<WebRoute>) {
    && |order| == |merged| && DistinctDomains(merged)
    && (forall d :: d in table <==> d in order)
    && (forall i :: 0 <= i < |order| ==> order[i] == merged[i].domain && table[order[i]] == merged[i])
  }

  lemma {:induction false} JoinFacts(merged: seq<WebRoute>, r: WebRoute)
    requires DistinctDomains(merged)
    ensures var t := Join(merged, r);
            && DistinctDomains(t)
            && ((forall i :: 0 <= i < |merged| ==> merged[i].domain != r.domain) ==> t == merged + [r])
            && (forall k :: 0 <= k < |merged| && merged[k].domain == r.domain ==> t == merged[k := Joined(merged[k], r)])
    decreases |merged|
  {
    hide Join;
    if merged == [] {
      JoinEmpty(r);
    } else if merged[0].domain == r.domain {
      JoinHere(merged, r);
    } else {
      var rest := merged[1..];
      JoinFacts(rest, r);
      JoinPast(merged, r);
      var t, u := Join(merged, r), Join(rest, r);
      assert forall i :: 0 <= i < |rest| ==> rest[i] == merged[i + 1];
      if k :| 0 <= k < |merged| && merged[k].domain == r.domain {
        assert rest[k - 1] == merged[k];
        var x := Joined(merged[k], r);
        assert u == rest[k - 1 := x];
        assert t == merged[k := x];
      } else {
        assert t == merged + [r];
      }
    }
  }

  lemma JoinEmpty(r: WebRoute)
    ensures Join([], r) == [r]
  {
  }

  lemma JoinHere(merged: seq<WebRoute>, r: WebRoute)
    requires merged != [] && merged[0].domain == r.domain
    ensures Join(merged, r) == merged[0 := Joined(merged[0], r)]
  {
  }

  lemma JoinPast(merged: seq<WebRoute>, r: WebRoute)
    requires merged != [] && merged[0].domain != r.domain
    ensures Join(merged, r) == [merged[0]] + Join(merged[1..], r)
  {
  }

  method MergeRoutesByDomain(routes: seq<WebRoute>) returns (merged: seq<WebRoute>)
    ensures merged == Merged(routes)
  {
    hide Merged, Join;
    var order: seq<string> := [];
    var table: map<string, WebRoute> := map[];
    MergedNothing();
    for i := 0 to |routes|
      invariant Tabled(order, table, Merged(routes[..i]))
    {
      var r := routes[i];
      ghost var before := Merged(routes[..i]);
      MergedNext(routes, i);
      JoinFacts(before, r);
      if r.domain !in table {
        order := order + [r.domain];
        table := table[r.domain := WebRoute(r.domain, r.upstreams, r.healthPath)];
      } else {
        var existing := table[r.domain];
        ghost var k :| 0 <= k < |order| && order[k] == r.domain;
        table := table[r.domain := WebRoute(r.domain, existing.upstreams + r.upstreams,
                                            if existing.healthPath.Some? then existing.healthPath else r.healthPath)];
      }
    }
    assert routes[..|routes|] == routes;
    merged := [];
    for i := 0 to |order|
      invariant merged == Merged(routes)[..i]
    {
      merged := merged + [table[order[i]]];
    }
  }

  lemma MergedNothing()
    ensures Merged([]) == []
  {
  }

  lemma MergedNext(routes: seq<WebRoute>, i: nat)
    requires i < |routes|
    ensures Merged(routes[..i + 1]) == Join(Merged(routes[..i]), routes[i])
  {
    hide Join;
    assert routes[..i + 1][..i] == routes[..i];
  }

  lemma {:induction false} MergingDistinct(routes: seq<WebRoute>)
    requires DistinctDomains(routes)
    ensures Merged(routes) == routes
    decreases |routes|
  {
    hide Join;
    if routes != [] {
      var front, r := routes[..|routes| - 1], routes[|routes| - 1];
      SplitLast(routes);
      assert forall i :: 0 <= i < |front| ==> front[i] == routes[i];
      MergingDistinct(front);
      JoinFacts(front, r);
    }
  }

  /** Merging the routes built from shards changes nothing: there is one per domain already. */
  lemma BuiltRoutesAreMerged(shards: seq<UpstreamShard>, routes: seq<WebRoute>)
    requires RoutesOf(shards, routes)
    ensures Merged(routes) == routes
  {
    hide Flat, Upstreams, FirstPath, Merged, Keep;
    MergingDistinct(routes);
  }

  /** Merging keeps every upstream: each domain's list is the concatenation of its routes' lists. */
  function UpstreamsFor(routes: seq<WebRoute>, domain: string): seq<string> {
    if routes == [] then []
    else UpstreamsFor(routes[..|routes| - 1], domain)
         + if routes[|routes| - 1].domain == domain then routes[|routes| - 1].upstreams else []
  }

  lemma UpstreamsNext(routes: seq<WebRoute>, r: WebRoute, domain: string)
    ensures UpstreamsFor(routes + [r], domain) == UpstreamsFor(routes, domain) + if r.domain == domain then r.upstreams else []
  {
    assert (routes + [r])[..|routes|] == routes;
  }

  lemma {:induction false} UpstreamsOfOne(routes: seq<WebRoute>, k: nat, domain: string, x: WebRoute)
    requires DistinctDomains(routes) && k < |routes| && routes[k].domain == domain == x.domain
    ensures UpstreamsFor(routes, domain) == routes[k].upstreams && UpstreamsFor(routes[k := x], domain) == x.upstreams
    decreases |routes|
  {
    var n := |routes| - 1;
    var front := routes[..n];
    if k == n {
      NoUpstreams(front, domain);
      assert routes[k := x][..n] == front;
    } else {
      UpstreamsOfOne(front, k, domain, x);
      assert routes[k := x][..n] == front[k := x];
    }
  }

  lemma {:induction false} NoUpstreams(routes: seq<WebRoute>, domain: string)
    requires forall i :: 0 <= i < |routes| ==> routes[i].domain != domain
    ensures UpstreamsFor(routes, domain) == []
    decreases |routes|
  {
    if routes != [] { NoUpstreams(routes[..|routes| - 1], domain); }
  }

  lemma {:induction false} UpstreamsElsewhere(routes: seq<WebRoute>, k: nat, x: WebRoute, domain: string)
    requires k < |routes| && routes[k].domain == x.domain != domain
    ensures UpstreamsFor(routes[k := x], domain) == UpstreamsFor(routes, domain)
    decreases |routes|
  {
    var n := |routes| - 1;
    if k < n {
      UpstreamsElsewhere(routes[..n], k, x, domain);
      assert routes[k := x][..n] == routes[..n][k := x];
    } else {
      assert routes[k := x][..n] == routes[..n];
    }
  }

  lemma {:induction false} MergingKeepsUpstreams(routes: seq<WebRoute>, domain: string)
    ensures DistinctDomains(Merged(routes)) && UpstreamsFor(Merged(routes), domain) == UpstreamsFor(routes, domain)
    decreases |routes|
  {
    hide Join, UpstreamsFor;
    if routes != [] {
      var front, r := routes[..|routes| - 1], routes[|routes| - 1];
      SplitLast(routes);
      MergingKeepsUpstreams(front, domain);
      var m := Merged(front);
      JoinFacts(m, r);
      UpstreamsNext(front, r, domain);
      if k :| 0 <= k < |m| && m[k].domain == r.domain {
        var x := Joined(m[k], r);
        if r.domain == domain { UpstreamsOfOne(m, k, domain, x); } else { UpstreamsElsewhere(m, k, x, domain); }
      } else {
        UpstreamsNext(m, r, domain);
      }
    }
  }
}
