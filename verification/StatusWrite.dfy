/**
 Write-on-change status publishing (`status_write.rs`): a status is stored when its
 meaningful content changed or a heartbeat is due. The fingerprint is the content itself:
 the digest the agent compares is taken to be injective.
 */
module StatusWrite {
  import opened Common
  import opened Text
  import opened Lists
  import opened Stamp
  import opened StampProofs

  datatype ReplicaStatus = ReplicaStatus(
    index: int, containerId: Option<string>, hostPort: Option<int>, state: string, image: string, healthy: bool)

  datatype JobRunStatus = JobRunStatus(
    id: string, requestedAt: string, startedAt: Option<string>, finishedAt: Option<string>,
    exitCode: Option<int>, state: string, message: string)

  datatype ServiceStatus = ServiceStatus(
    project: string, service: string, image: string, state: string, message: string, containerId: Option<string>,
    desiredReplicas: int, runningReplicas: int, replicas: seq<ReplicaStatus>,
    cron: Option<string>, backup: Option<string>, jobRun: Option<JobRunStatus>, updatedAt: string)

  datatype CaddyStatus = CaddyStatus(managed: bool, lastReloadAt: Option<string>, error: Option<string>)

  datatype EdgeRouteStatus = EdgeRouteStatus(domain: string, upstreams: int)

  datatype NodeStatus = NodeStatus(
    nodeId: string, agentId: string, lastSeen: int, agentVersion: string, services: seq<ServiceStatus>,
    caddy: CaddyStatus, edgeRoutes: seq<EdgeRouteStatus>, host: Option<string>)

  // ---- the fingerprinted content ----

  datatype FpJobRun = FpJobRun(id: string, requestedAt: string, exitCode: Option<int>, state: string, message: string)

  datatype FpService = FpService(
    project: string, service: string, image: string, state: string, message: string, containerId: Option<string>,
    desiredReplicas: int, runningReplicas: int, replicas: seq<ReplicaStatus>, backup: Option<string>, jobRun: Option<FpJobRun>)

  datatype Payload = Payload(
    nodeId: string, agentId: string, agentVersion: string, caddyManaged: bool, caddyError: Option<string>,
    services: seq<FpService>, edgeRoutes: seq<EdgeRouteStatus>)

  function InsertByIndex(r: ReplicaStatus, s: seq<ReplicaStatus>): seq<ReplicaStatus> {
    if s == [] || r.index < s[0].index then [r] + s else [s[0]] + InsertByIndex(r, s[1..])
  }

  function SortByIndex(s: seq<ReplicaStatus>): seq<ReplicaStatus> {
    if s == [] then [] else InsertByIndex(s[|s| - 1], SortByIndex(s[..|s| - 1]))
  }

  function StatusKey(s: ServiceStatus): string { ServiceKey(s.project, s.service) }

  function RouteDomain(r: EdgeRouteStatus): string { r.domain }

  function FpServiceOf(s: ServiceStatus): FpService {
    FpService(s.project, s.service, s.image, s.state, s.message, s.containerId, s.desiredReplicas, s.runningReplicas,
              SortByIndex(s.replicas), s.backup,
              match s.jobRun case None => None case Some(j) => Some(FpJobRun(j.id, j.requestedAt, j.exitCode, j.state, j.message)))
  }

  function FpServices(s: seq<ServiceStatus>): (r: seq<FpService>)
    ensures |r| == |s| && forall i :: 0 <= i < |r| ==> r[i] == FpServiceOf(s[i])
  {
    seq(|s|, i requires 0 <= i < |s| => FpServiceOf(s[i]))
  }

  function Fingerprint(s: NodeStatus): Payload {
    Payload(s.nodeId, s.agentId, s.agentVersion, s.caddy.managed, s.caddy.error,
            FpServices(SortBy(s.services, StatusKey)), SortBy(s.edgeRoutes, RouteDomain))
  }

  // ---- listing order does not matter ----

  ghost predicate IncreasingIndex(s: seq<ReplicaStatus>) { forall i, j :: 0 <= i < j < |s| ==> s[i].index < s[j].index }

  ghost predicate DistinctIndex(s: seq<ReplicaStatus>) { forall i, j :: 0 <= i < j < |s| ==> s[i].index != s[j].index }

  lemma {:induction false} InsertByIndexSorts(r: ReplicaStatus, s: seq<ReplicaStatus>)
    requires IncreasingIndex(s) && forall i :: 0 <= i < |s| ==> s[i].index != r.index
    ensures IncreasingIndex(InsertByIndex(r, s)) && multiset(InsertByIndex(r, s)) == multiset(s) + multiset{r}
    decreases |s|
  {
    hide InsertByIndex;
    if s == [] || r.index < s[0].index {
      InsertFirst(r, s);
    } else {
      HeadAndTail(s);
      InsertByIndexSorts(r, s[1..]);
      InsertLater(r, s);
      LeastPrepended(s[0], r, s[1..], InsertByIndex(r, s[1..]));
    }
  }

  lemma LeastPrepended(first: ReplicaStatus, r: ReplicaStatus, rest: seq<ReplicaStatus>, t: seq<ReplicaStatus>)
    requires IncreasingIndex(t) && multiset(t) == multiset(rest) + multiset{r}
    requires r.index > first.index && forall i :: 0 <= i < |rest| ==> rest[i].index > first.index
    ensures IncreasingIndex([first] + t) && multiset([first] + t) == multiset([first] + rest) + multiset{r}
  {
    forall i | 0 <= i < |t| ensures t[i].index > first.index {
      assert t[i] in multiset(t);
      assert t[i] == r || t[i] in rest;
    }
  }

  lemma InsertFirst(r: ReplicaStatus, s: seq<ReplicaStatus>)
    requires s == [] || r.index < s[0].index
    ensures InsertByIndex(r, s) == [r] + s
  {
  }

  lemma InsertLater(r: ReplicaStatus, s: seq<ReplicaStatus>)
    requires s != [] && r.index >= s[0].index
    ensures InsertByIndex(r, s) == [s[0]] + InsertByIndex(r, s[1..])
  {
  }

  lemma {:induction false} SortByIndexSorts(s: seq<ReplicaStatus>)
    requires DistinctIndex(s)
    ensures IncreasingIndex(SortByIndex(s)) && multiset(SortByIndex(s)) == multiset(s)
    decreases |s|
  {
    hide InsertByIndex;
    if s != [] {
      var front, last := s[..|s| - 1], s[|s| - 1];
      SortByIndexSorts(front);
      IndexIsNew(s, SortByIndex(front));
      InsertByIndexSorts(last, SortByIndex(front));
      assert s == front + [last];
    }
  }

  lemma IndexIsNew(s: seq<ReplicaStatus>, t: seq<ReplicaStatus>)
    requires s != [] && DistinctIndex(s) && multiset(t) == multiset(s[..|s| - 1])
    ensures forall i :: 0 <= i < |t| ==> t[i].index != s[|s| - 1].index
  {
    forall i | 0 <= i < |t| ensures t[i].index != s[|s| - 1].index {
      assert t[i] in multiset(t);
      assert t[i] in s[..|s| - 1];
    }
  }

  lemma LeastFirst(a: seq<ReplicaStatus>, x: ReplicaStatus)
    requires IncreasingIndex(a) && x in multiset(a)
    ensures x == a[0] || a[0].index < x.index
  {
    var i :| 0 <= i < |a| && a[i] == x;
  }

  lemma {:induction false} IncreasingUnique(a: seq<ReplicaStatus>, b: seq<ReplicaStatus>)
    requires IncreasingIndex(a) && IncreasingIndex(b) && multiset(a) == multiset(b)
    ensures a == b
    decreases |a|
  {
    assert |a| == |multiset(a)| == |multiset(b)| == |b|;
    if a != [] {
      HeadAndTail(a);
      HeadAndTail(b);
      LeastFirst(a, b[0]);
      LeastFirst(b, a[0]);
      SameTail(a, b);
      IncreasingUnique(a[1..], b[1..]);
    }
  }

  /** The same services, each listing the same replicas, in any order. */
  ghost predicate Relisted(a: ServiceStatus, b: ServiceStatus) {
    && b == a.(replicas := b.replicas, updatedAt := b.updatedAt, cron := b.cron, jobRun := b.jobRun)
    && multiset(a.replicas) == multiset(b.replicas) && DistinctIndex(a.replicas) && DistinctIndex(b.replicas)
    && FpServiceOf(a).jobRun == FpServiceOf(b).jobRun
  }

  lemma RelistedService(a: ServiceStatus, b: ServiceStatus)
    requires Relisted(a, b)
    ensures FpServiceOf(a) == FpServiceOf(b)
  {
    SortByIndexSorts(a.replicas);
    SortByIndexSorts(b.replicas);
    IncreasingUnique(SortByIndex(a.replicas), SortByIndex(b.replicas));
  }

  /**
   The fingerprint is blind to the listing order of services, of their replicas and of edge
   routes, and to every time stamp and host sample.
   */
  lemma OrderDoesNotMatter(a: NodeStatus, b: NodeStatus, relisted: seq<ServiceStatus>)
    requires UniqueNames(a.services, StatusKey) && UniqueNames(relisted, StatusKey) && multiset(relisted) == multiset(a.services)
    requires |b.services| == |relisted| && forall i :: 0 <= i < |relisted| ==> Relisted(relisted[i], b.services[i])
    requires UniqueNames(a.edgeRoutes, RouteDomain) && UniqueNames(b.edgeRoutes, RouteDomain)
    requires multiset(a.edgeRoutes) == multiset(b.edgeRoutes)
    requires b.nodeId == a.nodeId && b.agentId == a.agentId && b.agentVersion == a.agentVersion
    requires b.caddy.managed == a.caddy.managed && b.caddy.error == a.caddy.error
    ensures Fingerprint(a) == Fingerprint(b)
  {
    hide ServiceKey;
    ReorderedSortsAlike(a.services, relisted, StatusKey);
    ReorderedSortsAlike(a.edgeRoutes, b.edgeRoutes, RouteDomain);
    SortsInStep(relisted, b.services);
    var x, y := SortBy(relisted, StatusKey), SortBy(b.services, StatusKey);
    forall i | 0 <= i < |x| ensures FpServiceOf(x[i]) == FpServiceOf(y[i]) { RelistedService(x[i], y[i]); }
  }

  lemma {:induction false} InsertsInStep(r: ServiceStatus, s: seq<ServiceStatus>, q: ServiceStatus, t: seq<ServiceStatus>)
    requires Relisted(r, q) && |s| == |t| && forall i :: 0 <= i < |s| ==> Relisted(s[i], t[i])
    ensures var x, y := InsertBy(r, s, StatusKey), InsertBy(q, t, StatusKey);
            |x| == |y| && forall i :: 0 <= i < |x| ==> Relisted(x[i], y[i])
    decreases |s|
  {
    hide ServiceKey, StringLess, FpServiceOf;
    if s != [] && !StringLess(StatusKey(r), StatusKey(s[0])) {
      InsertsInStep(r, s[1..], q, t[1..]);
    }
  }

  lemma {:induction false} SortsInStep(s: seq<ServiceStatus>, t: seq<ServiceStatus>)
    requires |s| == |t| && forall i :: 0 <= i < |s| ==> Relisted(s[i], t[i])
    ensures var x, y := SortBy(s, StatusKey), SortBy(t, StatusKey);
            |x| == |y| && forall i :: 0 <= i < |x| ==> Relisted(x[i], y[i])
    decreases |s|
  {
    hide Relisted, InsertBy;
    if s != [] {
      SortsInStep(s[..|s| - 1], t[..|t| - 1]);
      InsertsInStep(s[|s| - 1], SortBy(s[..|s| - 1], StatusKey), t[|t| - 1], SortBy(t[..|t| - 1], StatusKey));
    }
  }

  // ---- content matters ----

  /** Two services agree on everything a reader acts on. */
  ghost predicate SameService(a: ServiceStatus, b: ServiceStatus) {
    && a.project == b.project && a.service == b.service && a.image == b.image && a.state == b.state && a.message == b.message
    && a.containerId == b.containerId && a.desiredReplicas == b.desiredReplicas && a.runningReplicas == b.runningReplicas
    && a.replicas == b.replicas && a.backup == b.backup && (a.jobRun.Some? <==> b.jobRun.Some?)
    && (a.jobRun.Some? ==>
         && a.jobRun.value.id == b.jobRun.value.id && a.jobRun.value.requestedAt == b.jobRun.value.requestedAt
         && a.jobRun.value.exitCode == b.jobRun.value.exitCode && a.jobRun.value.state == b.jobRun.value.state
         && a.jobRun.value.message == b.jobRun.value.message)
  }

  ghost predicate SameContent(a: NodeStatus, b: NodeStatus) {
    && a.nodeId == b.nodeId && a.agentId == b.agentId && a.agentVersion == b.agentVersion
    && a.caddy.managed == b.caddy.managed && a.caddy.error == b.caddy.error && a.edgeRoutes == b.edgeRoutes
    && |a.services| == |b.services| && forall i :: 0 <= i < |a.services| ==> SameService(a.services[i], b.services[i])
  }

  /** Listed by service key, replica index and domain, as the agent builds its statuses. */
  ghost predicate InOrder(s: NodeStatus) {
    && SortedNames(s.services, StatusKey) && SortedNames(s.edgeRoutes, RouteDomain)
    && forall i :: 0 <= i < |s.services| ==> IncreasingIndex(s.services[i].replicas)
  }

  lemma SortedIsSorted<T>(s: seq<T>, name: T -> string)
    requires SortedNames(s, name)
    ensures SortBy(s, name) == s
  {
    hide StringLess;
    forall i, j | 0 <= i < j < |s| ensures name(s[i]) != name(s[j]) {
      StringLessIrreflexive(name(s[i]));
    }
    SortBySorts(s, name);
    SortedUnique(SortBy(s, name), s, name);
  }

  lemma IncreasingIsSorted(s: seq<ReplicaStatus>)
    requires IncreasingIndex(s)
    ensures SortByIndex(s) == s
  {
    SortByIndexSorts(s);
    IncreasingUnique(SortByIndex(s), s);
  }

  lemma ServiceDecides(a: ServiceStatus, b: ServiceStatus)
    requires IncreasingIndex(a.replicas) && IncreasingIndex(b.replicas)
    ensures FpServiceOf(a) == FpServiceOf(b) <==> SameService(a, b)
  {
    IncreasingIsSorted(a.replicas);
    IncreasingIsSorted(b.replicas);
  }

  /**
   The fingerprint tells two ordered statuses apart exactly when they differ in something
   other than time stamps, schedule rollups and host samples.
   */
  lemma ContentDecides(a: NodeStatus, b: NodeStatus)
    requires InOrder(a) && InOrder(b)
    ensures Fingerprint(a) == Fingerprint(b) <==> SameContent(a, b)
  {
    hide FpServiceOf, SameService, SortBy, SortedNames, IncreasingIndex;
    SortedIsSorted(a.services, StatusKey);
    SortedIsSorted(b.services, StatusKey);
    SortedIsSorted(a.edgeRoutes, RouteDomain);
    SortedIsSorted(b.edgeRoutes, RouteDomain);
    var x, y := FpServices(a.services), FpServices(b.services);
    if |a.services| == |b.services| {
      forall i | 0 <= i < |a.services| ensures x[i] == y[i] <==> SameService(a.services[i], b.services[i]) {
        ServiceDecides(a.services[i], b.services[i]);
      }
    }
  }

  // ---- deciding ----

  datatype WriteReason = First | Changed | Liveness | Skip

  datatype Tracker = Tracker(fingerprint: Option<Payload>, lastWriteMs: int)

  function DecideStatusWrite(prev: Tracker, fingerprint: Payload, nowMs: int, livenessMs: int): WriteReason {
    if prev.fingerprint.None? then First
    else if prev.fingerprint.value != fingerprint then Changed
    else if nowMs - prev.lastWriteMs >= livenessMs then Liveness
    else Skip
  }

  function Advance(prev: Tracker, fingerprint: Payload, nowMs: int, livenessMs: int): Tracker {
    if DecideStatusWrite(prev, fingerprint, nowMs, livenessMs).Skip? then prev else Tracker(Some(fingerprint), nowMs)
  }

  /** How a put ends: stored, refused, or stored although an error came back. */
  datatype Put = Stored | Refused | StoredButFailed

  /** One process's publisher, and what is stored under the node's status key. */
  class StatusWriter {
    const livenessMs: int
    var prev: Tracker
    ghost var stored: Option<NodeStatus>

    /** The tracker remembers exactly what is stored. */
    ghost predicate InStep()
      reads this
    {
      match prev.fingerprint
      case None => stored.None?
      case Some(f) => stored.Some? && Fingerprint(stored.value) == f
    }

    constructor (livenessMs: int)
      ensures this.livenessMs == livenessMs && InStep() && prev == Tracker(None, 0)
    {
      this.livenessMs, prev, stored := livenessMs, Tracker(None, 0), None;
    }

    method PutStatus(status: NodeStatus, put: Put) returns (ok: bool)
      modifies `stored
      ensures ok <==> put.Stored?
      ensures stored == if put.Refused? then old(stored) else Some(status)
    {
      ok := put.Stored?;
      if !put.Refused? { stored := Some(status); }
    }

    /**
     Store when first, changed or due; the tracker moves only with a successful put. As long
     as no failing put takes hold, what is stored then has the content of the current status,
     just as if every status were stored.
     */
    method MaybeWrite(status: NodeStatus, nowMs: int, put: Put) returns (r: Option<WriteReason>)
      modifies `prev, `stored
      ensures var reason := DecideStatusWrite(old(prev), Fingerprint(status), nowMs, livenessMs);
              r == if reason.Skip? || put.Stored? then Some(reason) else None
      ensures prev == if r.Some? then Advance(old(prev), Fingerprint(status), nowMs, livenessMs) else old(prev)
      ensures stored == if r == Some(Skip) || (r.None? && put.Refused?) then old(stored) else Some(status)
      ensures old(InStep()) && r.Some? ==> InStep() && stored.Some? && Fingerprint(stored.value) == Fingerprint(status)
      ensures old(InStep()) && put.Refused? ==> InStep()
    {
      hide Fingerprint;
      var fingerprint := Fingerprint(status);
      var reason := DecideStatusWrite(prev, fingerprint, nowMs, livenessMs);
      if !reason.Skip? {
        var ok := PutStatus(status, put);
        if !ok {
          return None;
        }
        prev := Tracker(Some(fingerprint), nowMs);
      }
      return Some(reason);
    }

    /**
     Unconditional put. One that succeeds brings the tracker back in step, whatever happened
     before; one that fails leaves it as it was, whether or not the status was stored.
     */
    method ForceWrite(status: NodeStatus, nowMs: int, put: Put)
      modifies `prev, `stored
      ensures put.Stored? ==> InStep() && stored == Some(status) && prev == Tracker(Some(Fingerprint(status)), nowMs)
      ensures put.Refused? ==> stored == old(stored) && prev == old(prev) && (InStep() <==> old(InStep()))
      ensures put.StoredButFailed? ==> stored == Some(status) && prev == old(prev)
      ensures put.StoredButFailed? ==> (InStep() <==> old(prev).fingerprint == Some(Fingerprint(status)))
    {
      hide Fingerprint;
      var ok := PutStatus(status, put);
      if ok {
        prev := Tracker(Some(Fingerprint(status)), nowMs);
      }
    }
  }

  /** A failing put that took hold can leave a stale status stored: the tracker still remembers the one before. */
  method StaleAfterAmbiguousPut(w: StatusWriter, before: NodeStatus, passing: NodeStatus, nowMs: int)
    requires w.InStep() && w.prev == Tracker(Some(Fingerprint(before)), nowMs) && w.livenessMs > 2
    requires Fingerprint(passing) != Fingerprint(before)
    modifies w
    ensures w.stored == Some(passing) && Fingerprint(w.stored.value) != Fingerprint(before)
  {
    hide Fingerprint;
    var failed := w.MaybeWrite(passing, nowMs + 1, StoredButFailed);
    var skipped := w.MaybeWrite(before, nowMs + 2, Stored);
    assert skipped == Some(Skip);
  }

  // ---- heartbeats ----

  /** One tick: the content to publish and when. */
  datatype Beat = Beat(content: Payload, at: int)

  /** The tracker after a run of ticks, every put succeeding. */
  function After(beats: seq<Beat>, livenessMs: int): Tracker {
    if beats == [] then Tracker(None, 0)
    else Advance(After(beats[..|beats| - 1], livenessMs), beats[|beats| - 1].content, beats[|beats| - 1].at, livenessMs)
  }

  /** Ticks come in time order, at most `pollMs` apart. */
  ghost predicate Regular(beats: seq<Beat>, pollMs: int) {
    forall i :: 0 < i < |beats| ==> beats[i - 1].at <= beats[i].at <= beats[i - 1].at + pollMs
  }

  /** A reader takes a heartbeat for stale when it is older than the window (`isHeartbeatStale` in `status.ts`). */
  predicate HeartbeatStale(seen: int, nowMs: int, staleMs: int) { nowMs - seen > staleMs }

  /** At any instant until the next tick is due, the node reads fresh. */
  ghost predicate FreshUntilNext(beats: seq<Beat>, pollMs: int, livenessMs: int, staleMs: int) {
    forall t :: Awaits(beats, pollMs, t) ==> !HeartbeatStale(After(beats, livenessMs).lastWriteMs, t, staleMs)
  }

  ghost predicate Awaits(beats: seq<Beat>, pollMs: int, t: int) {
    beats != [] && beats[|beats| - 1].at <= t <= beats[|beats| - 1].at + pollMs
  }

  /** Right after a tick the last heartbeat is younger than the liveness interval. */
  lemma {:induction false} RecentlyWritten(beats: seq<Beat>, pollMs: int, livenessMs: int)
    requires beats != [] && Regular(beats, pollMs) && livenessMs >= 1
    ensures var w := After(beats, livenessMs);
            w.fingerprint.Some? && 0 <= beats[|beats| - 1].at - w.lastWriteMs < livenessMs
    decreases |beats|
  {
    var front := beats[..|beats| - 1];
    if front != [] {
      RecentlyWritten(front, pollMs, livenessMs);
      assert beats[|front| - 1] == front[|front| - 1];
    }
  }

  lemma HeartbeatStaysFresh(beats: seq<Beat>, pollMs: int, livenessMs: int, staleMs: int)
    requires beats != [] && Regular(beats, pollMs) && livenessMs >= 1 && livenessMs + pollMs <= staleMs + 1
    ensures FreshUntilNext(beats, pollMs, livenessMs, staleMs)
  {
    RecentlyWritten(beats, pollMs, livenessMs);
  }

  /** Ticks at 0, 1, ..., with unchanged content. */
  function Idle(content: Payload, n: nat): (b: seq<Beat>)
    ensures |b| == n && forall i :: 0 <= i < n ==> b[i] == Beat(content, i)
  {
    if n == 0 then [] else Idle(content, n - 1) + [Beat(content, n - 1)]
  }

  lemma {:induction false} IdleNeverRewrites(content: Payload, n: nat, livenessMs: int)
    requires 1 <= n <= livenessMs
    ensures After(Idle(content, n), livenessMs) == Tracker(Some(content), 0)
    decreases n
  {
    if n > 1 {
      IdleNeverRewrites(content, n - 1, livenessMs);
      assert Idle(content, n)[..n - 1] == Idle(content, n - 1);
    } else {
      assert Idle(content, 1)[..0] == [];
    }
  }

  /**
   A node reads fresh between any two ticks, whatever the ticks, exactly when poll and
   liveness intervals together exceed the stale window by at most a millisecond. If
   poll <= liveness <= stale / 2, its heartbeat is even younger than the window.
   */
  lemma FreshIff(pollMs: int, livenessMs: int, staleMs: int, content: Payload)
    requires pollMs >= 1 && livenessMs >= 1
    ensures (forall beats :: beats != [] && Regular(beats, pollMs) ==> FreshUntilNext(beats, pollMs, livenessMs, staleMs))
        <==> livenessMs + pollMs <= staleMs + 1
    ensures pollMs <= livenessMs <= staleMs / 2 ==>
              forall beats :: beats != [] && Regular(beats, pollMs) ==> FreshUntilNext(beats, pollMs, livenessMs, staleMs - 1)
  {
    hide After, FreshUntilNext, Regular, Idle, Awaits;
    forall beats, window | beats != [] && Regular(beats, pollMs) && livenessMs + pollMs <= window + 1
      ensures FreshUntilNext(beats, pollMs, livenessMs, window)
    {
      HeartbeatStaysFresh(beats, pollMs, livenessMs, window);
    }
    if livenessMs + pollMs > staleMs + 1 { IdleGoesStale(content, pollMs, livenessMs, staleMs); }
  }

  lemma IdleGoesStale(content: Payload, pollMs: int, livenessMs: int, staleMs: int)
    requires pollMs >= 1 && livenessMs >= 1 && livenessMs + pollMs > staleMs + 1
    ensures var beats := Idle(content, livenessMs);
            beats != [] && Regular(beats, pollMs) && !FreshUntilNext(beats, pollMs, livenessMs, staleMs)
  {
    hide After, Idle;
    var beats := Idle(content, livenessMs);
    IdleNeverRewrites(content, livenessMs, livenessMs);
    assert Awaits(beats, pollMs, livenessMs - 1 + pollMs);
  }

  const DEFAULT_POLL_MS := 60_000
  const LIVENESS_HEARTBEAT_MS := 30_000
  const HEARTBEAT_STALE_MS := 60_000

  /** The agent's default poll interval lies outside that condition: some run of its ticks reads stale. */
  lemma DefaultPollGoesStale(content: Payload)
    ensures exists beats :: beats != [] && Regular(beats, DEFAULT_POLL_MS)
                            && !FreshUntilNext(beats, DEFAULT_POLL_MS, LIVENESS_HEARTBEAT_MS, HEARTBEAT_STALE_MS)
  {
    hide Regular, FreshUntilNext;
    FreshIff(DEFAULT_POLL_MS, LIVENESS_HEARTBEAT_MS, HEARTBEAT_STALE_MS, content);
  }

  // ---- resolving the liveness interval ----

  /** A configured interval: a real number of milliseconds, or not a number at all. */
  datatype Interval = Finite(ms: real) | NotFinite

  /** Division by two, truncated towards zero. */
  function Half(n: int): int { if n >= 0 then n / 2 else -((-n) / 2) }

  /** The effective interval and how many warnings it drew; a fraction is dropped. */
  function ResolveLiveness(liveness: Interval, pollMs: int, staleMs: int): (int, nat) {
    var maxSafe := Half(staleMs);
    var slow := if pollMs >= staleMs then 1 else 0;
    if liveness.NotFinite? || liveness.ms <= 0.0 || liveness.ms > maxSafe as real then (maxSafe, 1 + slow)
    else (liveness.ms.Floor, slow)
  }

  /**
   Whatever is configured, the resolved interval is at most half the stale window, so the
   heartbeat of a node that polls at least once per resolved interval is younger than it.
   */
  lemma ResolvedIsSafe(liveness: Interval, pollMs: int, staleMs: int, beats: seq<Beat>)
    requires staleMs >= 2 && beats != [] && Regular(beats, pollMs)
    ensures var l := ResolveLiveness(liveness, pollMs, staleMs).0;
            && 0 <= l <= staleMs / 2
            && (1 <= pollMs <= l ==> FreshUntilNext(beats, pollMs, l, staleMs - 1))
  {
    var l := ResolveLiveness(liveness, pollMs, staleMs).0;
    if 1 <= pollMs <= l { HeartbeatStaysFresh(beats, pollMs, l, staleMs - 1); }
  }
}
