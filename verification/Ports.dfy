/** The node's port table (`state.rs`): stable host ports, found by linear probing from a hash. */
module Ports {
  import opened Common
  import opened Text

  const PORT_MIN := 20_000
  const PORT_RANGE := 10_000
  const WORD := 0x1_0000_0000

  // ---- the hash ----

  /** 31-multiplier hash in 32-bit wrap-around arithmetic. */
  function Hash(s: string): (h: nat)
    ensures h < WORD
  {
    if s == "" then 0 else (Hash(s[..|s| - 1]) * 31 % WORD + s[|s| - 1] as int) % WORD
  }

  method ComputeHash(s: string) returns (h: nat)
    ensures h == Hash(s)
  {
    h := 0;
    for i := 0 to |s|
      invariant h == Hash(s[..i])
    {
      assert s[..i + 1][..i] == s[..i];
      h := (h * 31 % WORD + s[i] as int) % WORD;
    }
    assert s[..|s|] == s;
  }

  // ---- the probe ----

  predicate InWindow(p: int) { PORT_MIN <= p < PORT_MIN + PORT_RANGE }

  /** The `k`-th port of the probe sequence, wrapping around the window. */
  function Probe(start: int, k: nat): (p: int)
    ensures InWindow(p)
  {
    PORT_MIN + (start - PORT_MIN + k) % PORT_RANGE
  }

  function StartPort(slot: string): (p: int)
    ensures InWindow(p)
  {
    PORT_MIN + Hash(slot) % PORT_RANGE
  }

  /** Probe `k` is the first of the sequence to be free. */
  ghost predicate FirstFree(used: set<int>, start: int, k: nat) {
    Probe(start, k) !in used && forall j: nat :: j < k ==> Probe(start, j) in used
  }

  ghost predicate SomeFree(used: set<int>) { exists p :: InWindow(p) && p !in used }

  /** Every window port is reached, within one turn around the window. */
  lemma ProbeReaches(start: int, p: int)
    requires InWindow(start) && InWindow(p)
    ensures exists k: nat :: k < PORT_RANGE && Probe(start, k) == p
  {
    var k := if p >= start then p - start else p - start + PORT_RANGE;
    assert Probe(start, k) == p;
  }

  lemma {:induction false} FirstFreeExists(used: set<int>, start: int, k: nat)
    requires Probe(start, k) !in used
    ensures exists f: nat :: f <= k && FirstFree(used, start, f)
    decreases k
  {
    if j: nat :| j < k && Probe(start, j) !in used {
      FirstFreeExists(used, start, j);
    } else {
      assert FirstFree(used, start, k);
    }
  }

  lemma NextProbe(start: int, k: nat)
    requires InWindow(start)
    ensures Probe(start, 0) == start
    ensures PORT_MIN + (Probe(start, k) + 1 - PORT_MIN) % PORT_RANGE == Probe(start, k + 1)
  {
    WrapNext(start - PORT_MIN + k);
  }

  lemma WrapNext(n: int)
    ensures (n % PORT_RANGE + 1) % PORT_RANGE == (n + 1) % PORT_RANGE
  {
  }

  /** The probe ends if and only if a window port is free. */
  lemma ProbeEndsIff(used: set<int>, start: int)
    requires InWindow(start)
    ensures (exists k: nat :: Probe(start, k) !in used) <==> SomeFree(used)
  {
    if p :| InWindow(p) && p !in used {
      ProbeReaches(start, p);
    }
    if k: nat :| Probe(start, k) !in used {
      assert InWindow(Probe(start, k));
    }
  }

  lemma {:induction false} RangeSize(lo: int, hi: int)
    requires lo <= hi + 1
    ensures |IntRange(lo, hi)| == hi - lo + 1
    decreases hi + 1 - lo
  {
    if lo <= hi { RangeSize(lo + 1, hi); }
  }

  lemma SubsetSize<T>(a: set<T>, b: set<T>)
    requires a <= b
    ensures |a| <= |b|
  {
    assert b == a + (b - a);
  }

  lemma {:induction false} ValuesAtMost(ports: map<string, int>)
    ensures |ports.Values| <= |ports|
    decreases |ports|
  {
    if ports.Keys != {} {
      var k :| k in ports.Keys;
      var rest := ports - {k};
      assert rest.Keys == ports.Keys - {k};
      ValuesAtMost(rest);
      SubsetSize(ports.Values, rest.Values + {ports[k]}) by {
        forall v | v in ports.Values ensures v in rest.Values + {ports[k]} {
          var q :| q in ports && ports[q] == v;
          if q != k { assert q in rest && rest[q] == v; }
        }
      }
      assert |ports| == |rest| + 1;
    } else {
      assert ports.Values == {};
    }
  }

  /** A table of fewer entries than the window has ports leaves one free. */
  lemma RoomLeft(ports: map<string, int>)
    requires |ports| < PORT_RANGE
    ensures SomeFree(ports.Values)
  {
    var window := IntRange(PORT_MIN, PORT_MIN + PORT_RANGE - 1);
    RangeSize(PORT_MIN, PORT_MIN + PORT_RANGE - 1);
    ValuesAtMost(ports);
    if window <= ports.Values { SubsetSize(window, ports.Values); }
    var p :| p in window && p !in ports.Values;
    assert InWindow(p);
  }

  // ---- the table ----

  ghost predicate Injective(ports: map<string, int>) {
    forall a, b :: a in ports && b in ports && ports[a] == ports[b] ==> a == b
  }

  /** What allocating `slot` does to a table; `port` is the answer. */
  ghost predicate Allocated(before: map<string, int>, slot: string, port: int, after: map<string, int>) {
    if slot in before then port == before[slot] && after == before
    else
      && after == before[slot := port]
      && exists k: nat :: k < PORT_RANGE && FirstFree(before.Values, StartPort(slot), k) && port == Probe(StartPort(slot), k)
  }

  lemma KeptPort(ports: map<string, int>, slot: string)
    requires slot in ports
    ensures Allocated(ports, slot, ports[slot], ports)
  {
  }

  lemma StartIs(slot: string)
    ensures StartPort(slot) == PORT_MIN + Hash(slot) % PORT_RANGE && InWindow(StartPort(slot))
  {
  }

  lemma NewPort(ports: map<string, int>, slot: string, k: nat)
    requires slot !in ports && k < PORT_RANGE && FirstFree(ports.Values, StartPort(slot), k)
    ensures Allocated(ports, slot, Probe(StartPort(slot), k), ports[slot := Probe(StartPort(slot), k)])
  {
    hide Hash, FirstFree;
  }

  /** Advance from `start`, wrapping around the window, to the first port not used. */
  method FindFree(used: set<int>, start: int) returns (port: int, ghost k: nat)
    requires InWindow(start) && SomeFree(used)
    ensures k < PORT_RANGE && FirstFree(used, start, k) && port == Probe(start, k)
  {
    ghost var p0 :| InWindow(p0) && p0 !in used;
    ProbeReaches(start, p0);
    ghost var reach: nat :| reach < PORT_RANGE && Probe(start, reach) == p0;
    FirstFreeExists(used, start, reach);
    k :| k <= reach && FirstFree(used, start, k);
    hide Probe;
    port := start;
    ghost var i: nat := 0;
    NextProbe(start, 0);
    while port in used
      invariant i <= k && port == Probe(start, i)
      decreases k - i
    {
      NextProbe(start, i);
      port := PORT_MIN + (port + 1 - PORT_MIN) % PORT_RANGE;
      i := i + 1;
    }
  }

  class LocalState {
    var ports: map<string, int>

    constructor (ports: map<string, int>)
      ensures this.ports == ports
    {
      this.ports := ports;
    }

    /**
     A port already filed is returned unchanged; otherwise the first free port, cyclically
     from the slot's hash. Without a free window port a new slot's probe would not end.
     */
    method AllocatePort(key: string, index: int) returns (port: int)
      requires PortSlot(key, index) in ports || SomeFree(ports.Values)
      modifies this
      ensures Allocated(old(ports), PortSlot(key, index), port, ports)
    {
      hide *;
      var slot := PortSlot(key, index);
      if slot in ports {
        port := ports[slot];
        KeptPort(ports, slot);
        return;
      }
      ghost var k;
      var h := ComputeHash(slot);
      StartIs(slot);
      port, k := FindFree(ports.Values, PORT_MIN + h % PORT_RANGE);
      NewPort(ports, slot, k);
      ports := ports[slot := port];
    }

    method ReleasePort(key: string, index: int)
      modifies this
      ensures ports == old(ports) - {PortSlot(key, index)}
    {
      ports := ports - {PortSlot(key, index)};
    }
  }

  // ---- any sequence of calls ----

  datatype Call = Allocate(key: string, index: int) | Release(key: string, index: int)

  function SlotOf(c: Call): string { PortSlot(c.key, c.index) }

  ghost predicate Called(before: map<string, int>, c: Call, after: map<string, int>) {
    match c
    case Allocate(_, _) => exists port :: Allocated(before, SlotOf(c), port, after)
    case Release(_, _) => after == before - {SlotOf(c)}
  }

  /** `tables` are the tables before and after each call. */
  ghost predicate History(tables: seq<map<string, int>>, calls: seq<Call>) {
    && |tables| == |calls| + 1
    && forall i :: 0 <= i < |calls| ==> Called(tables[i], calls[i], tables[i + 1])
  }

  lemma OneCall(before: map<string, int>, c: Call, after: map<string, int>)
    requires Called(before, c, after)
    ensures Injective(before) ==> Injective(after)
    ensures forall s :: s in after && s !in before ==>
              InWindow(after[s]) && after[s] !in before.Values && c == Allocate(c.key, c.index) && s == SlotOf(c)
    ensures forall s :: s in before && !(c.Release? && s == SlotOf(c)) ==> s in after && after[s] == before[s]
    ensures c.Allocate? ==> SlotOf(c) in after
    ensures c.Release? ==> SlotOf(c) !in after
  {
    hide PortSlot, Hash;
    if c.Allocate? {
      var port :| Allocated(before, SlotOf(c), port, after);
      if SlotOf(c) !in before {
        assert port !in before.Values;
        forall s | s in before ensures before[s] in before.Values { }
      }
    }
  }

  /** Starting from an injective table, the table is injective after any sequence of calls. */
  lemma {:induction false} StaysInjective(tables: seq<map<string, int>>, calls: seq<Call>, n: nat)
    requires History(tables, calls) && n <= |calls| && Injective(tables[0])
    ensures Injective(tables[n])
    ensures forall s :: s in tables[n] ==> InWindow(tables[n][s]) || (s in tables[0] && tables[n][s] == tables[0][s])
    decreases n
  {
    hide Injective, InWindow, PortSlot, Called;
    if n > 0 {
      StaysInjective(tables, calls, n - 1);
      OneCall(tables[n - 1], calls[n - 1], tables[n]);
      forall s | s in tables[n] ensures InWindow(tables[n][s]) || (s in tables[0] && tables[n][s] == tables[0][s]) {
        if s in tables[n - 1] && !(calls[n - 1].Release? && s == SlotOf(calls[n - 1])) {
          assert tables[n][s] == tables[n - 1][s];
        }
      }
    }
  }

  /** An allocation is stable until its own slot is released. */
  lemma {:induction false} StableUntilReleased(tables: seq<map<string, int>>, calls: seq<Call>, slot: string, i: nat, n: nat)
    requires History(tables, calls) && i <= n <= |calls| && slot in tables[i]
    requires forall j :: i <= j < n ==> !(calls[j].Release? && SlotOf(calls[j]) == slot)
    ensures slot in tables[n] && tables[n][slot] == tables[i][slot]
    decreases n - i
  {
    hide Injective, InWindow, PortSlot, Called;
    if i < n {
      StableUntilReleased(tables, calls, slot, i, n - 1);
      OneCall(tables[n - 1], calls[n - 1], tables[n]);
    }
  }
}
