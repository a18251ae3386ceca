/** Selecting from a list, in order, the elements that satisfy a test. */
module Lists {

  function Keep<T(!new)>(s: seq<T>, p: T -> bool): (r: seq<T>)
    ensures forall x :: x in r <==> x in s && p(x)
    ensures |r| <= |s|
  {
    if s == [] then [] else Keep(s[..|s| - 1], p) + (if p(s[|s| - 1]) then [s[|s| - 1]] else [])
  }

  lemma Assoc<T(!new)>(a: seq<T>, b: seq<T>, c: seq<T>)
    ensures (a + b) + c == a + (b + c)
  {
  }

  lemma KeepNone<T(!new)>(p: T -> bool)
    ensures Keep([], p) == []
  {
  }

  lemma KeepLast<T(!new)>(s: seq<T>, x: T, p: T -> bool)
    ensures Keep(s + [x], p) == if p(x) then Keep(s, p) + [x] else Keep(s, p)
  {
    var t := s + [x];
    assert t[..|t| - 1] == s;
  }

  lemma SplitLast<T(!new)>(s: seq<T>)
    requires s != []
    ensures s == s[..|s| - 1] + [s[|s| - 1]]
  {
  }

  lemma {:induction false} KeepAppend<T(!new)>(a: seq<T>, b: seq<T>, p: T -> bool)
    ensures Keep(a + b, p) == Keep(a, p) + Keep(b, p)
    decreases |b|
  {
    hide Keep;
    if b == [] {
      KeepNone(p);
      assert a + b == a;
    } else {
      var f, x := b[..|b| - 1], b[|b| - 1];
      SplitLast(b);
      KeepAppend(a, f, p);
      KeepLast(a + f, x, p);
      KeepLast(f, x, p);
      Assoc(a, f, [x]);
      Assoc(Keep(a, p), Keep(f, p), [x]);
    }
  }

  /** Two selections commute. */
  lemma {:induction false} KeepTwice<T(!new)>(s: seq<T>, p: T -> bool, q: T -> bool)
    ensures Keep(Keep(s, p), q) == Keep(Keep(s, q), p)
    decreases |s|
  {
    hide Keep;
    if s == [] {
      KeepNone(p);
      KeepNone(q);
    } else {
      var f, x := s[..|s| - 1], s[|s| - 1];
      SplitLast(s);
      KeepTwice(f, p, q);
      KeepLast(f, x, p);
      KeepLast(f, x, q);
      KeepLast(Keep(f, p), x, q);
      KeepLast(Keep(f, q), x, p);
    }
  }

  /** Tests that agree on a list select the same elements of it. */
  lemma {:induction false} KeepSame<T(!new)>(s: seq<T>, p: T -> bool, q: T -> bool)
    requires forall x :: x in s ==> p(x) == q(x)
    ensures Keep(s, p) == Keep(s, q)
    decreases |s|
  {
    hide Keep;
    if s == [] {
      KeepNone(p);
      KeepNone(q);
    } else {
      var f, x := s[..|s| - 1], s[|s| - 1];
      SplitLast(s);
      KeepSame(f, p, q);
      KeepLast(f, x, p);
      KeepLast(f, x, q);
    }
  }

  lemma {:induction false} KeepAll<T(!new)>(s: seq<T>, p: T -> bool)
    requires forall x :: x in s ==> p(x)
    ensures Keep(s, p) == s
    decreases |s|
  {
    hide Keep;
    if s == [] {
      KeepNone(p);
    } else {
      var f, x := s[..|s| - 1], s[|s| - 1];
      SplitLast(s);
      KeepAll(f, p);
      KeepLast(f, x, p);
    }
  }

  lemma {:induction false} KeepsNothing<T(!new)>(s: seq<T>, p: T -> bool)
    requires forall x :: x in s ==> !p(x)
    ensures Keep(s, p) == []
    decreases |s|
  {
    hide Keep;
    if s == [] {
      KeepNone(p);
    } else {
      SplitLast(s);
      KeepsNothing(s[..|s| - 1], p);
      KeepLast(s[..|s| - 1], s[|s| - 1], p);
    }
  }

  /** Selecting by one test, then by another, is selecting by both. */
  lemma {:induction false} KeepBoth<T(!new)>(s: seq<T>, p: T -> bool, q: T -> bool, both: T -> bool)
    requires forall x :: x in s ==> both(x) == (p(x) && q(x))
    ensures Keep(Keep(s, p), q) == Keep(s, both)
    decreases |s|
  {
    hide Keep;
    if s == [] {
      KeepNone(p);
      KeepNone(q);
      KeepNone(both);
    } else {
      var f, x := s[..|s| - 1], s[|s| - 1];
      SplitLast(s);
      KeepBoth(f, p, q, both);
      KeepLast(f, x, p);
      KeepLast(f, x, both);
      KeepLast(Keep(f, p), x, q);
    }
  }

  /** A test and its negation split the list's length. */
  lemma {:induction false} KeepCount<T(!new)>(s: seq<T>, p: T -> bool, q: T -> bool)
    requires forall x :: x in s ==> p(x) == !q(x)
    ensures |Keep(s, p)| + |Keep(s, q)| == |s|
    decreases |s|
  {
    hide Keep;
    if s == [] {
      KeepNone(p);
      KeepNone(q);
    } else {
      var f, x := s[..|s| - 1], s[|s| - 1];
      SplitLast(s);
      KeepCount(f, p, q);
      KeepLast(f, x, p);
      KeepLast(f, x, q);
    }
  }

  /** No value of a labelling occurs twice. */
  ghost predicate DistinctBy<T(!new), L>(s: seq<T>, tag: T -> L) {
    forall i, j :: 0 <= i < j < |s| ==> tag(s[i]) != tag(s[j])
  }

  lemma LastDistinct<T(!new), L>(s: seq<T>, tag: T -> L)
    requires DistinctBy(s, tag) && s != []
    ensures DistinctBy(s[..|s| - 1], tag)
    ensures forall x :: x in s[..|s| - 1] ==> tag(x) != tag(s[|s| - 1])
  {
    assert forall i :: 0 <= i < |s| - 1 ==> s[..|s| - 1][i] == s[i];
  }

  lemma DistinctAppend<T(!new), L>(s: seq<T>, x: T, tag: T -> L)
    requires DistinctBy(s, tag) && forall y :: y in s ==> tag(y) != tag(x)
    ensures DistinctBy(s + [x], tag)
  {
    var t := s + [x];
    forall i, j | 0 <= i < j < |t| ensures tag(t[i]) != tag(t[j]) {
      if j == |s| { assert s[i] in s; }
    }
  }

  lemma {:induction false} DistinctKeep<T(!new), L>(s: seq<T>, p: T -> bool, tag: T -> L)
    requires DistinctBy(s, tag)
    ensures DistinctBy(Keep(s, p), tag)
    decreases |s|
  {
    hide Keep;
    if s == [] {
      KeepNone(p);
    } else {
      var f, x := s[..|s| - 1], s[|s| - 1];
      LastDistinct(s, tag);
      SplitLast(s);
      DistinctKeep(f, p, tag);
      KeepLast(f, x, p);
      if p(x) { DistinctAppend(Keep(f, p), x, tag); }
    }
  }

  function Labels<T(!new, ==), L(==)>(s: seq<T>, tag: T -> L): set<L> { set x | x in s :: tag(x) }

  lemma {:induction false} DistinctCount<T(!new), L>(s: seq<T>, tag: T -> L)
    requires DistinctBy(s, tag)
    ensures |Labels(s, tag)| == |s|
    decreases |s|
  {
    if s == [] {
      assert Labels(s, tag) == {};
    } else {
      var f, x := s[..|s| - 1], s[|s| - 1];
      LastDistinct(s, tag);
      SplitLast(s);
      DistinctCount(f, tag);
      assert Labels(s, tag) == Labels(f, tag) + {tag(x)};
    }
  }

  lemma DistinctInjective<T(!new), L>(s: seq<T>, tag: T -> L, x: T, y: T)
    requires DistinctBy(s, tag) && x in s && y in s && tag(x) == tag(y)
    ensures x == y
  {
    var i :| 0 <= i < |s| && s[i] == x;
    var j :| 0 <= j < |s| && s[j] == y;
    assert i == j;
  }

  lemma {:induction false} LabelsAtMost<T(!new), L>(s: seq<T>, tag: T -> L)
    ensures |Labels(s, tag)| <= |s|
    decreases |s|
  {
    if s == [] {
      assert Labels(s, tag) == {};
    } else {
      var f, x := s[..|s| - 1], s[|s| - 1];
      SplitLast(s);
      LabelsAtMost(f, tag);
      assert Labels(s, tag) == Labels(f, tag) + {tag(x)};
    }
  }

  lemma {:induction false} CountDistinct<T(!new), L>(s: seq<T>, tag: T -> L)
    requires |Labels(s, tag)| == |s|
    ensures DistinctBy(s, tag)
    decreases |s|
  {
    if s != [] {
      var f, x := s[..|s| - 1], s[|s| - 1];
      SplitLast(s);
      LabelsAtMost(f, tag);
      assert Labels(s, tag) == Labels(f, tag) + {tag(x)};
      assert tag(x) !in Labels(f, tag);
      CountDistinct(f, tag);
      forall y | y in f ensures tag(y) != tag(x) { assert tag(y) in Labels(f, tag); }
      DistinctAppend(f, x, tag);
    }
  }

  lemma HeadAndTail<T>(s: seq<T>)
    requires s != []
    ensures multiset(s) == multiset{s[0]} + multiset(s[1..]) && s[0] in multiset(s) && s == [s[0]] + s[1..]
  {
    assert s == [s[0]] + s[1..];
  }

  /** Rearranged lists with a common head have rearranged tails. */
  lemma SameTail<T>(a: seq<T>, b: seq<T>)
    requires multiset(a) == multiset(b) && a != [] && b != [] && a[0] == b[0]
    ensures multiset(a[1..]) == multiset(b[1..])
  {
    HeadAndTail(a);
    HeadAndTail(b);
    assert multiset(a[1..]) == multiset(a) - multiset{a[0]};
    assert multiset(b[1..]) == multiset(b) - multiset{b[0]};
  }

  /** A rearrangement has the same members, the same length and no new repetition. */
  lemma Rearranged<T(!new)>(a: seq<T>, b: seq<T>)
    requires multiset(a) == multiset(b)
    ensures |a| == |b| && forall x :: x in a <==> x in b
  {
    assert |multiset(a)| == |multiset(b)|;
    forall x ensures x in a <==> x in b {
      assert x in a <==> x in multiset(a);
      assert x in b <==> x in multiset(b);
    }
  }

  lemma RearrangedDistinct<T(!new), L>(a: seq<T>, b: seq<T>, tag: T -> L)
    requires multiset(a) == multiset(b) && DistinctBy(b, tag)
    ensures DistinctBy(a, tag) && Labels(a, tag) == Labels(b, tag)
  {
    Rearranged(a, b);
    DistinctCount(b, tag);
    assert Labels(a, tag) == Labels(b, tag);
    CountDistinct(a, tag);
  }
}
