/**
 The stamp decides drift exactly: its text determines the environment, the restart mark
 and the name-sorted secret references and volumes, and nothing else.
 */
module StampProofs {
  import opened Common
  import opened Text
  import opened Types
  import opened Lists
  import opened Stamp

  lemma Comparable(a: string, x: string, b: string, y: string)
    requires a + x == b + y
    ensures a <= b || b <= a
  {
    forall k | 0 <= k < |a| && k < |b| ensures a[k] == b[k] {
      assert a[k] == (a + x)[k] && b[k] == (b + y)[k];
    }
  }

  /** Two texts with a common extension, neither properly extending the other, are one. */
  lemma SameHead(a: string, x: string, b: string, y: string)
    requires a + x == b + y
    requires (a <= b ==> a == b) && (b <= a ==> a == b)
    ensures a == b && x == y
  {
    Comparable(a, x, b, y);
    assert x == (a + x)[|a|..] && y == (b + y)[|b|..];
  }

  lemma StripHead(pre: string, x: string, y: string)
    requires pre + x == pre + y
    ensures x == y
  {
    SameHead(pre, x, pre, y);
  }

  lemma HexInjective(a: nat, b: nat)
    requires a < 32 && b < 32
    requires HexDigit(a / 16) == HexDigit(b / 16) && HexDigit(a % 16) == HexDigit(b % 16)
    ensures a == b
  {
    assert forall n: nat, m: nat | n < 16 && m < 16 :: HexDigit(n) == HexDigit(m) ==> n == m;
    assert a == a / 16 * 16 + a % 16 && b == b / 16 * 16 + b % 16;
  }

  /** No escaped character starts another, and no two characters escape alike. */
  lemma EscapePrefixFree(c: char, d: char)
    requires Escape(c) <= Escape(d)
    ensures c == d
  {
    var a, b := Escape(c), Escape(d);
    assert a[0] == b[0];
    if |a| > 1 {
      assert a[1] == b[1];
      if |a| == 6 {
        assert a[4] == b[4] && a[5] == b[5];
        HexInjective(c as int, d as int);
      }
    }
  }

  /** A closing quote is never mistaken for content. */
  lemma ClosingQuote(s: string, x: string)
    ensures (EscapeAll(s) + (['"'] + x))[0] == '"' <==> s == ""
  {
    if s != "" { assert EscapeAll(s)[0] == Escape(s[0])[0]; }
  }

  lemma EscapeNothing(x: string)
    ensures EscapeAll("") + (['"'] + x) == ['"'] + x
  {
  }

  lemma EscapeFirst(s: string, rest: string)
    requires s != ""
    ensures EscapeAll(s) + rest == Escape(s[0]) + (EscapeAll(s[1..]) + rest)
  {
    hide Escape;
    Regroup(Escape(s[0]), EscapeAll(s[1..]), rest);
  }

  lemma Regroup(a: string, b: string, c: string)
    ensures (a + b) + c == a + (b + c)
  {
  }

  lemma {:induction false} EscapeAllDecodes(s: string, x: string, t: string, y: string)
    requires EscapeAll(s) + (['"'] + x) == EscapeAll(t) + (['"'] + y)
    ensures s == t && x == y
    decreases |s|
  {
    hide EscapeAll, Escape;
    ClosingQuote(s, x);
    ClosingQuote(t, y);
    if s == "" {
      EscapeNothing(x);
      EscapeNothing(y);
      StripHead(['"'], x, y);
    } else {
      var a, b := EscapeAll(s[1..]) + (['"'] + x), EscapeAll(t[1..]) + (['"'] + y);
      EscapeFirst(s, ['"'] + x);
      EscapeFirst(t, ['"'] + y);
      HeadsMatch(s[0], a, t[0], b);
      EscapeAllDecodes(s[1..], x, t[1..], y);
      assert s == [s[0]] + s[1..] && t == [t[0]] + t[1..];
    }
  }

  lemma HeadsMatch(c: char, x: string, d: char, y: string)
    requires Escape(c) + x == Escape(d) + y
    ensures c == d && x == y
  {
    if Escape(c) <= Escape(d) { EscapePrefixFree(c, d); }
    if Escape(d) <= Escape(c) { EscapePrefixFree(d, c); }
    SameHead(Escape(c), x, Escape(d), y);
  }

  /** A quoted string can be read back off the front of any text. */
  lemma QuoteDecodes(s: string, x: string, t: string, y: string)
    requires Quote(s) + x == Quote(t) + y
    ensures s == t && x == y
  {
    assert Quote(s) + x == ['"'] + (EscapeAll(s) + (['"'] + x));
    assert Quote(t) + y == ['"'] + (EscapeAll(t) + (['"'] + y));
    StripHead(['"'], EscapeAll(s) + (['"'] + x), EscapeAll(t) + (['"'] + y));
    EscapeAllDecodes(s, x, t, y);
  }

  lemma EnvCut(v: EnvVar, x: string)
    ensures EnvJson(v) + x == Quote(v.name) + ([':'] + (Quote(v.value) + x))
  {
    hide Quote;
    Regroup(Quote(v.name), [':'] + Quote(v.value), x);
    Regroup([':'], Quote(v.value), x);
  }

  lemma EnvDecodes(v: EnvVar, x: string, w: EnvVar, y: string)
    requires EnvJson(v) + x == EnvJson(w) + y
    ensures v == w && x == y
  {
    hide Quote;
    EnvCut(v, x);
    EnvCut(w, y);
    QuoteDecodes(v.name, [':'] + (Quote(v.value) + x), w.name, [':'] + (Quote(w.value) + y));
    StripHead([':'], Quote(v.value) + x, Quote(w.value) + y);
    QuoteDecodes(v.value, x, w.value, y);
  }

  lemma PairCut(open: string, mid: string, a: string, b: string, x: string)
    ensures open + (a + (mid + (b + ['}']))) + x == open + (a + (mid + (b + (['}'] + x))))
  {
    Regroup(open, a + (mid + (b + ['}'])), x);
    Regroup(a, mid + (b + ['}']), x);
    Regroup(mid, b + ['}'], x);
    Regroup(b, ['}'], x);
  }

  /** An object of two string members, with fixed punctuation. */
  lemma PairDecodes(open: string, mid: string, a: string, b: string, x: string, c: string, d: string, y: string)
    requires open + (Quote(a) + (mid + (Quote(b) + ['}']))) + x == open + (Quote(c) + (mid + (Quote(d) + ['}']))) + y
    ensures a == c && b == d && x == y
  {
    hide Quote;
    var p, q := Quote(b) + (['}'] + x), Quote(d) + (['}'] + y);
    PairCut(open, mid, Quote(a), Quote(b), x);
    PairCut(open, mid, Quote(c), Quote(d), y);
    StripHead(open, Quote(a) + (mid + p), Quote(c) + (mid + q));
    QuoteDecodes(a, mid + p, c, mid + q);
    StripHead(mid, p, q);
    QuoteDecodes(b, ['}'] + x, d, ['}'] + y);
    StripHead(['}'], x, y);
  }

  /** Items that can be told apart at the front of any text, and from the closing bracket. */
  ghost predicate Decodable(a: seq<string>, b: seq<string>, close: char) {
    && (forall i, j :: 0 <= i < |a| && 0 <= j < |b| ==> SelfDelimiting(a[i], b[j]))
    && (forall i :: 0 <= i < |a| ==> a[i] != "" && a[i][0] != close)
    && (forall j :: 0 <= j < |b| ==> b[j] != "" && b[j][0] != close)
  }

  /** Neither text properly extends the other. */
  ghost predicate SelfDelimiting(a: string, b: string) { (a <= b ==> a == b) && (b <= a ==> a == b) }

  /** What follows the first item of a list. */
  function AfterFirst(items: seq<string>, close: char, rest: string): string
    requires items != []
  {
    if |items| == 1 then [close] + rest else [','] + (ListTail(items[1..], close) + rest)
  }

  lemma FirstItem(items: seq<string>, close: char, rest: string)
    requires items != []
    ensures ListTail(items, close) + rest == items[0] + AfterFirst(items, close, rest)
  {
    if |items| > 1 {
      assert items[0] + ([','] + ListTail(items[1..], close)) + rest
        == items[0] + ([','] + (ListTail(items[1..], close) + rest));
    }
  }

  lemma EmptyIffCloses(items: seq<string>, close: char, rest: string)
    requires forall i :: 0 <= i < |items| ==> items[i] != "" && items[i][0] != close
    ensures (ListTail(items, close) + rest)[0] == close <==> items == []
  {
    if items != [] { FirstItem(items, close, rest); }
  }

  lemma {:induction false} ListDecodes(a: seq<string>, x: string, b: seq<string>, y: string, close: char)
    requires close != ',' && Decodable(a, b, close)
    requires ListTail(a, close) + x == ListTail(b, close) + y
    ensures a == b && x == y
    decreases |a|
  {
    EmptyIffCloses(a, close, x);
    EmptyIffCloses(b, close, y);
    if a == [] {
      StripHead([close], x, y);
    } else {
      FirstItem(a, close, x);
      FirstItem(b, close, y);
      var p, q := AfterFirst(a, close, x), AfterFirst(b, close, y);
      SameHead(a[0], p, b[0], q);
      assert p[0] == (if |a| == 1 then close else ',') && q[0] == (if |b| == 1 then close else ',');
      assert a == [a[0]] + a[1..] && b == [b[0]] + b[1..];
      if |a| == 1 {
        StripHead([close], x, y);
      } else {
        StripHead([','], ListTail(a[1..], close) + x, ListTail(b[1..], close) + y);
        ListDecodes(a[1..], x, b[1..], y, close);
      }
    }
  }

  lemma PrefixSplits(a: string, b: string)
    requires a <= b
    ensures b == a + b[|a|..]
  {
  }

  lemma EnvDelimits(v: EnvVar, w: EnvVar)
    ensures EnvJson(v) <= EnvJson(w) ==> v == w
    ensures EnvJson(v) != "" && EnvJson(v)[0] == '"'
  {
    if EnvJson(v) <= EnvJson(w) {
      PrefixSplits(EnvJson(v), EnvJson(w));
      assert EnvJson(w) + "" == EnvJson(w);
      EnvDecodes(v, EnvJson(w)[|EnvJson(v)|..], w, "");
    }
  }

  lemma RefDelimits(v: SecretRef, w: SecretRef)
    ensures RefJson(v) <= RefJson(w) ==> v == w
    ensures RefJson(v) != "" && RefJson(v)[0] == '{'
  {
    if RefJson(v) <= RefJson(w) {
      PrefixSplits(RefJson(v), RefJson(w));
      assert RefJson(w) + "" == RefJson(w);
      PairDecodes("{\"name\":", ",\"ssm\":", v.name, v.ssm, RefJson(w)[|RefJson(v)|..], w.name, w.ssm, "");
    }
  }

  lemma VolumeDelimits(v: VolumeDecl, w: VolumeDecl)
    ensures VolumeJson(v) <= VolumeJson(w) ==> v == w
    ensures VolumeJson(v) != "" && VolumeJson(v)[0] == '{'
  {
    if VolumeJson(v) <= VolumeJson(w) {
      PrefixSplits(VolumeJson(v), VolumeJson(w));
      assert VolumeJson(w) + "" == VolumeJson(w);
      PairDecodes("{\"name\":", ",\"path\":", v.name, v.path, VolumeJson(w)[|VolumeJson(v)|..], w.name, w.path, "");
    }
  }

  lemma EnvListDecodes(a: seq<EnvVar>, x: string, b: seq<EnvVar>, y: string)
    requires ListTail(EnvItems(a), '}') + x == ListTail(EnvItems(b), '}') + y
    ensures a == b && x == y
  {
    hide EnvJson, ListTail;
    forall v, w ensures EnvJson(v) <= EnvJson(w) ==> v == w { EnvDelimits(v, w); }
    forall v ensures EnvJson(v) != "" && EnvJson(v)[0] == '"' { EnvDelimits(v, v); }
    ListDecodes(EnvItems(a), x, EnvItems(b), y, '}');
    forall i | 0 <= i < |a| ensures a[i] == b[i] {
      assert EnvItems(a)[i] == EnvItems(b)[i];
    }
  }

  lemma RefListDecodes(a: seq<SecretRef>, x: string, b: seq<SecretRef>, y: string)
    requires ListTail(RefItems(a), ']') + x == ListTail(RefItems(b), ']') + y
    ensures a == b && x == y
  {
    hide RefJson, ListTail;
    forall v, w ensures RefJson(v) <= RefJson(w) ==> v == w { RefDelimits(v, w); }
    forall v ensures RefJson(v) != "" && RefJson(v)[0] == '{' { RefDelimits(v, v); }
    ListDecodes(RefItems(a), x, RefItems(b), y, ']');
    forall i | 0 <= i < |a| ensures a[i] == b[i] {
      assert RefItems(a)[i] == RefItems(b)[i];
    }
  }

  lemma VolumeListDecodes(a: seq<VolumeDecl>, x: string, b: seq<VolumeDecl>, y: string)
    requires ListTail(VolumeItems(a), ']') + x == ListTail(VolumeItems(b), ']') + y
    ensures a == b && x == y
  {
    hide VolumeJson, ListTail;
    forall v, w ensures VolumeJson(v) <= VolumeJson(w) ==> v == w { VolumeDelimits(v, w); }
    forall v ensures VolumeJson(v) != "" && VolumeJson(v)[0] == '{' { VolumeDelimits(v, v); }
    ListDecodes(VolumeItems(a), x, VolumeItems(b), y, ']');
    forall i | 0 <= i < |a| ensures a[i] == b[i] {
      assert VolumeItems(a)[i] == VolumeItems(b)[i];
    }
  }

  lemma NullableDecodes(s: Option<string>, x: string, t: Option<string>, y: string)
    requires NullableJson(s) + x == NullableJson(t) + y
    ensures s == t && x == y
  {
    var l, r := NullableJson(s) + x, NullableJson(t) + y;
    assert l[0] == (if s.Some? then '"' else 'n');
    assert r[0] == (if t.Some? then '"' else 'n');
    if s.Some? { QuoteDecodes(s.value, x, t.value, y); } else { StripHead("null", x, y); }
  }

  lemma VolumesDecode(a: seq<VolumeDecl>, b: seq<VolumeDecl>)
    requires VolumesJson(a) == VolumesJson(b)
    ensures a == b
  {
    assert VolumesJson(a)[0] == (if a == [] then '}' else ',');
    assert VolumesJson(b)[0] == (if b == [] then '}' else ',');
    if a != [] {
      var p, q := ListTail(VolumeItems(a), ']') + "}", ListTail(VolumeItems(b), ']') + "}";
      StripHead(",\"volumes\":[", p, q);
      VolumeListDecodes(a, "}", b, "}");
    }
  }

  lemma DocumentDecodes(
      e1: seq<EnvVar>, r1: Option<string>, s1: seq<SecretRef>, v1: seq<VolumeDecl>,
      e2: seq<EnvVar>, r2: Option<string>, s2: seq<SecretRef>, v2: seq<VolumeDecl>)
    requires Document(e1, r1, s1, v1) == Document(e2, r2, s2, v2)
    ensures e1 == e2 && r1 == r2 && s1 == s2 && v1 == v2
  {
    var a3, b3 := ListTail(RefItems(s1), ']') + VolumesJson(v1), ListTail(RefItems(s2), ']') + VolumesJson(v2);
    var a2, b2 := ",\"secretRefs\":[" + a3, ",\"secretRefs\":[" + b3;
    var a1, b1 := ",\"restartAt\":" + (NullableJson(r1) + a2), ",\"restartAt\":" + (NullableJson(r2) + b2);
    StripHead("{\"env\":{", ListTail(EnvItems(e1), '}') + a1, ListTail(EnvItems(e2), '}') + b1);
    EnvListDecodes(e1, a1, e2, b1);
    StripHead(",\"restartAt\":", NullableJson(r1) + a2, NullableJson(r2) + b2);
    NullableDecodes(r1, a2, r2, b2);
    StripHead(",\"secretRefs\":[", a3, b3);
    RefListDecodes(s1, VolumesJson(v1), s2, VolumesJson(v2));
    VolumesDecode(v1, v2);
  }

  /**
   Two configurations carry the same stamp if and only if their environments and restart
   marks are equal and their secret references and volumes are equal once sorted by name.
   */
  lemma StampDecidesDrift(c: ServiceConfig, d: ServiceConfig)
    ensures ServiceConfigStamp(c) == ServiceConfigStamp(d)
            <==> c.env == d.env && c.restartAt == d.restartAt
                 && SortRefs(c.secretRefs) == SortRefs(d.secretRefs)
                 && SortVolumes(c.volumes) == SortVolumes(d.volumes)
  {
    if ServiceConfigStamp(c) == ServiceConfigStamp(d) {
      DocumentDecodes(c.env, c.restartAt, SortRefs(c.secretRefs), SortVolumes(c.volumes),
                      d.env, d.restartAt, SortRefs(d.secretRefs), SortVolumes(d.volumes));
    }
  }

  // ---- reordering ----

  ghost predicate UniqueNames<T>(s: seq<T>, name: T -> string) {
    forall i, j :: 0 <= i < j < |s| ==> name(s[i]) != name(s[j])
  }

  /** Names strictly increase. */
  ghost predicate SortedNames<T>(s: seq<T>, name: T -> string) {
    forall i, j :: 0 <= i < j < |s| ==> StringLess(name(s[i]), name(s[j]))
  }

  lemma {:induction false} InsertSorted<T>(x: T, s: seq<T>, name: T -> string)
    requires SortedNames(s, name) && forall i :: 0 <= i < |s| ==> name(s[i]) != name(x)
    ensures SortedNames(InsertBy(x, s, name), name)
    ensures multiset(InsertBy(x, s, name)) == multiset(s) + multiset{x}
    decreases |s|
  {
    hide StringLess;
    if s == [] {
    } else if StringLess(name(x), name(s[0])) {
      forall i | 0 <= i < |s| ensures StringLess(name(x), name(s[i])) {
        if i > 0 { StringLessTransitive(name(x), name(s[0]), name(s[i])); }
      }
    } else {
      StringLessTotal(name(x), name(s[0]));
      InsertSorted(x, s[1..], name);
      var u := InsertBy(x, s[1..], name);
      assert s == [s[0]] + s[1..];
      forall i | 0 <= i < |u| ensures StringLess(name(s[0]), name(u[i])) {
        assert u[i] in multiset(u);
        assert u[i] == x || u[i] in s[1..];
      }
    }
  }

  /** Sorting uniquely named entries orders them strictly and loses none. */
  lemma {:induction false} SortBySorts<T>(s: seq<T>, name: T -> string)
    requires UniqueNames(s, name)
    ensures SortedNames(SortBy(s, name), name) && multiset(SortBy(s, name)) == multiset(s)
    decreases |s|
  {
    hide StringLess, InsertBy;
    if s != [] {
      var n := |s| - 1;
      SortBySorts(s[..n], name);
      var t := SortBy(s[..n], name);
      forall i | 0 <= i < |t| ensures name(t[i]) != name(s[n]) {
        assert t[i] in multiset(s[..n]);
      }
      InsertSorted(s[n], t, name);
      assert s == s[..n] + [s[n]];
    }
  }

  lemma FirstIsLeast<T>(a: seq<T>, x: T, name: T -> string)
    requires SortedNames(a, name) && x in multiset(a)
    ensures x == a[0] || StringLess(name(a[0]), name(x))
  {
    var i :| 0 <= i < |a| && a[i] == x;
  }

  lemma {:induction false} SortedUnique<T>(a: seq<T>, b: seq<T>, name: T -> string)
    requires SortedNames(a, name) && SortedNames(b, name) && multiset(a) == multiset(b)
    ensures a == b
    decreases |a|
  {
    hide StringLess;
    assert |a| == |multiset(a)| == |multiset(b)| == |b|;
    if a != [] {
      HeadAndTail(a);
      HeadAndTail(b);
      FirstIsLeast(a, b[0], name);
      FirstIsLeast(b, a[0], name);
      if a[0] != b[0] {
        StringLessTransitive(name(a[0]), name(b[0]), name(a[0]));
        StringLessIrreflexive(name(a[0]));
      }
      SameTail(a, b);
      SortedUnique(a[1..], b[1..], name);
    }
  }

  lemma ReorderedSortsAlike<T>(a: seq<T>, b: seq<T>, name: T -> string)
    requires UniqueNames(a, name) && UniqueNames(b, name) && multiset(a) == multiset(b)
    ensures SortBy(a, name) == SortBy(b, name)
  {
    SortBySorts(a, name);
    SortBySorts(b, name);
    SortedUnique(SortBy(a, name), SortBy(b, name), name);
  }

  /** Reordering uniquely named secret references and volumes does not change the stamp. */
  lemma ReorderingKeepsStamp(c: ServiceConfig, refs: seq<SecretRef>, volumes: seq<VolumeDecl>)
    requires UniqueNames(c.secretRefs, RefName) && UniqueNames(refs, RefName)
    requires UniqueNames(c.volumes, VolumeName) && UniqueNames(volumes, VolumeName)
    requires multiset(refs) == multiset(c.secretRefs) && multiset(volumes) == multiset(c.volumes)
    ensures ServiceConfigStamp(c.(secretRefs := refs, volumes := volumes)) == ServiceConfigStamp(c)
  {
    ReorderedSortsAlike(c.secretRefs, refs, RefName);
    ReorderedSortsAlike(c.volumes, volumes, VolumeName);
  }
}
