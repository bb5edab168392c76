/** The baseline pipeline: Dedupe (internal/report/report.go), Diff
    (internal/report/diff.go) and indexFindings (internal/report/baseline.go).
    A channel is the sequence of findings that goes through it; a nil baseline
    is the empty one. */
module Diffs {

  datatype Status = Unset | New | Persisting | Resolved

  // content stands for every field but the key and the diff status.
  datatype Finding = Finding(key: string, status: Status, content: string)

  datatype Counts = Counts(brandNew: nat, persisting: nat, resolved: nat)

  type Keyed = map<string, Finding>

  datatype Baseline = Baseline(keys: Keyed, noKey: seq<Finding>)

  function KeysOf(s: seq<Finding>): set<string> { set f | f in s && f.key != "" :: f.key }

  function Front(s: seq<Finding>): seq<Finding>
    requires s != []
  {
    s[..|s| - 1]
  }

  function Last(s: seq<Finding>): Finding
    requires s != []
  {
    s[|s| - 1]
  }

  lemma FrontLast(s: seq<Finding>)
    requires s != []
    ensures s == Front(s) + [Last(s)]
    ensures KeysOf(s) == KeysOf(Front(s)) + (if Last(s).key == "" then {} else {Last(s).key})
  {
    forall f | f in Front(s) ensures f in s {}
    assert Last(s) in s;
  }

  lemma KeyIn(s: seq<Finding>, f: Finding)
    requires f in s && f.key != ""
    ensures f.key in KeysOf(s)
  {
  }

  // ---------- Dedupe ----------

  function Deduped(s: seq<Finding>): seq<Finding> {
    if s == [] then []
    else Deduped(Front(s)) + if Last(s).key != "" && Last(s).key in KeysOf(Front(s)) then [] else [Last(s)]
  }

  lemma DedupedNext(s: seq<Finding>, i: nat)
    requires i < |s|
    ensures var f, before := s[i], s[..i];
            && Deduped(s[..i + 1])
               == Deduped(before) + (if f.key != "" && f.key in KeysOf(before) then [] else [f])
            && KeysOf(s[..i + 1]) == KeysOf(before) + (if f.key == "" then {} else {f.key})
  {
    hide KeysOf;
    assert Front(s[..i + 1]) == s[..i];
    FrontLast(s[..i + 1]);
  }

  method Dedupe(s: seq<Finding>) returns (out: seq<Finding>)
    ensures out == Deduped(s)
  {
    out := [];
    var seen: set<string> := {};
    assert KeysOf(s[..0]) == {} && Deduped(s[..0]) == [];
    hide KeysOf, Deduped;
    for i := 0 to |s|
      invariant out == Deduped(s[..i]) && seen == KeysOf(s[..i])
    {
      DedupedNext(s, i);
      var f := s[i];
      if f.key != "" {
        if f.key in seen { continue; }
        seen := seen + {f.key};
      }
      out := out + [f];
    }
    assert s[..|s|] == s;
  }

  predicate NoRepeats(s: seq<Finding>) {
    forall i, j | 0 <= i < j < |s| && s[i].key != "" :: s[i].key != s[j].key
  }

  lemma {:induction false} DedupedIsClean(s: seq<Finding>)
    ensures NoRepeats(Deduped(s)) && KeysOf(Deduped(s)) == KeysOf(s)
  {
    hide KeysOf;
    if s == [] {
      assert Deduped(s) == s;
    } else {
      var d := Deduped(Front(s));
      DedupedIsClean(Front(s));
      FrontLast(s);
      if !(Last(s).key != "" && Last(s).key in KeysOf(Front(s))) { CleanSnoc(d, Last(s)); } else { assert d + [] == d; }
    }
  }

  lemma CleanSnoc(d: seq<Finding>, f: Finding)
    requires NoRepeats(d) && (f.key == "" || f.key !in KeysOf(d))
    ensures NoRepeats(d + [f]) && KeysOf(d + [f]) == KeysOf(d) + (if f.key == "" then {} else {f.key})
  {
    hide KeysOf;
    FrontLast(d + [f]);
    assert Front(d + [f]) == d;
    forall i | 0 <= i < |d| && d[i].key != "" ensures d[i].key != f.key { KeyIn(d, d[i]); }
  }

  // Only later repeats of a key go: a stream without repeats passes unchanged,
  // and deduplicating twice is deduplicating once.
  lemma {:induction false} DedupedKeepsClean(s: seq<Finding>)
    ensures NoRepeats(s) <==> Deduped(s) == s
  {
    if s != [] {
      DedupedKeepsClean(Front(s));
      FrontLast(s);
      DedupedShorter(Front(s));
      if NoRepeats(s) {
        assert NoRepeats(Front(s));
        forall f | f in Front(s) && f.key != "" ensures f.key != Last(s).key {
          var i :| 0 <= i < |Front(s)| && Front(s)[i] == f;
          assert s[i] == f;
        }
      } else {
        DedupedIsClean(s);
      }
    }
  }

  lemma {:induction false} DedupedShorter(s: seq<Finding>)
    ensures |Deduped(s)| <= |s|
  {
    if s != [] { DedupedShorter(Front(s)); }
  }

  // What stays is the first finding of each key and every finding without one,
  // and nothing that follows changes it.
  lemma {:induction false} DedupedIsFirst(s: seq<Finding>, i: nat)
    requires i < |s| && (s[i].key == "" || forall j | 0 <= j < i :: s[j].key != s[i].key)
    ensures Deduped(s[..i + 1]) == Deduped(s[..i]) + [s[i]]
    ensures Deduped(s[..i + 1]) <= Deduped(s)
  {
    var upTo := s[..i + 1];
    assert Front(upTo) == s[..i] && Last(upTo) == s[i];
    forall f | f in s[..i] && s[i].key != "" ensures f.key != s[i].key {
      var j :| 0 <= j < i && s[..i][j] == f;
      assert s[j] == f;
    }
    DedupedGrows(s, i + 1);
  }

  lemma {:induction false} DedupedGrows(s: seq<Finding>, n: nat)
    requires n <= |s|
    ensures Deduped(s[..n]) <= Deduped(s)
  {
    hide KeysOf;
    if n == |s| {
      assert s[..n] == s;
    } else {
      assert Front(s)[..n] == s[..n];
      DedupedGrows(Front(s), n);
    }
  }

  // ---------- indexFindings ----------

  function Stripped(f: Finding): Finding { f.(status := Unset) }

  function Indexed(s: seq<Finding>): Baseline {
    if s == [] then Baseline(map[], []) else
      var b, f := Indexed(Front(s)), Stripped(Last(s));
      if f.key == "" then b.(noKey := b.noKey + [f])
      else if f.key in b.keys then b
      else b.(keys := b.keys[f.key := f])
  }

  method IndexFindings(findings: seq<Finding>) returns (b: Baseline)
    ensures b == Indexed(findings)
  {
    b := Baseline(map[], []);
    for i := 0 to |findings|
      invariant b == Indexed(findings[..i])
    {
      assert Front(findings[..i + 1]) == findings[..i];
      var f := findings[i].(status := Unset);
      if f.key == "" {
        b := b.(noKey := b.noKey + [f]);
        continue;
      }
      if f.key !in b.keys {
        b := b.(keys := b.keys[f.key := f]);
      }
    }
    assert findings[..|findings|] == findings;
  }

  // What an index holds: under every key a finding with that key and no status.
  predicate IsIndex(b: Keyed) { forall k | k in b :: k != "" && b[k].key == k && b[k].status == Unset }

  lemma {:induction false} IndexedIsIndex(s: seq<Finding>)
    ensures IsIndex(Indexed(s).keys) && Indexed(s).keys.Keys == KeysOf(s)
  {
    if s != [] {
      IndexedIsIndex(Front(s));
      FrontLast(s);
    }
  }

  // First write wins.
  lemma {:induction false} IndexedIsFirst(s: seq<Finding>, i: nat)
    requires i < |s| && s[i].key != "" && forall j | 0 <= j < i :: s[j].key != s[i].key
    ensures s[i].key in Indexed(s).keys && Indexed(s).keys[s[i].key] == Stripped(s[i])
  {
    if i < |s| - 1 {
      IndexedIsFirst(Front(s), i);
    } else {
      IndexedIsIndex(Front(s));
      forall f | f in Front(s) ensures f.key != s[i].key {
        var j :| 0 <= j < |Front(s)| && Front(s)[j] == f;
        assert s[j] == f;
      }
    }
  }

  // ---------- sort.Strings ----------

  predicate Less(a: string, b: string) {
    b != "" && (a == "" || a[0] < b[0] || (a[0] == b[0] && Less(a[1..], b[1..])))
  }

  lemma {:induction false} LessTransitive(a: string, b: string, c: string)
    requires Less(a, b) && Less(b, c)
    ensures Less(a, c)
  {
    if a != "" && a[0] == b[0] == c[0] { LessTransitive(a[1..], b[1..], c[1..]); }
  }

  lemma {:induction false} LessTotal(a: string, b: string)
    ensures !Less(a, a)
    ensures a != b ==> Less(a, b) || Less(b, a)
    ensures !(Less(a, b) && Less(b, a))
  {
    if a != "" && b != "" { LessTotal(a[1..], b[1..]); assert a == [a[0]] + a[1..] && b == [b[0]] + b[1..]; }
    else if a != "" { LessTotal(a[1..], ""); }
  }

  // The order is that of the first difference; a proper prefix comes first.
  lemma {:induction false} LessAtFirstDifference(a: string, b: string)
    ensures Less(a, b) <==> exists k: nat :: k <= |a| && k < |b| && a[..k] == b[..k] && (k == |a| || a[k] < b[k])
  {
    if a != "" && b != "" && a[0] == b[0] {
      LessAtFirstDifference(a[1..], b[1..]);
      if k: nat :| k <= |a| && k < |b| && a[..k] == b[..k] && (k == |a| || a[k] < b[k]) {
        assert k > 0;
        assert a[1..][..k - 1] == a[..k][1..] == b[..k][1..] == b[1..][..k - 1];
      }
      if k: nat :| k <= |a[1..]| && k < |b[1..]| && a[1..][..k] == b[1..][..k]
                   && (k == |a[1..]| || a[1..][k] < b[1..][k]) {
        assert a[..k + 1] == [a[0]] + a[1..][..k] && b[..k + 1] == [b[0]] + b[1..][..k];
        assert a[..k + 1] == b[..k + 1];
      }
    } else if b != "" {
      assert a[..0] == b[..0];
      forall k | 0 < k <= |a| && k < |b| ensures a[..k] != b[..k] { assert a[..k][0] != b[..k][0]; }
    }
  }

  predicate Ascending(s: seq<string>) { forall i, j | 0 <= i < j < |s| :: Less(s[i], s[j]) }

  // s lists the keys, once each, in ascending order.
  predicate Lists(s: seq<string>, keys: set<string>) { Ascending(s) && (set k | k in s) == keys }

  // There is one such list: the output does not depend on how the map is iterated.
  lemma {:induction false} SortedIsUnique(s: seq<string>, t: seq<string>, keys: set<string>)
    requires Lists(s, keys) && Lists(t, keys)
    ensures s == t
  {
    EmptyList(s, keys);
    EmptyList(t, keys);
    if s != [] {
      HeadIsLeast(s, keys, t[0]);
      HeadIsLeast(t, keys, s[0]);
      LessTotal(s[0], t[0]);
      TailLists(s, keys);
      TailLists(t, keys);
      SortedIsUnique(s[1..], t[1..], keys - {s[0]});
      assert s == [s[0]] + s[1..] && t == [t[0]] + t[1..];
    }
  }

  lemma EmptyList(s: seq<string>, keys: set<string>)
    requires Lists(s, keys)
    ensures s == [] <==> keys == {}
  {
    assert s != [] ==> s[0] in keys;
  }

  lemma HeadIsLeast(s: seq<string>, keys: set<string>, k: string)
    requires Lists(s, keys) && s != [] && (k in keys || k in s)
    ensures k == s[0] || Less(s[0], k)
  {
    assert k in s;
  }

  lemma TailLists(s: seq<string>, keys: set<string>)
    requires Lists(s, keys) && s != []
    ensures Lists(s[1..], keys - {s[0]})
  {
    LessTotal(s[0], s[0]);
    forall k ensures k in s[1..] <==> k in keys - {s[0]} {
      if k in s[1..] {
        var i :| 0 <= i < |s[1..]| && s[1..][i] == k;
        assert s[i + 1] == k;
        assert k in s;
      }
    }
  }

  ghost function SortedKeys(keys: set<string>): (s: seq<string>)
    ensures Lists(s, keys)
  {
    SortExists(keys);
    var s :| Lists(s, keys);
    s
  }

  function InsertKey(s: seq<string>, k: string): seq<string> {
    if s == [] || Less(k, s[0]) then [k] + s else [s[0]] + InsertKey(s[1..], k)
  }

  lemma {:induction false} InsertKeyLists(s: seq<string>, k: string, keys: set<string>)
    requires Lists(s, keys) && k !in keys
    ensures Lists(InsertKey(s, k), keys + {k})
  {
    if s == [] || Less(k, s[0]) {
      var t := [k] + s;
      forall j | 0 < j < |t| ensures Less(k, t[j]) {
        if j > 1 { LessTransitive(k, s[0], s[j - 1]); }
      }
      forall x ensures x in t <==> x in keys + {k} { assert x in t <==> x == k || x in s; }
    } else {
      var rest := keys - {s[0]};
      TailLists(s, keys);
      InsertKeyLists(s[1..], k, rest);
      assert s[0] in s;
      LessTotal(s[0], k);
      var t := InsertKey(s[1..], k);
      forall j | 0 <= j < |t| ensures Less(s[0], t[j]) {
        assert t[j] in t;
        if t[j] != k { HeadIsLeast(s, keys, t[j]); }
      }
      forall x ensures x in [s[0]] + t <==> x in keys + {k} { assert x in [s[0]] + t <==> x == s[0] || x in t; }
    }
  }

  lemma {:induction false} SortExists(keys: set<string>)
    ensures exists s :: Lists(s, keys)
  {
    if k :| k in keys {
      SortExists(keys - {k});
      var s :| Lists(s, keys - {k});
      InsertKeyLists(s, k, keys - {k});
      assert keys - {k} + {k} == keys;
    } else {
      assert Lists([], keys);
    }
  }

  // The keys collected in map order, then sorted.
  method SortKeys(keys: set<string>) returns (s: seq<string>)
    ensures s == SortedKeys(keys)
  {
    s := [];
    var rest := keys;
    while exists k :: k in rest
      invariant rest <= keys && Lists(s, keys - rest)
      decreases |rest|
    {
      var k :| k in rest;
      InsertKeyLists(s, k, keys - rest);
      s := InsertKey(s, k);
      assert keys - rest + {k} == keys - (rest - {k});
      rest := rest - {k};
    }
    assert keys - rest == keys;
    SortedIsUnique(s, SortedKeys(keys), keys);
  }

  // ---------- Diff ----------

  // The baseline entries the stream has not reproduced.
  function Unmatched(s: seq<Finding>, baseline: Keyed): Keyed {
    if s == [] then baseline
    else if Last(s).key == "" then Unmatched(Front(s), baseline)
    else Unmatched(Front(s), baseline) - {Last(s).key}
  }

  function Label(f: Finding, remaining: Keyed): Finding {
    f.(status := if f.key != "" && f.key in remaining then Persisting else New)
  }

  function Labelled(s: seq<Finding>, baseline: Keyed): (r: seq<Finding>)
    ensures |r| == |s|
  {
    if s == [] then [] else Labelled(Front(s), baseline) + [Label(Last(s), Unmatched(Front(s), baseline))]
  }

  function Gone(keys: seq<string>, remaining: Keyed): (r: seq<Finding>)
    requires forall k | k in keys :: k in remaining
    ensures |r| == |keys| && forall i | 0 <= i < |keys| :: r[i] == remaining[keys[i]].(status := Resolved)
  {
    if keys == [] then [] else
      var front, k := keys[..|keys| - 1], keys[|keys| - 1];
      assert forall x | x in front :: x in keys;
      Gone(front, remaining) + [remaining[k].(status := Resolved)]
  }

  ghost function GoneFrom(remaining: Keyed): seq<Finding> {
    var keys := SortedKeys(remaining.Keys);
    assert forall k | k in keys :: k in (set x | x in keys);
    Gone(keys, remaining)
  }

  ghost function Diffed(s: seq<Finding>, baseline: Keyed): (r: seq<Finding>)
    ensures |s| <= |r|
  {
    Labelled(s, baseline) + GoneFrom(Unmatched(s, baseline))
  }

  function Tally(s: seq<Finding>, status: Status): nat {
    if s == [] then 0 else Tally(Front(s), status) + if Last(s).status == status then 1 else 0
  }

  predicate Counted(c: Counts, s: seq<Finding>) {
    c == Counts(Tally(s, New), Tally(s, Persisting), Tally(s, Resolved))
  }

  lemma TallySnoc(s: seq<Finding>, f: Finding)
    ensures forall status :: Tally(s + [f], status) == Tally(s, status) + if f.status == status then 1 else 0
  {
    assert Front(s + [f]) == s;
  }

  lemma LabelledSnoc(s: seq<Finding>, i: nat, baseline: Keyed)
    requires i < |s|
    ensures Labelled(s[..i + 1], baseline) == Labelled(s[..i], baseline) + [Label(s[i], Unmatched(s[..i], baseline))]
    ensures Unmatched(s[..i + 1], baseline) ==
            if s[i].key == "" then Unmatched(s[..i], baseline) else Unmatched(s[..i], baseline) - {s[i].key}
  {
    assert Front(s[..i + 1]) == s[..i];
  }

  // One finding per baseline entry that was not matched, in key order.
  method EmitResolved(done: seq<Finding>, tallied: Counts, remaining: Keyed) returns (out: seq<Finding>, counts: Counts)
    requires Counted(tallied, done)
    ensures out == done + GoneFrom(remaining) && Counted(counts, out)
  {
    hide Tally;
    var keys := SortKeys(remaining.Keys);
    assert forall k | k in keys :: k in (set x | x in keys);
    out, counts := done, tallied;
    for i := 0 to |keys|
      invariant out == done + Gone(keys[..i], remaining) && Counted(counts, out)
    {
      assert keys[..i + 1][..i] == keys[..i];
      var f := remaining[keys[i]].(status := Resolved);
      counts := counts.(resolved := counts.resolved + 1);
      TallySnoc(out, f);
      out := out + [f];
    }
    assert keys[..|keys|] == keys;
  }

  // What is emitted, and counters equal to what was emitted.
  method Diff(s: seq<Finding>, baseline: Keyed) returns (out: seq<Finding>, counts: Counts)
    ensures out == Diffed(s, baseline) && Counted(counts, out)
  {
    hide Labelled, Unmatched, Gone, GoneFrom;
    out, counts := [], Counts(0, 0, 0);
    var remaining := baseline;
    NothingYet(s, baseline);
    for i := 0 to |s|
      invariant out == Labelled(s[..i], baseline) && Counted(counts, out)
      invariant remaining == Unmatched(s[..i], baseline)
    {
      LabelledSnoc(s, i, baseline);
      hide Tally;
      var f := s[i];
      if f.key != "" {
        if f.key in remaining {
          remaining := remaining - {f.key};
          f := f.(status := Persisting);
          counts := counts.(persisting := counts.persisting + 1);
        } else {
          f := f.(status := New);
          counts := counts.(brandNew := counts.brandNew + 1);
          assert remaining - {f.key} == remaining;
        }
      } else {
        f := f.(status := New);
        counts := counts.(brandNew := counts.brandNew + 1);
      }
      TallySnoc(out, f);
      out := out + [f];
    }
    assert s[..|s|] == s;
    out, counts := EmitResolved(out, counts, remaining);
  }

  lemma NothingYet(s: seq<Finding>, baseline: Keyed)
    ensures Labelled(s[..0], baseline) == [] && Unmatched(s[..0], baseline) == baseline
  {
  }
}
