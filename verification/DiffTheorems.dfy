/** Conservation, labelling and re-indexing of the baseline diff. */
module DiffTheorems {
  import opened Diffs

  // ---------- conservation ----------

  lemma {:induction false} TallyAppend(s: seq<Finding>, t: seq<Finding>, status: Status)
    ensures Tally(s + t, status) == Tally(s, status) + Tally(t, status)
  {
    if t == [] {
      assert s + t == s;
    } else {
      TallyAppend(s, Front(t), status);
      assert Front(s + t) == s + Front(t);
    }
  }

  lemma {:induction false} TallyAll(s: seq<Finding>, status: Status, other: Status)
    requires forall f | f in s :: f.status == status
    ensures Tally(s, other) == if other == status then |s| else 0
  {
    if s != [] {
      FrontLast(s);
      assert Last(s) in s;
      TallyAll(Front(s), status, other);
    }
  }

  lemma SortedSize(keys: set<string>)
    ensures |SortedKeys(keys)| == |keys|
  {
    ListSize(SortedKeys(keys), keys);
  }

  lemma {:induction false} ListSize(s: seq<string>, keys: set<string>)
    requires Lists(s, keys)
    ensures |s| == |keys|
  {
    EmptyList(s, keys);
    if s != [] {
      assert s[0] in s;
      TailLists(s, keys);
      ListSize(s[1..], keys - {s[0]});
    }
  }

  lemma GoneFromIs(remaining: Keyed)
    ensures |GoneFrom(remaining)| == |remaining|
    ensures forall f | f in GoneFrom(remaining) :: f.status == Resolved
    ensures forall f ::
              f in GoneFrom(remaining) <==> exists k | k in remaining :: f == remaining[k].(status := Resolved)
  {
    var keys := SortedKeys(remaining.Keys);
    SortedSize(remaining.Keys);
    assert forall k | k in keys :: k in (set x | x in keys);
    var gone := Gone(keys, remaining);
    forall k | k in remaining ensures remaining[k].(status := Resolved) in gone {
      assert k in (set x | x in keys);
      var i :| 0 <= i < |keys| && keys[i] == k;
      assert gone[i] in gone;
    }
  }

  lemma RemovalSize(m: Keyed, k: string)
    ensures |m - {k}| == if k in m then |m| - 1 else |m|
  {
    assert (m - {k}).Keys == m.Keys - {k};
    assert |m| == |m.Keys| && |m - {k}| == |(m - {k}).Keys|;
  }

  lemma {:induction false} LabelledTallies(s: seq<Finding>, baseline: Keyed)
    ensures Tally(Labelled(s, baseline), New) + Tally(Labelled(s, baseline), Persisting) == |s|
    ensures Tally(Labelled(s, baseline), Persisting) + |Unmatched(s, baseline)| == |baseline|
    ensures Tally(Labelled(s, baseline), Resolved) == 0
  {
    if s != [] {
      LabelledTallies(Front(s), baseline);
      var before, f := Unmatched(Front(s), baseline), Last(s);
      TallySnoc(Labelled(Front(s), baseline), Label(f, before));
      hide Tally;
      RemovalSize(before, f.key);
    }
  }

  // New and persisting make up the stream; persisting and resolved make up the
  // baseline. For every stream and every baseline.
  lemma Conservation(s: seq<Finding>, baseline: Keyed)
    ensures Tally(Diffed(s, baseline), New) + Tally(Diffed(s, baseline), Persisting) == |s|
    ensures Tally(Diffed(s, baseline), Persisting) + Tally(Diffed(s, baseline), Resolved) == |baseline|
    ensures |Diffed(s, baseline)| == |s| + Tally(Diffed(s, baseline), Resolved)
  {
    var gone := GoneFrom(Unmatched(s, baseline));
    LabelledTallies(s, baseline);
    GoneFromIs(Unmatched(s, baseline));
    forall status
      ensures Tally(Diffed(s, baseline), status) == Tally(Labelled(s, baseline), status) + Tally(gone, status)
    {
      TallyAppend(Labelled(s, baseline), gone, status);
    }
    forall status ensures Tally(gone, status) == if status == Resolved then |gone| else 0 {
      TallyAll(gone, Resolved, status);
    }
  }

  // ---------- labels ----------

  lemma {:induction false} UnmatchedIs(s: seq<Finding>, baseline: Keyed)
    ensures forall k :: k in Unmatched(s, baseline) <==> k in baseline && k !in KeysOf(s)
    ensures forall k | k in Unmatched(s, baseline) :: Unmatched(s, baseline)[k] == baseline[k]
  {
    if s != [] {
      UnmatchedIs(Front(s), baseline);
      FrontLast(s);
    }
  }

  predicate FirstOfKey(s: seq<Finding>, i: nat)
    requires i < |s|
  {
    forall j | 0 <= j < i :: s[j].key != s[i].key
  }

  lemma KeysBefore(s: seq<Finding>, i: nat)
    requires i < |s| && s[i].key != ""
    ensures s[i].key in KeysOf(s[..i]) <==> !FirstOfKey(s, i)
  {
    if j :| 0 <= j < i && s[j].key == s[i].key {
      assert s[..i][j] in s[..i];
    }
  }

  // The stream's findings come out in order and unchanged but for the label:
  // persisting exactly for the first finding with a key of the baseline.
  lemma {:induction false} LabelsAre(s: seq<Finding>, baseline: Keyed, i: nat)
    requires i < |s|
    ensures Diffed(s, baseline)[i] ==
            s[i].(status := if s[i].key != "" && s[i].key in baseline && FirstOfKey(s, i) then Persisting else New)
  {
    LabelledAt(s, baseline, i);
    UnmatchedIs(s[..i], baseline);
    if s[i].key != "" { KeysBefore(s, i); }
  }

  lemma {:induction false} LabelledAt(s: seq<Finding>, baseline: Keyed, i: nat)
    requires i < |s|
    ensures Labelled(s, baseline)[i] == Label(s[i], Unmatched(s[..i], baseline))
  {
    if i < |s| - 1 {
      LabelledAt(Front(s), baseline, i);
      assert Front(s)[..i] == s[..i];
    } else {
      assert Front(s) == s[..i];
    }
  }

  // A finding whose key the baseline has may be labelled new; it never is
  // exactly when no key of the baseline repeats in the stream.
  lemma KnownFindingsPersist(s: seq<Finding>, baseline: Keyed)
    requires IsIndex(baseline)
    ensures (forall i | 0 <= i < |s| && s[i].key in baseline :: Diffed(s, baseline)[i].status == Persisting) <==>
            (forall i, j | 0 <= i < j < |s| && s[i].key in baseline :: s[i].key != s[j].key)
  {
    forall i | 0 <= i < |s| && s[i].key in baseline
      ensures Diffed(s, baseline)[i].status == Persisting <==> FirstOfKey(s, i)
    {
      LabelsAre(s, baseline, i);
    }
    if i, j :| 0 <= i < j < |s| && s[i].key in baseline && s[i].key == s[j].key {
      assert s[j].key in baseline;
      assert !FirstOfKey(s, j);
    }
  }

  lemma CleanScanPersists(s: seq<Finding>, baseline: Keyed)
    requires IsIndex(baseline) && NoRepeats(s) && KeysOf(s) <= baseline.Keys
    ensures forall i | 0 <= i < |s| && s[i].key != "" :: Diffed(s, baseline)[i].status == Persisting
  {
    hide Diffed;
    forall i | 0 <= i < |s| && s[i].key != ""
      ensures Diffed(s, baseline)[i].status == Persisting
    {
      KeyIn(s, s[i]);
      LabelsAre(s, baseline, i);
    }
  }

  lemma RepeatIsCalledNew(f: Finding)
    requires f.key != ""
    ensures var baseline := map[f.key := Stripped(f)];
            IsIndex(baseline) && Diffed([f, f], baseline)[1].status == New
  {
    LabelsAre([f, f], map[f.key := Stripped(f)], 1);
  }

  function Occurrences(s: seq<Finding>, k: string): nat {
    if s == [] then 0 else Occurrences(Front(s), k) + if Last(s).key == k then 1 else 0
  }

  lemma {:induction false} OccurrencesAppend(s: seq<Finding>, t: seq<Finding>, k: string)
    ensures Occurrences(s + t, k) == Occurrences(s, k) + Occurrences(t, k)
  {
    if t == [] {
      assert s + t == s;
    } else {
      OccurrencesAppend(s, Front(t), k);
      assert Front(s + t) == s + Front(t);
    }
  }

  lemma {:induction false} OccurrencesLabelled(s: seq<Finding>, baseline: Keyed, k: string)
    ensures Occurrences(Labelled(s, baseline), k) == Occurrences(s, k)
  {
    if s != [] {
      OccurrencesLabelled(Front(s), baseline, k);
      assert Front(Labelled(s, baseline)) == Labelled(Front(s), baseline);
    }
  }

  lemma {:induction false} OccurrencesGone(keys: seq<string>, remaining: Keyed, k: string)
    requires (forall x | x in keys :: x in remaining) && Ascending(keys) && IsIndex(remaining)
    ensures Occurrences(Gone(keys, remaining), k) == if k in keys then 1 else 0
  {
    hide Ascending;
    if keys != [] {
      LastIsFresh(keys);
      OccurrencesGone(keys[..|keys| - 1], remaining, k);
      assert Front(Gone(keys, remaining)) == Gone(keys[..|keys| - 1], remaining);
    }
  }

  // Every key comes out as often as it came in, and the baseline's other keys
  // once each.
  lemma EveryKeyEmitted(s: seq<Finding>, baseline: Keyed, k: string)
    requires IsIndex(baseline) && k != ""
    ensures Occurrences(Diffed(s, baseline), k) ==
            Occurrences(s, k) + if k in baseline && k !in KeysOf(s) then 1 else 0
  {
    var remaining := Unmatched(s, baseline);
    UnmatchedIs(s, baseline);
    var keys := SortedKeys(remaining.Keys);
    assert forall x :: x in keys <==> x in (set y | y in keys);
    OccurrencesLabelled(s, baseline, k);
    OccurrencesGone(keys, remaining, k);
    OccurrencesAppend(Labelled(s, baseline), GoneFrom(remaining), k);
  }

  lemma {:induction false} OccurrencesOnce(s: seq<Finding>, k: string)
    requires NoRepeats(s) && k != ""
    ensures Occurrences(s, k) == if k in KeysOf(s) then 1 else 0
  {
    if s != [] {
      FrontLast(s);
      OccurrencesOnce(Front(s), k);
      if Last(s).key == k {
        forall f | f in Front(s) ensures f.key != k {
          var i :| 0 <= i < |Front(s)| && Front(s)[i] == f;
          assert s[i] == f;
        }
      }
    }
  }

  // After Dedupe: each key of the scan or the baseline exactly once.
  lemma EachKeyOnce(s: seq<Finding>, baseline: Keyed, k: string)
    requires IsIndex(baseline) && k != ""
    ensures Occurrences(Diffed(Deduped(s), baseline), k) == if k in KeysOf(s) || k in baseline then 1 else 0
  {
    DedupedIsClean(s);
    OccurrencesOnce(Deduped(s), k);
    EveryKeyEmitted(Deduped(s), baseline, k);
  }

  // ---------- re-indexing ----------

  // A rescan that finds the same resolves nothing, and after Dedupe calls no
  // keyed finding new.
  lemma RescanIsFixpoint(s: seq<Finding>)
    ensures Tally(Diffed(s, Indexed(s).keys), Resolved) == 0
    ensures |Diffed(s, Indexed(s).keys)| == |s|
    ensures NoRepeats(s) <==>
            forall i | 0 <= i < |s| && s[i].key != "" :: Diffed(s, Indexed(s).keys)[i].status == Persisting
  {
    var baseline := Indexed(s).keys;
    IndexedIsIndex(s);
    UnmatchedIs(s, baseline);
    assert Unmatched(s, baseline) == map[];
    GoneFromIs(Unmatched(s, baseline));
    LabelledTallies(s, baseline);
    Conservation(s, baseline);
    forall i | 0 <= i < |s| && s[i].key != "" ensures s[i].key in baseline { assert s[i] in s; }
    KnownFindingsPersist(s, baseline);
  }

  function Added(b: Baseline, f: Finding): Baseline {
    if f.key == "" then b.(noKey := b.noKey + [f]) else if f.key in b.keys then b else b.(keys := b.keys[f.key := f])
  }

  lemma IndexedSnoc(a: Baseline, b: Baseline, f: Finding)
    ensures Added(Baseline(b.keys + a.keys, a.noKey + b.noKey), f) ==
            Baseline(Added(b, f).keys + a.keys, a.noKey + Added(b, f).noKey)
  {
    if f.key == "" {
      assert a.noKey + b.noKey + [f] == a.noKey + (b.noKey + [f]);
    } else {
      assert f.key !in b.keys && f.key !in a.keys ==> (b.keys + a.keys)[f.key := f] == b.keys[f.key := f] + a.keys;
      assert f.key !in b.keys && f.key in a.keys ==> b.keys + a.keys == b.keys[f.key := f] + a.keys;
    }
  }

  lemma {:induction false} IndexedAppend(s: seq<Finding>, t: seq<Finding>)
    ensures Indexed(s + t).keys == Indexed(t).keys + Indexed(s).keys
    ensures Indexed(s + t).noKey == Indexed(s).noKey + Indexed(t).noKey
  {
    if t == [] {
      assert s + t == s;
    } else {
      IndexedAppend(s, Front(t));
      assert Front(s + t) == s + Front(t) && Last(s + t) == Last(t);
      IndexedSnoc(Indexed(s), Indexed(Front(t)), Stripped(Last(t)));
    }
  }

  lemma {:induction false} IndexedLabelled(s: seq<Finding>, baseline: Keyed)
    ensures Indexed(Labelled(s, baseline)) == Indexed(s)
  {
    if s != [] {
      IndexedLabelled(Front(s), baseline);
      assert Front(Labelled(s, baseline)) == Labelled(Front(s), baseline);
    }
  }

  lemma {:induction false} IndexedGone(keys: seq<string>, remaining: Keyed)
    requires (forall k | k in keys :: k in remaining) && Ascending(keys) && IsIndex(remaining)
    ensures Indexed(Gone(keys, remaining)) == Baseline(map k | k in keys :: remaining[k], [])
  {
    hide Ascending;
    if keys != [] {
      var front, last := keys[..|keys| - 1], keys[|keys| - 1];
      LastIsFresh(keys);
      IndexedGone(front, remaining);
      var g := Gone(keys, remaining);
      assert Front(g) == Gone(front, remaining) && Stripped(Last(g)) == remaining[last];
      hide Gone, IsIndex;
      var before := map k | k in front :: remaining[k];
      assert Indexed(g).keys == before[last := remaining[last]];
      assert before[last := remaining[last]] == map k | k in keys :: remaining[k];
    }
  }

  lemma LastIsFresh(keys: seq<string>)
    requires Ascending(keys) && keys != []
    ensures var front, last := keys[..|keys| - 1], keys[|keys| - 1];
            Ascending(front) && last !in front && (forall k :: k in keys <==> k in front || k == last)
  {
    var front, last := keys[..|keys| - 1], keys[|keys| - 1];
    forall i | 0 <= i < |front| ensures front[i] != last {
      assert Less(keys[i], last);
      LessTotal(last, last);
    }
    assert keys == front + [last];
  }

  lemma IndexedGoneFrom(remaining: Keyed)
    requires IsIndex(remaining)
    ensures Indexed(GoneFrom(remaining)) == Baseline(remaining, [])
  {
    hide Indexed, Gone, IsIndex;
    var keys := SortedKeys(remaining.Keys);
    assert forall x :: x in keys <==> x in (set y | y in keys);
    IndexedGone(keys, remaining);
    assert (map k | k in keys :: remaining[k]) == remaining;
  }

  // Overriding with own ignores what is stored under own's keys.
  lemma Overridden(remaining: Keyed, baseline: Keyed, own: Keyed)
    requires forall k :: k in remaining <==> k in baseline && k !in own
    requires forall k | k in remaining :: remaining[k] == baseline[k]
    ensures remaining + own == baseline + own
  {
  }

  // The diffed output, indexed as the next baseline, holds the scan's findings
  // over the old baseline's: no key is ever forgotten. Findings without a key
  // are the scan's alone.
  lemma ReindexIsUnion(s: seq<Finding>, baseline: Keyed)
    requires IsIndex(baseline)
    ensures Indexed(Diffed(s, baseline)).keys == baseline + Indexed(s).keys
    ensures Indexed(Diffed(s, baseline)).noKey == Indexed(s).noKey
  {
    hide Indexed, Unmatched, GoneFrom, Labelled;
    var remaining := Unmatched(s, baseline);
    UnmatchedIs(s, baseline);
    IndexedIsIndex(s);
    IndexedLabelled(s, baseline);
    IndexedGoneFrom(remaining);
    IndexedAppend(Labelled(s, baseline), GoneFrom(remaining));
    Overridden(remaining, baseline, Indexed(s).keys);
  }

  // With the next baseline the same scan has nothing new, and the entries that
  // were resolved are reported as resolved again, for ever.
  lemma RollingBaseline(s: seq<Finding>, baseline: Keyed)
    requires IsIndex(baseline) && NoRepeats(s)
    ensures var next := Indexed(Diffed(s, baseline)).keys;
            && (forall i | 0 <= i < |s| && s[i].key != "" :: Diffed(s, next)[i].status == Persisting)
            && GoneFrom(Unmatched(s, next)) == GoneFrom(Unmatched(s, baseline))
            && Indexed(Diffed(s, next)).keys == next
  {
    hide Indexed, Unmatched, GoneFrom, Diffed, IsIndex, NoRepeats, KeysOf;
    var next := Indexed(Diffed(s, baseline)).keys;
    ReindexIsUnion(s, baseline);
    IndexedIsIndex(Diffed(s, baseline));
    IndexedIsIndex(s);
    ReindexIsUnion(s, next);
    assert next + Indexed(s).keys == next;
    SameRemains(s, baseline, next);
    CleanScanPersists(s, next);
  }

  lemma SameRemains(s: seq<Finding>, baseline: Keyed, next: Keyed)
    requires next == baseline + Indexed(s).keys && Indexed(s).keys.Keys == KeysOf(s)
    ensures Unmatched(s, next) == Unmatched(s, baseline)
  {
    hide Indexed, Unmatched, KeysOf;
    UnmatchedIs(s, next);
    UnmatchedIs(s, baseline);
  }
}
