/** The similarity score and the verdicts built on it
    (internal/lua_engine/oracle.go, internal/lua_engine/checks/access/idor_oracle.go).
    A char stands for one byte; scores are exact reals. */
module Similarities {

  function Min(x: int, y: int): int { if x <= y then x else y }
  function Max(x: int, y: int): int { if x <= y then y else x }

  predicate SamePrefix(a: string, b: string, k: nat) {
    k <= |a| && k <= |b| && forall j | 0 <= j < k :: a[j] == b[j]
  }

  function FromEnd(a: string, j: nat): char
    requires j < |a|
  {
    a[|a| - 1 - j]
  }

  predicate SameSuffix(a: string, b: string, k: nat) {
    k <= |a| && k <= |b| && forall j | 0 <= j < k :: FromEnd(a, j) == FromEnd(b, j)
  }

  function CommonPrefix(a: string, b: string): (k: nat)
    ensures SamePrefix(a, b, k)
    ensures k < |a| && k < |b| ==> a[k] != b[k]
  {
    if a == "" || b == "" || a[0] != b[0] then 0 else 1 + CommonPrefix(a[1..], b[1..])
  }

  function CommonSuffix(a: string, b: string): (k: nat)
    ensures SameSuffix(a, b, k)
    ensures k < |a| && k < |b| ==> FromEnd(a, k) != FromEnd(b, k)
  {
    if a == "" || b == "" || FromEnd(a, 0) != FromEnd(b, 0) then 0 else
      var front, back := a[..|a| - 1], b[..|b| - 1];
      var k := CommonSuffix(front, back);
      assert forall j | 0 <= j < 1 + k ::
        FromEnd(a, j) == FromEnd(b, j) by {
        forall j | 0 < j < 1 + k ensures FromEnd(a, j) == FromEnd(b, j) {
          assert FromEnd(front, j - 1) == FromEnd(back, j - 1);
        }
      }
      assert k < |front| && k < |back| ==> FromEnd(front, k) != FromEnd(back, k);
      1 + k
  }

  // The bytes the two strings share at their ends.
  function Edges(a: string, b: string): nat {
    Min(CommonPrefix(a, b) + CommonSuffix(a, b), Min(|a|, |b|))
  }

  function Score(a: string, b: string): real {
    if a == "" && b == "" then 1.0
    else if a == "" || b == "" then 0.0
    else Ratio(Min(|a|, |b|) + 3 * Edges(a, b), 4 * Max(|a|, |b|))
  }

  function Ratio(num: nat, den: nat): real
    requires den > 0
  {
    num as real / den as real
  }

  // A quarter of one ratio and three quarters of another.
  lemma Weighted(x: nat, y: nat, m: nat)
    requires m > 0
    ensures 0.25 * Ratio(x, m) + 0.75 * Ratio(y, m) == Ratio(x + 3 * y, 4 * m)
  {
    var q := m as real;
    assert (4 * m) as real == 4.0 * q;
    assert Ratio(x + 3 * y, 4 * m) == (x as real + 3.0 * y as real) / (4.0 * q);
  }

  lemma RatioOrder(n: nat, m: nat, num: nat, den: nat)
    requires m > 0 && den > 0
    ensures Ratio(n, m) >= Ratio(num, den) <==> den * n >= num * m
  {
    var x, y, p, q := Ratio(n, m), Ratio(num, den), m as real, den as real;
    assert x * p == n as real && y * q == num as real;
    ScaleOrder(x, y, p * q);
    assert x * (p * q) == q * (x * p) == (den * n) as real by { assert (den * n) as real == q * n as real; }
    assert y * (p * q) == p * (y * q) == (num * m) as real by { assert (num * m) as real == p * num as real; }
  }

  lemma RatioGrows(x: nat, y: nat, m: nat)
    requires x <= y && m > 0
    ensures Ratio(x, m) <= Ratio(y, m)
  {
    RatioOrder(y, m, x, m);
    assert m * y - x * m == m * (y - x);
  }

  lemma ScaleOrder(x: real, y: real, q: real)
    requires q > 0.0
    ensures x >= y <==> x * q >= y * q
  {
    if x >= y {
      assert (x - y) * q >= 0.0;
    } else {
      assert (y - x) * q > 0.0;
    }
  }

  lemma PrefixIs(a: string, b: string, k: nat)
    requires SamePrefix(a, b, k)
    ensures k <= CommonPrefix(a, b)
    ensures (k < |a| && k < |b| ==> a[k] != b[k]) ==> k == CommonPrefix(a, b)
  {
  }

  lemma SuffixIs(a: string, b: string, k: nat)
    requires SameSuffix(a, b, k)
    ensures k <= CommonSuffix(a, b)
    ensures (k < |a| && k < |b| ==> FromEnd(a, k) != FromEnd(b, k)) ==> k == CommonSuffix(a, b)
  {
    var s := CommonSuffix(a, b);
    assert s < |a| && s < |b| ==> FromEnd(a, s) != FromEnd(b, s);
    assert SameSuffix(a, b, s);
  }

  method Similarity(a: string, b: string) returns (sim: real)
    ensures sim == Score(a, b)
  {
    if |a| == 0 && |b| == 0 { return 1.0; }
    if |a| == 0 || |b| == 0 { return 0.0; }
    var mn, mx := |a|, |b|;
    if mn > mx { mn, mx := mx, mn; }
    var lenRatio := Ratio(mn, mx);
    var pre := 0;
    while pre < mn && a[pre] == b[pre]
      invariant pre <= mn && SamePrefix(a, b, pre)
    {
      pre := pre + 1;
    }
    PrefixIs(a, b, pre);
    var suf := 0;
    while suf < mn && a[|a| - 1 - suf] == b[|b| - 1 - suf]
      invariant suf <= mn && SameSuffix(a, b, suf)
    {
      assert FromEnd(a, suf) == FromEnd(b, suf);
      suf := suf + 1;
    }
    SuffixIs(a, b, suf);
    var common := pre + suf;
    if common > mn { common := mn; }
    var edgeRatio := Ratio(common, mx);
    Weighted(mn, common, mx);
    sim := 0.25 * lenRatio + 0.75 * edgeRatio;
  }

  // ---------- what the score measures ----------

  // a and b are the same p bytes, something each, and the same s bytes.
  predicate SharesEnds(a: string, b: string, p: nat, s: nat) {
    p + s <= |a| && p + s <= |b| && a[..p] == b[..p] && a[|a| - s..] == b[|b| - s..]
  }

  // Counting prefix and suffix apart and capping their sum gives the best
  // split into a shared start and a shared, non-overlapping end.
  lemma EdgesAreBest(a: string, b: string)
    ensures forall p: nat, s: nat | SharesEnds(a, b, p, s) :: p + s <= Edges(a, b)
    ensures exists p: nat, s: nat :: SharesEnds(a, b, p, s) && p + s == Edges(a, b)
  {
    forall p: nat, s: nat | SharesEnds(a, b, p, s) ensures p + s <= Edges(a, b) {
      forall j | 0 <= j < p ensures a[j] == b[j] { assert a[..p][j] == b[..p][j]; }
      forall j | 0 <= j < s ensures FromEnd(a, j) == FromEnd(b, j) {
        assert a[|a| - s..][s - 1 - j] == b[|b| - s..][s - 1 - j];
      }
      PrefixIs(a, b, p);
      SuffixIs(a, b, s);
    }
    var p := CommonPrefix(a, b);
    var s := Min(CommonSuffix(a, b), Min(|a|, |b|) - p);
    var x, y := a[|a| - s..], b[|b| - s..];
    forall i | 0 <= i < s ensures x[i] == y[i] {
      assert FromEnd(a, s - 1 - i) == FromEnd(b, s - 1 - i);
    }
    assert SharesEnds(a, b, p, s);
  }

  lemma ScoreSymmetric(a: string, b: string)
    ensures Score(a, b) == Score(b, a)
  {
    PrefixIs(b, a, CommonPrefix(a, b));
    SuffixIs(b, a, CommonSuffix(a, b));
  }

  lemma ScoreAtLeast(a: string, b: string, num: nat, den: nat)
    requires a != "" && b != "" && den > 0
    ensures Score(a, b) >= Ratio(num, den) <==>
            den * (Min(|a|, |b|) + 3 * Edges(a, b)) >= num * (4 * Max(|a|, |b|))
  {
    RatioOrder(Min(|a|, |b|) + 3 * Edges(a, b), 4 * Max(|a|, |b|), num, den);
  }

  lemma ScoreRange(a: string, b: string)
    ensures 0.0 <= Score(a, b) <= 1.0
  {
    if a != "" && b != "" {
      var n, m := Min(|a|, |b|) + 3 * Edges(a, b), 4 * Max(|a|, |b|);
      RatioOrder(n, m, 0, 1);
      RatioOrder(1, 1, n, m);
    }
  }

  lemma EdgesOfEqual(a: string)
    ensures Edges(a, a) == |a|
  {
    PrefixIs(a, a, |a|);
  }

  lemma OneMeansEqual(a: string, b: string)
    ensures Score(a, b) == 1.0 <==> a == b
  {
    if a != "" && b != "" {
      ScoreAtLeast(a, b, 1, 1);
      ScoreRange(a, b);
      if a == b { EdgesOfEqual(a); }
      EdgesAreBest(a, b);
      if Edges(a, b) == |a| == |b| {
        var p: nat, s: nat :| SharesEnds(a, b, p, s) && p + s == |a|;
        assert a == a[..p] + a[|a| - s..] && b == b[..p] + b[|b| - s..];
      }
    }
  }

  lemma ZeroMeansOneEmpty(a: string, b: string)
    ensures Score(a, b) == 0.0 <==> (a == "") != (b == "")
  {
    if a != "" && b != "" {
      RatioOrder(0, 1, Min(|a|, |b|) + 3 * Edges(a, b), 4 * Max(|a|, |b|));
    }
  }

  // Any shared start and end is a lower bound.
  lemma SharedEndsBound(a: string, b: string, p: nat, s: nat)
    requires SharesEnds(a, b, p, s) && a != "" && b != ""
    ensures Score(a, b) >= Ratio(Min(|a|, |b|) + 3 * (p + s), 4 * Max(|a|, |b|))
  {
    EdgesAreBest(a, b);
    RatioGrows(Min(|a|, |b|) + 3 * (p + s), Min(|a|, |b|) + 3 * Edges(a, b), 4 * Max(|a|, |b|));
  }

  // ---------- the threshold ----------

  const SIMILARITY_THRESHOLD := 0.97

  predicate SamePage(a: string, b: string) { Score(a, b) >= SIMILARITY_THRESHOLD }

  lemma SamePageCounts(a: string, b: string)
    requires a != "" && b != ""
    ensures SamePage(a, b) <==> 100 * (Min(|a|, |b|) + 3 * Edges(a, b)) >= 388 * Max(|a|, |b|)
  {
    assert SIMILARITY_THRESHOLD == Ratio(97, 100);
    ScoreAtLeast(a, b, 97, 100);
  }

  lemma SamePageIsSymmetric(a: string, b: string)
    ensures SamePage(a, b) <==> SamePage(b, a)
  {
    ScoreSymmetric(a, b);
  }

  lemma EqualBodiesAreSamePage(a: string)
    ensures SamePage(a, a)
  {
    OneMeansEqual(a, a);
  }

  // Two pages taken for the same share at least 96% of the longer one at
  // their ends, and their lengths are within 3%.
  lemma SamePageMeans(a: string, b: string)
    requires SamePage(a, b)
    ensures 100 * Edges(a, b) >= 96 * Max(|a|, |b|) && 100 * Min(|a|, |b|) >= 97 * Max(|a|, |b|)
    ensures exists p: nat, s: nat :: SharesEnds(a, b, p, s) && 100 * (p + s) >= 96 * Max(|a|, |b|)
  {
    if a != "" && b != "" { SamePageCounts(a, b); }
    EdgesAreBest(a, b);
  }

  // Pages of one template: header and footer shared, rows that differ at both
  // ends. The verdict depends on lengths alone.
  lemma TemplatedPages(header: string, x: string, y: string, footer: string)
    requires x != "" && y != "" && x[0] != y[0] && x[|x| - 1] != y[|y| - 1]
    ensures var a, b, shared := header + x + footer, header + y + footer, |header| + |footer|;
            Edges(a, b) == shared &&
            (SamePage(a, b) <==> 100 * (Min(|x|, |y|) + 4 * shared) >= 388 * (Max(|x|, |y|) + shared))
  {
    var a, b := header + x + footer, header + y + footer;
    assert a[|header|] == x[0] && b[|header|] == y[0];
    assert FromEnd(a, |footer|) == x[|x| - 1] && FromEnd(b, |footer|) == y[|y| - 1];
    forall j | 0 <= j < |footer| ensures FromEnd(a, j) == FromEnd(b, j) {
      assert FromEnd(a, j) == FromEnd(footer, j) == FromEnd(b, j);
    }
    PrefixIs(a, b, |header|);
    SuffixIs(a, b, |footer|);
    SamePageCounts(a, b);
  }

  // ---------- the boolean oracle ----------

  datatype Snapshot = Snapshot(status: int, body: string)

  datatype BooleanDecision = Vulnerable | NoSignal | Indeterminate

  predicate LooksLike(baseline: Snapshot, probe: Snapshot) {
    probe.status == baseline.status && SamePage(baseline.body, probe.body)
  }

  datatype BooleanResult = BooleanResult(decision: BooleanDecision, truthySim: real, falsySim: real)

  function BooleanCompare(baseline: Snapshot, truthy: Snapshot, falsy: Snapshot): BooleanResult {
    var decision :=
      if LooksLike(baseline, truthy) && !LooksLike(baseline, falsy) then Vulnerable
      else if LooksLike(baseline, truthy) && LooksLike(baseline, falsy) then NoSignal
      else Indeterminate;
    BooleanResult(decision, Score(baseline.body, truthy.body), Score(baseline.body, falsy.body))
  }

  // A vulnerable verdict is never reached on equal responses.
  lemma VulnerableMeansDiverged(baseline: Snapshot, truthy: Snapshot, falsy: Snapshot)
    requires BooleanCompare(baseline, truthy, falsy).decision == Vulnerable
    ensures falsy != baseline && falsy != truthy
    ensures falsy.status == baseline.status ==>
              BooleanCompare(baseline, truthy, falsy).falsySim
              < SIMILARITY_THRESHOLD <= BooleanCompare(baseline, truthy, falsy).truthySim
    ensures BooleanCompare(baseline, falsy, truthy).decision == Indeterminate
  {
    EqualBodiesAreSamePage(baseline.body);
  }

  // The threshold as byte counts: what a caller can check without the score.
  predicate CloseEnough(a: string, b: string) {
    (a == "" <==> b == "") && 100 * (Min(|a|, |b|) + 3 * Edges(a, b)) >= 388 * Max(|a|, |b|)
  }

  lemma CloseEnoughIsSamePage(a: string, b: string)
    ensures CloseEnough(a, b) <==> SamePage(a, b)
  {
    if a != "" && b != "" { SamePageCounts(a, b); }
  }

  // The three verdicts, for all responses, by statuses and byte counts: a truthy
  // probe like the baseline with a falsy one unlike it is vulnerable, both like
  // it is inert, and a truthy probe unlike the baseline leaves it open.
  lemma Verdicts(baseline: Snapshot, truthy: Snapshot, falsy: Snapshot)
    ensures var close := truthy.status == baseline.status && CloseEnough(baseline.body, truthy.body);
            var far := falsy.status != baseline.status || !CloseEnough(baseline.body, falsy.body);
            var result := BooleanCompare(baseline, truthy, falsy);
            && (result.decision == Vulnerable <==> close && far)
            && (result.decision == NoSignal <==> close && !far)
            && (result.decision == Indeterminate <==> !close)
            && (result.truthySim == 1.0 <==> truthy.body == baseline.body)
            && (result.falsySim == 1.0 <==> falsy.body == baseline.body)
  {
    CloseEnoughIsSamePage(baseline.body, truthy.body);
    CloseEnoughIsSamePage(baseline.body, falsy.body);
    OneMeansEqual(baseline.body, truthy.body);
    OneMeansEqual(baseline.body, falsy.body);
  }

  // A page without its rows against the page with them: what is left counts.
  lemma WithoutRows(header: string, rows: string, footer: string)
    ensures Edges(header + rows + footer, header + footer) == |header| + |footer|
    ensures CloseEnough(header + rows + footer, header + footer) <==> 97 * |rows| <= 3 * (|header| + |footer|)
  {
    var a, b := header + rows + footer, header + footer;
    forall j | 0 <= j < |footer| ensures FromEnd(a, j) == FromEnd(b, j) {
      assert FromEnd(a, j) == FromEnd(footer, j) == FromEnd(b, j);
    }
    PrefixIs(a, b, |header|);
    SuffixIs(a, b, |footer|);
  }

  // The case the oracle is for: the truthy probe keeps the page's rows, the
  // falsy one loses them or fails with another status. It is called vulnerable
  // exactly when the status changed or the rows outweigh 3/97 of the markup.
  lemma LostRows(header: string, rows: string, footer: string, status: int, other: int)
    ensures var page := Snapshot(status, header + rows + footer);
            BooleanCompare(page, page, Snapshot(other, header + footer)).decision
            == if other != status || 97 * |rows| > 3 * (|header| + |footer|) then Vulnerable else NoSignal
  {
    var page := Snapshot(status, header + rows + footer);
    Verdicts(page, page, Snapshot(other, header + footer));
    EqualBodiesAreSamePage(page.body);
    CloseEnoughIsSamePage(page.body, page.body);
    WithoutRows(header, rows, footer);
  }

  // The same when the falsy page has other rows or a message in their place.
  lemma ReplacedRows(header: string, rows: string, instead: string, footer: string, status: int, other: int)
    requires rows != "" && instead != "" && rows[0] != instead[0] && rows[|rows| - 1] != instead[|instead| - 1]
    ensures var page, shared := Snapshot(status, header + rows + footer), |header| + |footer|;
            BooleanCompare(page, page, Snapshot(other, header + instead + footer)).decision
            == if other != status
                  || 100 * (Min(|rows|, |instead|) + 4 * shared) < 388 * (Max(|rows|, |instead|) + shared)
               then Vulnerable else NoSignal
  {
    var page, falsy := Snapshot(status, header + rows + footer), Snapshot(other, header + instead + footer);
    Verdicts(page, page, falsy);
    EqualBodiesAreSamePage(page.body);
    CloseEnoughIsSamePage(page.body, page.body);
    CloseEnoughIsSamePage(page.body, falsy.body);
    TemplatedPages(header, rows, instead, footer);
  }

  // Two probes that look like each other get any of the three verdicts, by
  // their status and their byte counts against the baseline. "No signal" is
  // what they get exactly when the status is the baseline's and both bodies
  // are close enough to the baseline's.
  lemma LookAlikeProbes(baseline: Snapshot, truthy: Snapshot, falsy: Snapshot)
    requires LooksLike(truthy, falsy)
    ensures var close := truthy.status == baseline.status && CloseEnough(baseline.body, truthy.body);
            var far := !CloseEnough(baseline.body, falsy.body);
            var decision := BooleanCompare(baseline, truthy, falsy).decision;
            && (decision == Vulnerable <==> close && far)
            && (decision == NoSignal <==> close && !far)
            && (decision == Indeterminate <==> !close)
  {
    CloseEnoughIsSamePage(baseline.body, truthy.body);
    CloseEnoughIsSamePage(baseline.body, falsy.body);
  }

  // Enough shared by all three pages at the same ends rules the false alarm out.
  lemma SharedFrameIsNoSignal(baseline: Snapshot, truthy: Snapshot, falsy: Snapshot, p: nat, s: nat)
    requires truthy.status == baseline.status == falsy.status && baseline.body != "" && truthy.body != ""
             && falsy.body != ""
    requires SharesEnds(baseline.body, truthy.body, p, s) && SharesEnds(baseline.body, falsy.body, p, s)
    requires var shortest := Min(|baseline.body|, Min(|truthy.body|, |falsy.body|));
             var longest := Max(|baseline.body|, Max(|truthy.body|, |falsy.body|));
             100 * (shortest + 3 * (p + s)) >= 388 * longest
    ensures BooleanCompare(baseline, truthy, falsy).decision == NoSignal
  {
    EdgesAreBest(baseline.body, truthy.body);
    EdgesAreBest(baseline.body, falsy.body);
    CloseEnoughIsSamePage(baseline.body, truthy.body);
    CloseEnoughIsSamePage(baseline.body, falsy.body);
  }

  // A 100-byte page: y at the start, x in the middle, z at the end.
  function SamplePage(y: nat, z: nat): (s: string)
    requires y + z <= 100
    ensures |s| == 100
    ensures forall i | 0 <= i < 100 :: s[i] == if i < y then 'y' else if i < 100 - z then 'x' else 'z'
  {
    seq(100, i => if i < y then 'y' else if i < 100 - z then 'x' else 'z')
  }

  lemma SampleEdges(a: string, b: string, p: nat, s: nat)
    requires |a| == |b| == 100 && p + s <= 100
    requires SamePrefix(a, b, p) && (p < 100 ==> a[p] != b[p])
    requires SameSuffix(a, b, s) && (s < 100 ==> FromEnd(a, s) != FromEnd(b, s))
    ensures Edges(a, b) == p + s
  {
    PrefixIs(a, b, p);
    SuffixIs(a, b, s);
  }

  // Look-alike probes that are called vulnerable: the truthy one differs from
  // the baseline at the start only, the falsy one at both ends.
  lemma LookAlikesCanBeVulnerable()
    ensures var baseline := Snapshot(200, SamplePage(0, 0));
            var truthy, falsy := Snapshot(200, SamplePage(3, 0)), Snapshot(200, SamplePage(3, 3));
            && LooksLike(truthy, falsy) && LooksLike(falsy, truthy) && LooksLike(baseline, truthy)
            && BooleanCompare(baseline, truthy, falsy).decision == Vulnerable
  {
    var b, t, f := SamplePage(0, 0), SamplePage(3, 0), SamplePage(3, 3);
    SampleEdges(b, t, 0, 97);
    SampleEdges(t, f, 97, 0);
    SampleEdges(b, f, 0, 0);
    CloseEnoughIsSamePage(b, t);
    CloseEnoughIsSamePage(b, f);
    CloseEnoughIsSamePage(t, f);
    SamePageIsSymmetric(t, f);
  }

  // Look-alike probes without a verdict: alike, and unlike the baseline.
  lemma LookAlikesCanBeIndeterminate()
    ensures var baseline := Snapshot(200, SamplePage(0, 0));
            var truthy, falsy := Snapshot(200, SamplePage(100, 0)), Snapshot(200, SamplePage(97, 3));
            && LooksLike(truthy, falsy) && LooksLike(falsy, truthy)
            && BooleanCompare(baseline, truthy, falsy).decision == Indeterminate
  {
    var b, t, f := SamplePage(0, 0), SamplePage(100, 0), SamplePage(97, 3);
    SampleEdges(b, t, 0, 0);
    SampleEdges(t, f, 97, 0);
    CloseEnoughIsSamePage(b, t);
    CloseEnoughIsSamePage(t, f);
    SamePageIsSymmetric(t, f);
  }

  // Equal probes: inert when they match the baseline, otherwise no verdict.
  lemma EqualProbes(baseline: Snapshot, probe: Snapshot)
    ensures BooleanCompare(baseline, probe, probe).decision
            == (if LooksLike(baseline, probe) then NoSignal else Indeterminate)
    ensures BooleanCompare(probe, probe, probe) == BooleanResult(NoSignal, 1.0, 1.0)
  {
    EqualBodiesAreSamePage(probe.body);
    OneMeansEqual(probe.body, probe.body);
  }
}
