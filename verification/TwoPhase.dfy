/** Which checks a dispatch runs, and through which entry point
    (internal/scanner/scanner.go: scanTier, checkTier, checkMatchesTier, runCheck),
    and what the barrier makes of that for a check that plants and later detects. */
module TwoPhase {
  import opened Options
  import opened Worklists
  import opened ScanProtocol
  import opened ScanInvariant
  import opened ScanTheorems

  datatype Kind = HostKind | PageKind | EndpointKind | ParamKind

  /** What a check declares when it implements Targeted. */
  datatype Declared = Declared(tier: int, consumes: seq<Kind>)

  datatype Check = Check(name: string, targeted: Option<Declared>, twoPhase: bool)

  datatype Entry = Run | Plant | Detect

  function CheckTier(c: Check): int {
    if c.targeted.None? then ACTIVE
    else if c.targeted.value.tier < FINGERPRINT || c.targeted.value.tier > DEFERRED then ACTIVE
    else c.targeted.value.tier
  }

  predicate MatchesTier(c: Check, tier: int) {
    (tier == DEFERRED && c.twoPhase) || CheckTier(c) == tier
  }

  predicate ConsumesKind(c: Check, k: Kind) {
    if c.targeted.None? || c.targeted.value.consumes == [] then k == PageKind
    else k in c.targeted.value.consumes
  }

  predicate IsSelfLoop(origin: string, c: Check) {
    origin != "" && origin == "check:" + c.name
  }

  function EntryAt(c: Check, tier: int): Entry {
    if !c.twoPhase then Run else if tier == DEFERRED then Detect else Plant
  }

  predicate Selects(c: Check, tier: int, kind: Kind, origin: string, applies: Check -> bool) {
    && MatchesTier(c, tier)
    && ConsumesKind(c, kind)
    && !(tier != DEFERRED && IsSelfLoop(origin, c))
    && applies(c)
  }

  // A check that declares nothing is an active-tier check of pages; if it is
  // two-phase it sees them at the deferred tier as well. It skips what it emitted
  // itself, except at the deferred tier.
  lemma UntargetedSelection(c: Check, tier: int, kind: Kind, origin: string, applies: Check -> bool)
    requires c.targeted.None?
    ensures Selects(c, tier, kind, origin, applies) <==>
            && kind == PageKind && applies(c)
            && ((tier == 4 && origin != "check:" + c.name) || (tier == 5 && c.twoPhase))
  {
  }

  // A declared tier outside 1 to 5 counts as active, no declared kind as pages.
  lemma DeclaredSelection(c: Check, tier: int, kind: Kind, origin: string, applies: Check -> bool)
    requires c.targeted.Some?
    ensures var declared := c.targeted.value;
            Selects(c, tier, kind, origin, applies) <==>
            && (if declared.consumes == [] then kind == PageKind else kind in declared.consumes) && applies(c)
            && ((tier == 5 && (c.twoPhase || declared.tier == 5))
                || (tier < 5 && origin != "check:" + c.name
                    && tier == if 1 <= declared.tier <= 5 then declared.tier else 4))
  {
  }

  // A single-phase check is run, a two-phase one plants before the deferred tier
  // and detects at it.
  lemma EntryPoints(c: Check, tier: int)
    ensures EntryAt(c, tier) == Run <==> !c.twoPhase
    ensures EntryAt(c, tier) == Plant <==> c.twoPhase && tier != 5
    ensures EntryAt(c, tier) == Detect <==> c.twoPhase && tier == 5
  {
  }

  // The checks one dispatch runs: the registered ones that pass, in order, once each.
  method ScanTier(registered: seq<Check>, tier: int, kind: Kind, origin: string, applies: Check -> bool)
    returns (checks: seq<Check>, ghost at: seq<nat>)
    ensures |at| == |checks| && forall i | 0 <= i < |at| :: at[i] < |registered| && checks[i] == registered[at[i]]
    ensures forall i, j | 0 <= i < j < |at| :: at[i] < at[j]
    ensures forall k | 0 <= k < |registered| :: k in at <==> Selects(registered[k], tier, kind, origin, applies)
    ensures forall c | c in checks :: Selects(c, tier, kind, origin, applies)
    ensures forall c | c in registered && Selects(c, tier, kind, origin, applies) :: c in checks
  {
    checks, at := [], [];
    for k := 0 to |registered|
      invariant |at| == |checks| && forall i | 0 <= i < |at| :: at[i] < k && checks[i] == registered[at[i]]
      invariant forall i, j | 0 <= i < j < |at| :: at[i] < at[j]
      invariant forall x | 0 <= x < k :: x in at <==> Selects(registered[x], tier, kind, origin, applies)
    {
      var c := registered[k];
      if !MatchesTier(c, tier) { continue; }
      if !ConsumesKind(c, kind) { continue; }
      if tier != DEFERRED && IsSelfLoop(origin, c) { continue; }
      if !applies(c) { continue; }
      checks, at := checks + [c], at + [k];
    }
    forall c | c in registered && Selects(c, tier, kind, origin, applies) ensures c in checks {
      var k :| 0 <= k < |registered| && registered[k] == c;
      var i :| 0 <= i < |at| && at[i] == k;
      assert checks[i] == c;
    }
  }

  function HasTwoPhase(registered: seq<Check>): bool { exists c :: c in registered && c.twoPhase }

  // Targets walk on to the deferred tier exactly if some check is two-phase.
  lemma LastTierIs(queue: Config, registered: seq<Check>)
    ensures LastTier(Scan(queue, HasTwoPhase(registered)))
         == if exists k | 0 <= k < |registered| :: registered[k].twoPhase then 5 else 4
  {
    if k :| 0 <= k < |registered| && registered[k].twoPhase { assert registered[k] in registered; }
  }

  // A check never sees an entry point twice for one key: of the dispatches of a
  // run, at most one per key selects it for Plant and at most one for Detect (and
  // a single-phase check sees Run once).
  lemma EntryOncePerKey(scan: Scan, workers: nat, run: seq<State>, x: nat, c: Check, i: nat, j: nat)
    requires IsRun(scan, workers, run) && x < |run| && i < j < |run[x].dispatched|
    requires run[x].dispatched[i].t.key == run[x].dispatched[j].t.key
    requires MatchesTier(c, run[x].dispatched[i].tier) && MatchesTier(c, run[x].dispatched[j].tier)
    ensures EntryAt(c, run[x].dispatched[i].tier) != EntryAt(c, run[x].dispatched[j].tier)
  {
    FifoWithinTier(scan, workers, run, x, FINGERPRINT);
    assert !SameSlot(run[x].dispatched[i], run[x].dispatched[j]);
  }

  // Plant has a tier to run at exactly when it is declared below the deferred
  // one; a two-phase check declared at the deferred tier only ever detects.
  lemma PlantsOnlyBelowDeferred(c: Check)
    requires c.twoPhase
    ensures (exists tier :: MatchesTier(c, tier) && EntryAt(c, tier) == Plant) <==> CheckTier(c) != DEFERRED
    ensures forall tier :: MatchesTier(c, tier) && EntryAt(c, tier) == Detect <==> tier == DEFERRED
  {
    if CheckTier(c) != DEFERRED { assert MatchesTier(c, CheckTier(c)) && EntryAt(c, CheckTier(c)) == Plant; }
  }

  // When any Detect is popped, every key accepted so far at or below the plant
  // tier has had its plant dispatch, and that dispatch is over, unless its page
  // failed to materialize on the way; and nothing at a lower tier is running.
  lemma PlantsPrecedeDetect(
    scan: Scan, workers: nat, run: seq<State>, i: nat, w: nat, t: Target, c: Check, key: string, from: int)
    requires IsRun(scan, workers, run) && i < |run| && Enabled(scan, run[i], Pop(w, Took(t, DEFERRED)))
    requires c.twoPhase && FINGERPRINT <= from <= CheckTier(c) < DEFERRED
    requires HasPair(run[i].accepted, key, from)
    ensures FailedBetween(run[i], key, from, CheckTier(c))
         || exists j :: j in run[i].finished && j.t.key == key && j.tier == CheckTier(c)
    ensures forall v | 0 <= v < |run[i].workers| && Busy(run[i].workers[v]) :: run[i].workers[v].job.tier == DEFERRED
  {
    var s := run[i];
    RunInv(scan, workers, run, i);
    BarrierHolds(scan, workers, run, i, w, t, DEFERRED);
    forall v | 0 <= v < |s.workers| && Busy(s.workers[v]) ensures s.workers[v].job.tier == DEFERRED {
      DispatchedInBands(scan, s, s.workers[v].job);
    }
    Climb(scan, s, key, from, CheckTier(c) - from);
    if HasPair(s.accepted, key, CheckTier(c)) {
      var k :| 0 <= k < |s.accepted| && s.accepted[k].t.key == key && s.accepted[k].tier == CheckTier(c);
      assert s.accepted[k] in s.accepted;
    }
  }

  // Everything below the deferred tier being finished, keys have climbed.
  lemma {:induction false} Climb(scan: Scan, s: State, key: string, from: int, up: nat)
    requires Progressed(scan, s) && HasPair(s.accepted, key, from)
    requires FINGERPRINT <= from && from + up < DEFERRED
    requires forall j | j in s.accepted && FINGERPRINT <= j.tier < DEFERRED :: j in s.finished
    ensures HasPair(s.accepted, key, from + up) || FailedBetween(s, key, from, from + up)
    decreases up
  {
    if up > 0 {
      Climb(scan, s, key, from, up - 1);
      if k :| 0 <= k < |s.accepted| && s.accepted[k].t.key == key && s.accepted[k].tier == from + up - 1 {
        var j := s.accepted[k];
        assert j in s.accepted && Advanced(scan, s, j);
      }
    }
  }
}
