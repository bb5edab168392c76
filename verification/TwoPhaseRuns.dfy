/** Which checks a run reaches, and how Plant and Detect interleave in it. */
module TwoPhaseRuns {
  import opened Options
  import opened Worklists
  import opened ScanProtocol
  import opened ScanInvariant
  import opened ScanTheorems
  import opened ScanRuns
  import opened TwoPhase

  ghost predicate Quiescent(s: State) { exists w | 0 <= w < |s.workers| :: s.workers[w].Exited? }

  // ---------- which checks are reached ----------

  // At quiescence a check has had a dispatch at a tier of its own exactly when
  // a push at such a tier was accepted.
  lemma ReachedMeansAccepted(scan: Scan, workers: nat, run: seq<State>, i: nat, c: Check)
    requires IsRun(scan, workers, run) && i < |run| && Quiescent(run[i])
    ensures (exists j :: j in run[i].dispatched && MatchesTier(c, j.tier))
       <==> (exists j :: j in run[i].accepted && MatchesTier(c, j.tier))
  {
    RunInv(scan, workers, run, i);
    NothingLost(scan, workers, run, i);
    hide IsRun, Inv, MatchesTier, Quiescent;
    forall j | j in run[i].dispatched ensures j in run[i].accepted { DispatchedInBands(scan, run[i], j); }
  }

  // Every key that entered at or below the check's tier has had such a
  // dispatch, unless its page failed on the way or the scan stops short.
  lemma KeysReachTheCheck(scan: Scan, workers: nat, run: seq<State>, i: nat, c: Check, key: string, from: int)
    requires IsRun(scan, workers, run) && i < |run| && Quiescent(run[i])
    requires HasPair(run[i].accepted, key, from) && from <= CheckTier(c) <= LastTier(scan)
    ensures FailedBetween(run[i], key, from, CheckTier(c))
         || exists j :: j in run[i].dispatched && j.t.key == key && j.tier == CheckTier(c)
  {
    WalksEveryTier(scan, workers, run, i, key, from, CheckTier(c) - from);
    NothingLost(scan, workers, run, i);
    hide IsRun, Quiescent, FailedBetween;
    if HasPair(run[i].accepted, key, CheckTier(c)) {
      var k :| 0 <= k < |run[i].accepted| && run[i].accepted[k].t.key == key && run[i].accepted[k].tier == CheckTier(c);
      assert run[i].accepted[k] in run[i].accepted;
    }
  }

  // At step k a check's push at the deferred tier is accepted.
  ghost predicate PushesDeferred(scan: Scan, run: seq<State>, k: nat) {
    && k + 1 < |run|
    && exists w, d, wakee :: Enabled(scan, run[k], Discover(w, d, DEFERRED, wakee))
         && Admits(scan.queue, run[k].q, false, d, DEFERRED)
         && run[k + 1] == Apply(scan, run[k], Discover(w, d, DEFERRED, wakee))
  }

  ghost predicate PushedBefore(scan: Scan, run: seq<State>, i: nat) {
    exists k: nat | k < i :: PushesDeferred(scan, run, k)
  }

  ghost predicate HoldsDeferred(s: State) { exists j :: j in s.accepted && j.tier == DEFERRED }

  // Without two-phase checks, targets do not walk to the deferred tier: what is
  // accepted there was pushed there by a check.
  lemma {:induction false} DeferredIsPushed(scan: Scan, workers: nat, run: seq<State>, i: nat)
    requires IsRun(scan, workers, run) && i < |run| && !scan.hasDeferred
    ensures HoldsDeferred(run[i]) <==> PushedBefore(scan, run, i)
  {
    hide Enabled, Apply, PushesDeferred;
    if i == 0 {
      assert run[0].accepted == [];
    } else {
      hide HoldsDeferred, PushedBefore;
      DeferredIsPushed(scan, workers, run, i - 1);
      assert Next(scan, run[i - 1], run[i - 1 + 1]);
      hide IsRun;
      var step :| Enabled(scan, run[i - 1], step) && run[i - 1 + 1] == Apply(scan, run[i - 1], step);
      DeferredStep(scan, run, i - 1, step);
      PushedByNow(scan, run, i - 1);
    }
  }

  lemma PushedByNow(scan: Scan, run: seq<State>, i: nat)
    ensures PushedBefore(scan, run, i + 1) <==> PushedBefore(scan, run, i) || PushesDeferred(scan, run, i)
  {
    hide PushesDeferred;
  }

  lemma DeferredStep(scan: Scan, run: seq<State>, k: nat, step: Step)
    requires !scan.hasDeferred && k + 1 < |run| && Enabled(scan, run[k], step)
             && run[k + 1] == Apply(scan, run[k], step)
    ensures HoldsDeferred(run[k + 1]) <==> HoldsDeferred(run[k]) || PushesDeferred(scan, run, k)
  {
    hide Admits, WakesSomeone;
  }

  // A single-phase check declared at the deferred tier, in a scan without
  // two-phase checks: it is dispatched exactly when a check's push at the
  // deferred tier was accepted.
  lemma DeferredCheckRuns(
    registered: seq<Check>, queue: Config, workers: nat, run: seq<State>, i: nat, c: Check)
    requires c in registered && !HasTwoPhase(registered) && CheckTier(c) == DEFERRED
    requires IsRun(Scan(queue, HasTwoPhase(registered)), workers, run) && i < |run| && Quiescent(run[i])
    ensures (exists j :: j in run[i].dispatched && MatchesTier(c, j.tier))
       <==> PushedBefore(Scan(queue, false), run, i)
  {
    ReachedMeansAccepted(Scan(queue, false), workers, run, i, c);
    DeferredIsPushed(Scan(queue, false), workers, run, i);
  }

  // Such a run: the page walks to the last tier, a check emits d at the
  // deferred tier, d is dispatched there and the check is among those selected.
  lemma DeferredCheckCanRun(registered: seq<Check>, c: Check, p: Target, d: Target, applies: Check -> bool)
    returns (run: seq<State>, i: nat)
    requires c in registered && !HasTwoPhase(registered) && CheckTier(c) == DEFERRED
    requires p.key != "" && d.key != "" && p.key != d.key
    ensures IsRun(Scan(PERMISSIVE, HasTwoPhase(registered)), 1, run) && i < |run| && Quiescent(run[i])
    ensures Job(d, DEFERRED) in run[i].dispatched
    ensures forall kind | ConsumesKind(c, kind) && applies(c) :: Selects(c, DEFERRED, kind, "", applies)
  {
    var scan := Scan(PERMISSIVE, false);
    var emitted := DeferredEmission(scan, p, d);
    var taken := TakeUp(scan, emitted, d, DEFERRED);
    var fetched := Fetch(scan, taken, d, DEFERRED);
    var retired := Retire(scan, fetched, d, DEFERRED);
    hide IsRun, Alone, InHand;
    run := WindUp(scan, retired);
    i := |run| - 1;
    var dispatched := run[i].dispatched;
    assert dispatched[|dispatched| - 1] == Job(d, DEFERRED);
    assert run[i].workers[0].Exited?;
  }

  // The page walks to the active tier, where a check emits d at the deferred one.
  lemma DeferredEmission(scan: Scan, p: Target, d: Target) returns (run: seq<State>)
    requires scan == Scan(PERMISSIVE, false) && p.key != "" && d.key != "" && p.key != d.key
    ensures IsRun(scan, 1, run) && Alone(Final(run), d, DEFERRED)
  {
    var started := Start(scan);
    assert Unknown(Final(started), p);
    var fed := Feed(scan, started, p);
    var climbed := ClimbTo(scan, fed, p, FINGERPRINT, ACTIVE - FINGERPRINT);
    var taken := TakeUp(scan, climbed, p, ACTIVE);
    var fetched := Fetch(scan, taken, p, ACTIVE);
    hide IsRun, Alone, InHand;
    run := EmitAndRetire(scan, fetched, p, ACTIVE, d, DEFERRED);
  }

  // ---------- Plant after Detect ----------

  // For every two-phase check that plants, a run in which its Detect is popped
  // on the first page and only then the producer pushes the second page, whose
  // Plant is popped later.
  lemma PlantAfterDetect(c: Check, p1: Target, p2: Target) returns (run: seq<State>, i: nat, k: nat)
    requires c.twoPhase && CheckTier(c) < DEFERRED && p1.key != "" && p2.key != "" && p1.key != p2.key
    ensures var scan := Scan(PERMISSIVE, true);
            && IsRun(scan, 1, run) && i < k && k + 1 < |run|
            && Enabled(scan, run[i], Pop(0, Took(p1, DEFERRED)))
            && run[i + 1] == Apply(scan, run[i], Pop(0, Took(p1, DEFERRED)))
            && (forall j | j in run[i + 1].accepted :: j.t.key != p2.key)
            && Enabled(scan, run[k], Pop(0, Took(p2, CheckTier(c))))
            && run[k + 1] == Apply(scan, run[k], Pop(0, Took(p2, CheckTier(c))))
    ensures EntryAt(c, DEFERRED) == Detect && EntryAt(c, CheckTier(c)) == Plant
  {
    var scan, tier := Scan(PERMISSIVE, true), CheckTier(c);
    assert FINGERPRINT <= tier && EntryAt(c, DEFERRED) == Detect && EntryAt(c, tier) == Plant;
    hide IsRun, Enabled, Apply, Alone, InHand, Idle, CheckTier, EntryAt;
    var detected;
    detected, i := DetectFirst(scan, p1, p2);
    run, k := PlantNext(scan, detected, p2, tier);
    Kept(detected, run, i);
    Kept(detected, run, i + 1);
    assert Unknown(run[i + 1], p2);
  }

  lemma Kept(run: seq<State>, longer: seq<State>, i: nat)
    requires run <= longer && i < |run|
    ensures longer[i] == run[i]
  {
  }

  // The next page walks to the tier and is popped there.
  lemma PlantNext(scan: Scan, run: seq<State>, p: Target, tier: int) returns (longer: seq<State>, k: nat)
    requires scan == Scan(PERMISSIVE, true) && IsRun(scan, 1, run) && Idle(Final(run)) && Unknown(Final(run), p)
    requires FINGERPRINT <= tier < DEFERRED
    ensures IsRun(scan, 1, longer) && run <= longer && |run| <= k + 1 < |longer|
    ensures Enabled(scan, longer[k], Pop(0, Took(p, tier)))
    ensures longer[k + 1] == Apply(scan, longer[k], Pop(0, Took(p, tier)))
  {
    hide IsRun, Enabled, Apply, Alone, InHand, Idle, Unknown;
    var fed := Feed(scan, run, p);
    var climbed := ClimbTo(scan, fed, p, FINGERPRINT, tier - FINGERPRINT);
    longer := TakeUp(scan, climbed, p, tier);
    k := |climbed| - 1;
    Kept(climbed, longer, k);
  }

  // The first page walks to Detect and is done; the second is still unknown.
  lemma DetectFirst(scan: Scan, p1: Target, p2: Target) returns (run: seq<State>, i: nat)
    requires scan == Scan(PERMISSIVE, true) && p1.key != "" && p2.key != "" && p1.key != p2.key
    ensures IsRun(scan, 1, run) && i + 1 < |run| && Idle(Final(run)) && Unknown(Final(run), p2)
    ensures Enabled(scan, run[i], Pop(0, Took(p1, DEFERRED)))
    ensures run[i + 1] == Apply(scan, run[i], Pop(0, Took(p1, DEFERRED))) && Unknown(run[i + 1], p2)
  {
    hide IsRun, Enabled, Apply, Alone, InHand, Idle;
    var started := Start(scan);
    assert Unknown(Final(started), p1) && Unknown(Final(started), p2);
    var fed := Feed(scan, started, p1);
    var climbed := ClimbTo(scan, fed, p1, FINGERPRINT, DEFERRED - FINGERPRINT);
    assert Unknown(Final(climbed), p2);
    hide Unknown;
    run, i := DetectNow(scan, climbed, p1, p2);
  }

  lemma DetectNow(scan: Scan, run: seq<State>, p: Target, other: Target) returns (longer: seq<State>, i: nat)
    requires scan == Scan(PERMISSIVE, true) && IsRun(scan, 1, run) && Alone(Final(run), p, DEFERRED)
    requires Unknown(Final(run), other)
    ensures IsRun(scan, 1, longer) && i + 1 < |longer| && Idle(Final(longer)) && Unknown(Final(longer), other)
    ensures Enabled(scan, longer[i], Pop(0, Took(p, DEFERRED)))
    ensures longer[i + 1] == Apply(scan, longer[i], Pop(0, Took(p, DEFERRED))) && Unknown(longer[i + 1], other)
  {
    assert run != [];
    hide IsRun, Enabled, Apply, Alone, InHand, Idle;
    var detecting := TakeUp(scan, run, p, DEFERRED);
    var fetched := Fetch(scan, detecting, p, DEFERRED);
    longer := Retire(scan, fetched, p, DEFERRED);
    i := |run| - 1;
    Kept(run, detecting, i);
    Kept(detecting, fetched, i);
    Kept(detecting, fetched, i + 1);
    Kept(fetched, longer, i);
    Kept(fetched, longer, i + 1);
  }

  // From a popped Detect to quiescence nothing more is dispatched at a lower
  // tier exactly when nothing more is accepted at it.
  lemma PlantsEndCondition(
    scan: Scan, workers: nat, run: seq<State>, i: nat, w: nat, t: Target, k: nat, tier: int)
    requires IsRun(scan, workers, run) && i <= k < |run| && Enabled(scan, run[i], Pop(w, Took(t, DEFERRED)))
    requires FINGERPRINT <= tier < DEFERRED && Quiescent(run[k])
    ensures AtTier(run[k].dispatched, tier) == AtTier(run[i].dispatched, tier)
       <==> AtTier(run[k].accepted, tier) == AtTier(run[i].accepted, tier)
  {
    NothingQueuedBelow(scan, workers, run, i, w, t, tier);
    RunInv(scan, workers, run, k);
    var s := run[k];
    assert Pending(s.q, tier) == 0;
    InvBalances(s);
    assert |Items(s.q, tier)| <= Pending(s.q, tier);
    assert AtTier(s.accepted, tier) == AtTier(s.dispatched, tier) + Items(s.q, tier);
  }

  lemma NothingQueuedBelow(scan: Scan, workers: nat, run: seq<State>, i: nat, w: nat, t: Target, tier: int)
    requires IsRun(scan, workers, run) && i < |run| && Enabled(scan, run[i], Pop(w, Took(t, DEFERRED)))
    requires FINGERPRINT <= tier < DEFERRED
    ensures Items(run[i].q, tier) == [] && AtTier(run[i].accepted, tier) == AtTier(run[i].dispatched, tier)
  {
    RunInv(scan, workers, run, i);
    var s := run[i];
    InvBalances(s);
    assert |Items(s.q, tier)| <= Pending(s.q, tier);
    assert AtTier(s.accepted, tier) == AtTier(s.dispatched, tier) + Items(s.q, tier);
  }

  // ---------- when no Plant follows ----------

  // Step k is not a push below the deferred tier by a check.
  ghost predicate EmitsDeferredOnly(scan: Scan, run: seq<State>, k: nat) {
    && k + 1 < |run|
    && exists step :: Enabled(scan, run[k], step) && run[k + 1] == Apply(scan, run[k], step)
                      && (step.Discover? ==> step.tier == DEFERRED)
  }

  // The producer is done and only the deferred tier has work.
  ghost predicate Settled(s: State) {
    && s.q.sourceDone
    && (forall x: int | FINGERPRINT <= x < DEFERRED :: Items(s.q, x) == [])
    && forall v | 0 <= v < |s.workers| && Busy(s.workers[v]) :: s.workers[v].job.tier == DEFERRED
  }

  // From a popped Detect on, with the producer done and checks emitting at the
  // deferred tier only, no lower tier gets another dispatch.
  lemma {:induction false} NoPlantFollows(
    scan: Scan, workers: nat, run: seq<State>, i: nat, w: nat, t: Target, k: nat, tier: int)
    requires IsRun(scan, workers, run) && i <= k < |run| && Enabled(scan, run[i], Pop(w, Took(t, DEFERRED)))
    requires FINGERPRINT <= tier < DEFERRED && run[i].q.sourceDone
    requires forall x: nat | i <= x < k :: EmitsDeferredOnly(scan, run, x)
    ensures AtTier(run[k].dispatched, tier) == AtTier(run[i].dispatched, tier)
    ensures Settled(run[k])
    decreases k - i
  {
    hide IsRun, Settled, Enabled, Apply;
    if k == i {
      SettledAtDetect(scan, workers, run, i, w, t);
    } else {
      NoPlantFollows(scan, workers, run, i, w, t, k - 1, tier);
      assert EmitsDeferredOnly(scan, run, k - 1);
      var step :| Enabled(scan, run[k - 1], step) && run[k - 1 + 1] == Apply(scan, run[k - 1], step)
                  && (step.Discover? ==> step.tier == DEFERRED);
      SettledStep(scan, run[k - 1], step, tier);
    }
  }

  lemma SettledAtDetect(scan: Scan, workers: nat, run: seq<State>, i: nat, w: nat, t: Target)
    requires IsRun(scan, workers, run) && i < |run| && Enabled(scan, run[i], Pop(w, Took(t, DEFERRED)))
    requires run[i].q.sourceDone
    ensures Settled(run[i])
  {
    forall x: int | FINGERPRINT <= x < DEFERRED ensures Items(run[i].q, x) == [] {
      NothingQueuedBelow(scan, workers, run, i, w, t, x);
    }
    BarrierHolds(scan, workers, run, i, w, t, DEFERRED);
    RunInv(scan, workers, run, i);
    var s := run[i];
    forall v | 0 <= v < |s.workers| && Busy(s.workers[v]) ensures s.workers[v].job.tier == DEFERRED {
      DispatchedInBands(scan, s, s.workers[v].job);
    }
  }

  lemma SettledStep(scan: Scan, s: State, step: Step, tier: int)
    requires Settled(s) && Enabled(scan, s, step) && FINGERPRINT <= tier < DEFERRED
    requires step.Discover? ==> step.tier == DEFERRED
    ensures Settled(Apply(scan, s, step))
    ensures AtTier(Apply(scan, s, step).dispatched, tier) == AtTier(s.dispatched, tier)
  {
    hide Admits, WakesSomeone, Drained, PopMeets;
    SettledQueue(scan, s, step);
    SettledWorkers(scan, s, step);
  }

  lemma SettledWorkers(scan: Scan, s: State, step: Step)
    requires Settled(s) && Enabled(scan, s, step) && (step.Pop? && step.a.Took? ==> step.a.tier == DEFERRED)
    ensures var s' := Apply(scan, s, step);
            forall v | 0 <= v < |s'.workers| && Busy(s'.workers[v]) :: s'.workers[v].job.tier == DEFERRED
  {
    hide Admits, WakesSomeone, Drained, PopMeets;
    var s' := Apply(scan, s, step);
    forall v | 0 <= v < |s'.workers| && Busy(s'.workers[v]) ensures s'.workers[v].job.tier == DEFERRED {
      assert v < |s.workers|;
      assert Busy(s.workers[v]) ==> s.workers[v].job.tier == DEFERRED;
    }
  }

  lemma SettledQueue(scan: Scan, s: State, step: Step)
    requires Settled(s) && Enabled(scan, s, step) && (step.Discover? ==> step.tier == DEFERRED)
    ensures var s' := Apply(scan, s, step);
            s'.q.sourceDone && forall x: int | FINGERPRINT <= x < DEFERRED :: Items(s'.q, x) == []
    ensures step.Pop? && step.a.Took? ==> step.a.tier == DEFERRED
  {
    hide Admits, WakesSomeone, Drained;
    var s' := Apply(scan, s, step);
    if step.Pop? && step.a.Took? {
      assert Eligible(s.q, step.a.tier);
    }
    forall x: int | FINGERPRINT <= x < DEFERRED ensures Items(s'.q, x) == [] {
      assert Items(s.q, x) == [];
    }
  }
}
