/** Runs of the scan built step by step: one worker, a permissive queue, one
    target at a time. They are the witnesses for what a run can do. */
module ScanRuns {
  import opened Options
  import opened Sums
  import opened Worklists
  import opened ScanProtocol
  import opened ScanInvariant

  // No scope, no host budget.
  const PERMISSIVE := Config(None, 0)

  function Final(run: seq<State>): State
    requires run != []
  {
    run[|run| - 1]
  }

  // One more step of a run.
  lemma Then(c: Scan, workers: nat, run: seq<State>, step: Step) returns (longer: seq<State>)
    requires IsRun(c, workers, run) && Enabled(c, Final(run), step)
    ensures IsRun(c, workers, longer) && run <= longer && |longer| == |run| + 1
    ensures Final(longer) == Apply(c, Final(run), step)
  {
    hide Enabled, Apply;
    longer := run + [Apply(c, Final(run), step)];
    forall i | 0 <= i < |longer| - 1 ensures Next(c, longer[i], longer[i + 1]) {
      if i < |run| - 1 { assert Next(c, run[i], run[i + 1]); }
    }
  }

  lemma Start(c: Scan) returns (run: seq<State>)
    ensures IsRun(c, 1, run) && |run| == 1 && Idle(Final(run))
    ensures Final(run).accepted == [] && Final(run).dispatched == []
  {
    run := [Init(1)];
    assert Init(1).workers == [Runnable];
  }

  // The producer runs, the one worker is free, nothing is outstanding.
  ghost predicate Idle(s: State) {
    && s.workers == [Runnable] && !s.q.closed && !s.q.sourceDone
    && forall x: int :: Items(s.q, x) == [] && Pending(s.q, x) == 0
  }

  // The same, but t waits at tier, the highest it was accepted at.
  ghost predicate Alone(s: State, t: Target, tier: int) {
    && s.workers == [Runnable] && !s.q.closed && !s.q.sourceDone && t.key != ""
    && (forall x: int :: Items(s.q, x) == if x == tier then [t] else [])
    && (forall x: int :: Pending(s.q, x) == if x == tier then 1 else 0)
    && forall j | j in s.accepted && j.t.key == t.key :: j.tier <= tier
  }

  // t is in the worker's hands at tier, in the given phase.
  ghost predicate InHand(s: State, t: Target, tier: int, worker: Worker) {
    && s.workers == [worker] && !s.q.closed && !s.q.sourceDone && t.key != ""
    && (forall x: int :: Items(s.q, x) == [])
    && (forall x: int :: Pending(s.q, x) == if x == tier then 1 else 0)
    && forall j | j in s.accepted && j.t.key == t.key :: j.tier <= tier
  }

  ghost predicate Unknown(s: State, t: Target) { t.key != "" && forall j | j in s.accepted :: j.t.key != t.key }

  lemma SeenIsAccepted(c: Scan, run: seq<State>)
    requires IsRun(c, 1, run)
    ensures run != [] && SeenMatches(Final(run))
  {
    RunInv(c, 1, run, |run| - 1);
  }

  // A permissive queue takes what it has not seen at this tier.
  lemma Admitted(c: Scan, s: State, t: Target, tier: int)
    requires c.queue == PERMISSIVE && SeenMatches(s) && !s.q.closed && t.key != ""
    requires forall j | j in s.accepted && j.t.key == t.key :: j.tier != tier
    ensures Admits(c.queue, s.q, false, t, tier)
  {
    forall i | 0 <= i < |s.accepted| ensures s.accepted[i].t.key != t.key || s.accepted[i].tier != tier {
      assert s.accepted[i] in s.accepted;
    }
    assert SeenKey(t.key, tier) in s.q.seen <==> HasPair(s.accepted, t.key, tier);
  }

  // ---------- single steps ----------

  lemma FeedStep(c: Scan, s: State, t: Target)
    requires c.queue == PERMISSIVE && SeenMatches(s) && Idle(s) && Unknown(s, t)
    ensures Enabled(c, s, ProducerPush(t, 0))
    ensures var s' := Apply(c, s, ProducerPush(t, 0));
            && Alone(s', t, FINGERPRINT) && s'.dispatched == s.dispatched
            && s'.accepted == s.accepted + [Job(t, FINGERPRINT)]
  {
    Admitted(c, s, t, FINGERPRINT);
    hide Admits, SeenAnyTier, SeenMatches;
    assert [] + [t] == [t];
    var s' := Apply(c, s, ProducerPush(t, 0));
    forall x: int
      ensures Items(s'.q, x) == if x == FINGERPRINT then [t] else []
      ensures Pending(s'.q, x) == if x == FINGERPRINT then 1 else 0
    {
      assert Items(s.q, x) == [] && Pending(s.q, x) == 0;
    }
  }

  lemma TakeStep(c: Scan, s: State, t: Target, tier: int)
    requires InBands(tier) && Alone(s, t, tier)
    ensures Enabled(c, s, Pop(0, Took(t, tier)))
    ensures var s' := Apply(c, s, Pop(0, Took(t, tier)));
            && InHand(s', t, tier, Fetching(Job(t, tier))) && s'.accepted == s.accepted
            && s'.dispatched == s.dispatched + [Job(t, tier)]
  {
    assert Items(s.q, tier) == [t] && [t][1..] == [];
    assert Popped(s.q, Took(t, tier)) == Take(s.q, tier);
    var s' := Apply(c, s, Pop(0, Took(t, tier)));
    forall x: int
      ensures Items(s'.q, x) == []
      ensures Pending(s'.q, x) == if x == tier then 1 else 0
    {
      assert Items(s.q, x) == (if x == tier then [t] else []) && Pending(s.q, x) == (if x == tier then 1 else 0);
    }
  }

  lemma AdvanceStep(c: Scan, s: State, t: Target, tier: int)
    requires c.queue == PERMISSIVE && SeenMatches(s)
    requires InHand(s, t, tier, Scanning(Job(t, tier))) && tier < LastTier(c)
    ensures Enabled(c, s, Step.Advance(0, 0))
    ensures var s' := Apply(c, s, Step.Advance(0, 0));
            && s'.workers == [Finishing(Job(t, tier))] && !s'.q.closed && !s'.q.sourceDone
            && (forall x: int :: Items(s'.q, x) == if x == tier + 1 then [t] else [])
            && (forall x: int :: Pending(s'.q, x) == if x == tier || x == tier + 1 then 1 else 0)
            && s'.accepted == s.accepted + [Job(t, tier + 1)] && s'.dispatched == s.dispatched
  {
    Admitted(c, s, t, tier + 1);
    AdvanceOrder(c, s, 0, 0);
    hide Admits, SeenAnyTier, SeenMatches;
    assert [] + [t] == [t];
    var s' := Apply(c, s, Step.Advance(0, 0));
    forall x: int
      ensures Items(s'.q, x) == if x == tier + 1 then [t] else []
      ensures Pending(s'.q, x) == if x == tier || x == tier + 1 then 1 else 0
    {
      assert Items(s.q, x) == [] && Pending(s.q, x) == if x == tier then 1 else 0;
    }
  }

  lemma FinishStep(c: Scan, s: State, job: Job)
    requires s.workers == [Finishing(job)]
    ensures Enabled(c, s, Finish(0))
    ensures var s' := Apply(c, s, Finish(0));
            && s'.workers == [Runnable] && s'.q.closed == s.q.closed && s'.q.sourceDone == s.q.sourceDone
            && (forall x: int :: Items(s'.q, x) == Items(s.q, x))
            && (forall x: int :: Pending(s'.q, x) == Pending(s.q, x) - if x == job.tier then 1 else 0)
            && s'.accepted == s.accepted && s'.dispatched == s.dispatched
  {
    assert s.workers[0 := Runnable] == [Runnable];
  }

  // ---------- stretches of a run ----------

  // The producer pushes a page.
  lemma Feed(c: Scan, run: seq<State>, t: Target) returns (longer: seq<State>)
    requires c.queue == PERMISSIVE && IsRun(c, 1, run) && Idle(Final(run)) && Unknown(Final(run), t)
    ensures IsRun(c, 1, longer) && run <= longer && Alone(Final(longer), t, FINGERPRINT)
    ensures Final(longer).accepted == Final(run).accepted + [Job(t, FINGERPRINT)]
    ensures Final(longer).dispatched == Final(run).dispatched
  {
    SeenIsAccepted(c, run);
    hide Apply, Enabled, IsRun, Alone, Idle, Unknown, SeenMatches;
    FeedStep(c, Final(run), t);
    longer := Then(c, 1, run, ProducerPush(t, 0));
  }

  // The worker takes it.
  lemma TakeUp(c: Scan, run: seq<State>, t: Target, tier: int) returns (longer: seq<State>)
    requires IsRun(c, 1, run) && InBands(tier) && Alone(Final(run), t, tier)
    ensures Enabled(c, Final(run), Pop(0, Took(t, tier)))
    ensures IsRun(c, 1, longer) && run <= longer && |longer| == |run| + 1
    ensures Final(longer) == Apply(c, Final(run), Pop(0, Took(t, tier)))
    ensures InHand(Final(longer), t, tier, Fetching(Job(t, tier)))
    ensures Final(longer).accepted == Final(run).accepted
    ensures Final(longer).dispatched == Final(run).dispatched + [Job(t, tier)]
  {
    assert run != [];
    hide Apply, Enabled, IsRun, Alone, InHand;
    TakeStep(c, Final(run), t, tier);
    longer := Then(c, 1, run, Pop(0, Took(t, tier)));
  }

  lemma Fetch(c: Scan, run: seq<State>, t: Target, tier: int) returns (longer: seq<State>)
    requires IsRun(c, 1, run) && InHand(Final(run), t, tier, Fetching(Job(t, tier)))
    ensures IsRun(c, 1, longer) && run <= longer && |longer| == |run| + 1
    ensures InHand(Final(longer), t, tier, Scanning(Job(t, tier)))
    ensures Final(longer).accepted == Final(run).accepted && Final(longer).dispatched == Final(run).dispatched
  {
    longer := Then(c, 1, run, Materialize(0, true));
  }

  // At the last tier the worker just lets go.
  lemma Retire(c: Scan, run: seq<State>, t: Target, tier: int) returns (longer: seq<State>)
    requires IsRun(c, 1, run) && InHand(Final(run), t, tier, Scanning(Job(t, tier))) && tier >= LastTier(c)
    ensures IsRun(c, 1, longer) && run <= longer && Idle(Final(longer))
    ensures Final(longer).accepted == Final(run).accepted && Final(longer).dispatched == Final(run).dispatched
  {
    longer := Then(c, 1, run, Step.Advance(0, 0));
    FinishStep(c, Final(longer), Job(t, tier));
    hide Apply, Enabled, IsRun;
    longer := Then(c, 1, longer, Finish(0));
  }

  // Below it the target waits again, one tier up.
  lemma Promote(c: Scan, run: seq<State>, t: Target, tier: int) returns (longer: seq<State>)
    requires c.queue == PERMISSIVE && IsRun(c, 1, run) && tier < LastTier(c)
    requires InHand(Final(run), t, tier, Scanning(Job(t, tier)))
    ensures IsRun(c, 1, longer) && run <= longer && Alone(Final(longer), t, tier + 1)
    ensures Final(longer).accepted == Final(run).accepted + [Job(t, tier + 1)]
    ensures Final(longer).dispatched == Final(run).dispatched
  {
    SeenIsAccepted(c, run);
    hide Apply, Enabled, IsRun, SeenMatches;
    AdvanceStep(c, Final(run), t, tier);
    longer := Then(c, 1, run, Step.Advance(0, 0));
    FinishStep(c, Final(longer), Job(t, tier));
    longer := Then(c, 1, longer, Finish(0));
  }

  // From one tier to another, dispatch by dispatch.
  lemma {:induction false} ClimbTo(c: Scan, run: seq<State>, t: Target, from: int, up: nat) returns (longer: seq<State>)
    requires c.queue == PERMISSIVE && IsRun(c, 1, run) && Alone(Final(run), t, from)
    requires FINGERPRINT <= from && from + up <= LastTier(c)
    ensures IsRun(c, 1, longer) && run <= longer && Alone(Final(longer), t, from + up)
    ensures forall j | j in Final(longer).accepted :: j in Final(run).accepted || j.t == t
    ensures forall j | j in Final(longer).dispatched :: j in Final(run).dispatched || (j.t == t && j.tier < from + up)
    decreases up
  {
    if up == 0 {
      longer := run;
    } else {
      var taken := TakeUp(c, run, t, from);
      var fetched := Fetch(c, taken, t, from);
      var promoted := Promote(c, fetched, t, from);
      hide IsRun, Alone, InHand;
      longer := ClimbTo(c, promoted, t, from + 1, up - 1);
    }
  }

  // ---------- a check emits ----------

  // While one target is dispatched, a check pushes another one at a tier the
  // first is not at; the other then waits alone once the first is let go.
  lemma EmitStep(c: Scan, s: State, t: Target, tier: int, d: Target, at: int)
    requires c.queue == PERMISSIVE && SeenMatches(s) && InHand(s, t, tier, Scanning(Job(t, tier))) && Unknown(s, d)
    ensures Enabled(c, s, Discover(0, d, at, 0)) && Admits(c.queue, s.q, false, d, at)
    ensures var s' := Apply(c, s, Discover(0, d, at, 0));
            && s'.workers == s.workers && s'.q.closed == s.q.closed && s'.q.sourceDone == s.q.sourceDone
            && (forall x: int :: Items(s'.q, x) == if x == at then [d] else [])
            && (forall x: int :: Pending(s'.q, x) == Pending(s.q, x) + if x == at then 1 else 0)
            && s'.accepted == s.accepted + [Job(d, at)] && s'.dispatched == s.dispatched
  {
    Admitted(c, s, d, at);
    hide Admits, SeenAnyTier, SeenMatches;
    assert [] + [d] == [d];
    var s' := Apply(c, s, Discover(0, d, at, 0));
    forall x: int ensures Items(s'.q, x) == if x == at then [d] else [] { assert Items(s.q, x) == []; }
  }

  // A run in which the last tier's dispatch of p emits d at a higher one; d waits alone.
  lemma EmitAndRetire(c: Scan, run: seq<State>, p: Target, tier: int, d: Target, at: int) returns (longer: seq<State>)
    requires c.queue == PERMISSIVE && IsRun(c, 1, run) && Unknown(Final(run), d) && tier >= LastTier(c) && at != tier
    requires InHand(Final(run), p, tier, Scanning(Job(p, tier)))
    ensures IsRun(c, 1, longer) && run <= longer && |longer| == |run| + 3
    ensures Enabled(c, Final(run), Discover(0, d, at, 0)) && Admits(c.queue, Final(run).q, false, d, at)
    ensures longer[|run|] == Apply(c, Final(run), Discover(0, d, at, 0))
    ensures Alone(Final(longer), d, at)
    ensures Final(longer).accepted == Final(run).accepted + [Job(d, at)]
    ensures Final(longer).dispatched == Final(run).dispatched
  {
    SeenIsAccepted(c, run);
    EmitStep(c, Final(run), p, tier, d, at);
    hide Apply, Enabled, IsRun, SeenMatches, Admits;
    var emitted := Then(c, 1, run, Discover(0, d, at, 0));
    var released := LetGo(c, emitted, p, tier);
    FinishStep(c, Final(released), Job(p, tier));
    longer := Then(c, 1, released, Finish(0));
    assert longer[|run|] == emitted[|run|];
  }

  lemma LetGo(c: Scan, run: seq<State>, p: Target, tier: int) returns (longer: seq<State>)
    requires IsRun(c, 1, run) && Final(run).workers == [Scanning(Job(p, tier))] && tier >= LastTier(c)
    ensures IsRun(c, 1, longer) && run <= longer && |longer| == |run| + 1
    ensures Final(longer) == Final(run).(workers := [Finishing(Job(p, tier))])
  {
    longer := Then(c, 1, run, Step.Advance(0, 0));
  }

  // The producer ends and the worker leaves.
  lemma WindUp(c: Scan, run: seq<State>) returns (longer: seq<State>)
    requires IsRun(c, 1, run) && Idle(Final(run))
    ensures IsRun(c, 1, longer) && run <= longer && Final(longer).workers == [Exited]
    ensures Final(longer).accepted == Final(run).accepted && Final(longer).dispatched == Final(run).dispatched
  {
    var s := Final(run);
    longer := Then(c, 1, run, ProducerDone);
    var done := Final(longer);
    assert Broadcasted([Runnable]) == [Runnable];
    assert done.workers == [Runnable];
    forall x: int ensures Items(done.q, x) == [] && Pending(done.q, x) == 0 {
      assert Items(s.q, x) == [] && Pending(s.q, x) == 0;
    }
    longer := Then(c, 1, longer, Pop(0, Exit));
  }

  // A run in which a check's push outside the bands is accepted; no worker of
  // any run that goes on from there ever exits (OutOfBandNeverDrains).
  lemma OutOfBandPushHappens(c: Scan, p: Target, d: Target, tier: int) returns (run: seq<State>)
    requires c.queue == PERMISSIVE && p.key != "" && d.key != "" && p.key != d.key && !InBands(tier)
    ensures IsRun(c, 1, run) && Job(d, tier) in Final(run).accepted && !AllInBands(Final(run).accepted)
  {
    run := Start(c);
    assert Unknown(Final(run), p);
    run := Feed(c, run, p);
    run := TakeUp(c, run, p, FINGERPRINT);
    run := Fetch(c, run, p, FINGERPRINT);
    SeenIsAccepted(c, run);
    EmitStep(c, Final(run), p, FINGERPRINT, d, tier);
    hide Apply, Enabled, IsRun, SeenMatches;
    run := Then(c, 1, run, Discover(0, d, tier, 0));
    var accepted := Final(run).accepted;
    assert accepted[|accepted| - 1] == Job(d, tier);
  }
}
