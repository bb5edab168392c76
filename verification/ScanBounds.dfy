/** A scan under a host budget ends: how many of its steps can change anything. */
module ScanBounds {
  import opened Sums
  import opened Pigeonhole
  import opened Worklists
  import opened ScanProtocol
  import opened ScanInvariant
  import opened ScanTheorems

  // What a worker may still do on its own, where waking n workers costs n.
  function Work(n: nat): Worker -> int {
    (w: Worker) =>
      match w
      case Sleeping => 0
      case Exited => 0
      case Runnable => 1
      case Notified => 1
      case Finishing(_) => n + 2
      case Scanning(_) => n + 3
      case Fetching(_) => n + 4
  }

  function Times(count: int, each: int): int { count * each }

  // What a run can still do: pushes that may yet be accepted, accepted work not
  // dispatched yet, what the workers are at, and the producer's end.
  ghost function Rank(s: State, cap: nat): int {
    var n := |s.workers|;
    Times(cap - |s.accepted|, n + 6) + Times(|s.accepted| - |s.dispatched|, n + 4) + Sum(s.workers, Work(n))
      + if s.q.sourceDone then 0 else n + 1
  }

  predicate IsPush(step: Step) { step.ProducerPush? || step.Discover? }

  ghost predicate Refused(c: Scan, s: State, step: Step) {
    || (step.ProducerPush? && !Admits(c.queue, s.q, false, step.p, FINGERPRINT))
    || (step.Discover? && !Admits(c.queue, s.q, false, step.d, step.tier))
  }

  // ---------- waking workers ----------

  lemma SignalWork(ws: seq<Worker>, wakee: nat, n: nat)
    ensures Sum(ws, Work(n)) <= Sum(Signalled(ws, wakee), Work(n)) <= Sum(ws, Work(n)) + 1
  {
    if wakee < |ws| { SumUpdate(ws, wakee, Notified, Work(n)); }
  }

  lemma {:induction false} BroadcastWork(ws: seq<Worker>, n: nat)
    ensures Sum(Broadcasted(ws), Work(n)) <= Sum(ws, Work(n)) + |ws|
  {
    if ws != [] {
      assert Broadcasted(ws)[1..] == Broadcasted(ws[1..]);
      BroadcastWork(ws[1..], n);
    }
  }

  lemma OneLess(n: int, w: int)
    ensures Times(n - 1, w) == Times(n, w) - w && Times(n + 1, w) == Times(n, w) + w
  {
  }

  // ---------- every step but a refused push gets nearer the end ----------

  lemma PushEffect(c: Scan, s: State, t: Target, tier: int, wakee: nat)
    requires Admits(c.queue, s.q, false, t, tier)
    ensures var s' := AfterPush(c, s, t, tier, wakee);
      && s'.workers == Signalled(s.workers, wakee) && |s'.workers| == |s.workers|
      && |s'.accepted| == |s.accepted| + 1 && s'.dispatched == s.dispatched && s'.q.sourceDone == s.q.sourceDone
  {
    hide Admits, SeenAnyTier;
  }

  lemma AcceptDropsRank(c: Scan, s: State, t: Target, tier: int, wakee: nat, cap: nat)
    requires Admits(c.queue, s.q, false, t, tier)
    ensures Rank(AfterPush(c, s, t, tier, wakee), cap) < Rank(s, cap)
  {
    hide AfterPush, Admits, Signalled, Work, Times;
    var n := |s.workers|;
    PushEffect(c, s, t, tier, wakee);
    SignalWork(s.workers, wakee, n);
    OneLess(cap - |s.accepted|, n + 6);
    OneLess(|s.accepted| - |s.dispatched|, n + 4);
  }

  lemma PopDropsRank(c: Scan, s: State, w: nat, a: Attempt, cap: nat)
    requires Enabled(c, s, Pop(w, a))
    ensures Rank(Apply(c, s, Pop(w, a)), cap) < Rank(s, cap)
  {
    hide PopMeets, Times;
    var n := |s.workers|;
    var next := match a case Took(t, tier) => Fetching(Job(t, tier)) case Exit => Exited case Blocked => Sleeping;
    SumUpdate(s.workers, w, next, Work(n));
    OneLess(|s.accepted| - |s.dispatched|, n + 4);
  }

  lemma FinishDropsRank(c: Scan, s: State, w: nat, cap: nat)
    requires Enabled(c, s, Step.Finish(w))
    ensures Rank(Apply(c, s, Step.Finish(w)), cap) < Rank(s, cap)
  {
    var n := |s.workers|;
    SumUpdate(s.workers, w, Runnable, Work(n));
    BroadcastWork(s.workers[w := Runnable], n);
  }

  lemma AdvanceDropsRank(c: Scan, s: State, w: nat, wakee: nat, cap: nat)
    requires Enabled(c, s, Step.Advance(w, wakee))
    ensures Rank(Apply(c, s, Step.Advance(w, wakee)), cap) < Rank(s, cap)
  {
    var n, job := |s.workers|, s.workers[w].job;
    var s1 := s.(workers := s.workers[w := Finishing(job)]);
    SumUpdate(s.workers, w, Finishing(job), Work(n));
    assert Rank(s1, cap) < Rank(s, cap);
    hide Admits, Rank;
    if job.tier < LastTier(c) && Admits(c.queue, s1.q, false, job.t, job.tier + 1) {
      AcceptDropsRank(c, s1, job.t, job.tier + 1, wakee, cap);
    }
  }

  lemma StepDropsRank(c: Scan, s: State, step: Step, cap: nat)
    requires Enabled(c, s, step)
    ensures Refused(c, s, step) ==> Apply(c, s, step) == s
    ensures !Refused(c, s, step) ==> Rank(Apply(c, s, step), cap) < Rank(s, cap)
  {
    hide Admits, PopMeets, WakesSomeone, Drained, Times;
    match step
    case ProducerPush(t, wakee) =>
      hide Rank;
      if !Refused(c, s, step) { AcceptDropsRank(c, s, t, FINGERPRINT, wakee, cap); }
    case Discover(_, t, tier, wakee) =>
      hide Rank;
      if !Refused(c, s, step) { AcceptDropsRank(c, s, t, tier, wakee, cap); }
    case ProducerDone => BroadcastWork(s.workers, |s.workers|);
    case Pop(w, a) => PopDropsRank(c, s, w, a, cap);
    case Materialize(w, ok) => SumUpdate(s.workers, w, Apply(c, s, step).workers[w], Work(|s.workers|));
    case Advance(w, wakee) => AdvanceDropsRank(c, s, w, wakee, cap);
    case Finish(w) => FinishDropsRank(c, s, w, cap);
  }

  // The steps that change nothing are the refused pushes of producer and checks.
  lemma OnlyRefusedPushesStutter(c: Scan, s: State, step: Step)
    requires Enabled(c, s, step)
    ensures Apply(c, s, step) == s <==> Refused(c, s, step)
  {
    StepDropsRank(c, s, step, 0);
  }

  // ---------- whole runs ----------

  // How many steps of the run change the state.
  ghost function Changes(run: seq<State>): nat {
    if |run| <= 1 then 0
    else Changes(run[..|run| - 1]) + if run[|run| - 1] == run[|run| - 2] then 0 else 1
  }

  lemma RankNonNegative(c: Scan, s: State, cap: nat)
    requires Inv(c, s) && |s.accepted| <= cap
    ensures Rank(s, cap) >= 0
  {
    hide Ledger, Holding, Counted, Progressed, Wakeful, HostsCounted, AllInBands;
    SlotsCount(s.accepted);
    SlotsCount(s.dispatched);
    forall p | p in Slots(s.dispatched) ensures p in Slots(s.accepted) {
      var j :| j in s.dispatched && p == (j.t.key, j.tier);
      DispatchedInBands(c, s, j);
    }
    SubsetCount(Slots(s.dispatched), Slots(s.accepted));
    SumDominates(s.workers, Work(|s.workers|));
    Products(cap - |s.accepted|, |s.workers| + 6);
    Products(|s.accepted| - |s.dispatched|, |s.workers| + 4);
  }

  lemma Products(m: nat, n: nat)
    ensures Times(m, n) >= 0
  {
  }

  lemma {:induction false} InitialWork(n: nat, most: nat)
    ensures Sum(seq(n, i => Runnable), Work(most)) == n
  {
    if n > 0 {
      assert seq(n, i => Runnable)[1..] == seq(n - 1, i => Runnable);
      InitialWork(n - 1, most);
    }
  }

  lemma ChangesNext(run: seq<State>, k: nat)
    requires 0 < k < |run|
    ensures Changes(run[..k + 1]) == Changes(run[..k]) + if run[k] == run[k - 1] then 0 else 1
  {
    assert run[..k + 1][..k] == run[..k];
  }

  lemma {:induction false} ChangesSpendRank(c: Scan, workers: nat, run: seq<State>, k: nat, cap: nat)
    requires IsRun(c, workers, run) && k < |run|
    ensures Changes(run[..k + 1]) + Rank(run[k], cap) <= Rank(run[0], cap)
  {
    hide Rank, Enabled, Apply, Refused;
    if k > 0 {
      hide Changes;
      ChangesSpendRank(c, workers, run, k - 1, cap);
      ChangesNext(run, k);
      assert Next(c, run[k - 1], run[k - 1 + 1]);
      hide IsRun;
      var step :| Enabled(c, run[k - 1], step) && run[k - 1 + 1] == Apply(c, run[k - 1], step);
      StepDropsRank(c, run[k - 1], step, cap);
    }
  }

  // Over finitely many budgeted hosts, however long the run and whatever the
  // checks emit, all but this many of its steps are refused pushes.
  lemma ScanIsBounded(c: Scan, workers: nat, run: seq<State>, hosts: set<string>)
    requires IsRun(c, workers, run) && c.queue.budget > 0
    requires forall j | j in run[|run| - 1].accepted :: InBands(j.tier) && j.t.host in hosts && j.t.host != ""
    ensures Changes(run) <= 5 * c.queue.budget * |hosts| * (workers + 6) + 2 * workers + 1
  {
    var last := |run| - 1;
    DiscoveryIsBounded(c, workers, run, last, hosts);
    var cap := 5 * c.queue.budget * |hosts|;
    RunInv(c, workers, run, last);
    RankNonNegative(c, run[last], cap);
    ChangesSpendRank(c, workers, run, last, cap);
    assert run[..last + 1] == run;
    InitialWork(workers, workers);
    InitialRank(workers, cap);
  }

  lemma InitialRank(workers: nat, cap: nat)
    ensures Rank(Init(workers), cap) == cap * (workers + 6) + 2 * workers + 1
  {
    InitialWork(workers, workers);
  }
}
