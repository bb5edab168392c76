/** What the worker protocol guarantees over every uncancelled run. */
module ScanTheorems {
  import opened Sums
  import opened Pigeonhole
  import opened Worklists
  import opened ScanProtocol
  import opened ScanInvariant

  // ---------- runs ----------

  ghost predicate Extends(s: State, s': State) {
    && s.accepted <= s'.accepted && s.dispatched <= s'.dispatched
    && s.finished <= s'.finished && s.failed <= s'.failed && |s.workers| == |s'.workers|
    && (s.q.sourceDone ==> s'.q.sourceDone)
    && forall i | 0 <= i < |s.workers| && s.workers[i].Exited? :: s'.workers[i].Exited?
  }

  lemma StepExtends(c: Scan, s: State, step: Step)
    requires Enabled(c, s, step)
    ensures Extends(s, Apply(c, s, step))
  {
  }

  lemma {:induction false} RunExtends(c: Scan, workers: nat, run: seq<State>, i: nat, k: nat)
    requires IsRun(c, workers, run) && i <= k < |run|
    ensures Extends(run[i], run[k])
    decreases k - i
  {
    if i < k {
      RunExtends(c, workers, run, i, k - 1);
      assert Next(c, run[k - 1], run[k - 1 + 1]);
      var step :| Enabled(c, run[k - 1], step) && run[k] == Apply(c, run[k - 1], step);
      StepExtends(c, run[k - 1], step);
    }
  }

  lemma {:induction false} RunWorkers(c: Scan, workers: nat, run: seq<State>, i: nat)
    requires IsRun(c, workers, run) && i < |run|
    ensures |run[i].workers| == workers
  {
    RunExtends(c, workers, run, 0, i);
  }

  // ---------- no lost wakeup, no deadlock ----------

  // Every pass of Pop has an outcome, so a worker that is awake can always move.
  lemma PopHasOutcome(q: Queue)
    requires !q.closed
    ensures exists a: Attempt :: PopMeets(q, false, a, Popped(q, a))
  {
    if tier :| Eligible(q, tier) {
      assert PopMeets(q, false, Took(Items(q, tier)[0], tier), Popped(q, Took(Items(q, tier)[0], tier)));
    } else if Drained(q) {
      assert PopMeets(q, false, Exit, Popped(q, Exit));
    } else {
      assert PopMeets(q, false, Blocked, Popped(q, Blocked));
    }
  }

  lemma PopperCanMove(c: Scan, s: State, w: nat)
    requires !s.q.closed && w < |s.workers| && (s.workers[w].Runnable? || s.workers[w].Notified?)
    ensures exists step :: Enabled(c, s, step) && Apply(c, s, step).workers != s.workers
  {
    PopHasOutcome(s.q);
    var a :| PopMeets(s.q, false, a, Popped(s.q, a));
    assert Enabled(c, s, Pop(w, a));
    assert Apply(c, s, Pop(w, a)).workers[w] != s.workers[w];
  }

  lemma BusyCanMove(c: Scan, s: State, w: nat)
    requires w < |s.workers| && Busy(s.workers[w])
    ensures exists step :: Enabled(c, s, step) && Apply(c, s, step).workers != s.workers
  {
    var wakee: nat := if i: nat :| i < |s.workers| && s.workers[i].Sleeping? then i else 0;
    var step := match s.workers[w]
      case Scanning(_) => Step.Advance(w, wakee)
      case Finishing(_) => Finish(w)
      case _ => Materialize(w, true);
    assert Enabled(c, s, step);
    assert Apply(c, s, step).workers[w] != s.workers[w];
  }

  // In every reachable state: some worker can move; or all have exited; or all
  // bands are empty and, unless something was pushed outside the bands, the
  // workers only wait for a producer that is still running.
  lemma NoDeadlock(c: Scan, workers: nat, run: seq<State>, i: nat)
    requires IsRun(c, workers, run) && i < |run| && workers > 0
    ensures var s := run[i];
            || (exists step :: Enabled(c, s, step) && Apply(c, s, step).workers != s.workers)
            || (forall w | 0 <= w < workers :: w < |s.workers| && s.workers[w].Exited?)
            || ((forall tier | InBands(tier) :: Items(s.q, tier) == [])
                && (AllInBands(s.accepted) ==> !s.q.sourceDone && forall tier: int :: Pending(s.q, tier) == 0))
  {
    RunInv(c, workers, run, i);
    RunWorkers(c, workers, run, i);
    var s := run[i];
    if w: nat :| w < |s.workers| && Awake(s.workers[w]) {
      if Busy(s.workers[w]) { BusyCanMove(c, s, w); } else { PopperCanMove(c, s, w); }
    } else {
      NothingInFlight(s);
      if AllInBands(s.accepted) {
        forall tier: int ensures Pending(s.q, tier) == 0 { OnlyBandsQueued(s, tier); }
        if s.q.sourceDone { assert Drained(s.q); }
      }
    }
  }

  lemma OnlyBandsQueued(s: State, tier: int)
    requires Ledger(s)
    ensures !InBands(tier) && AllInBands(s.accepted) ==> Items(s.q, tier) == []
  {
    assert AtTier(s.accepted, tier) == AtTier(s.dispatched, tier) + Items(s.q, tier);
    AtTierMembers(s.accepted, tier);
    if !InBands(tier) && Items(s.q, tier) != [] {
      assert Items(s.q, tier)[0] == AtTier(s.accepted, tier)[|AtTier(s.dispatched, tier)|];
      assert Job(Items(s.q, tier)[0], tier) in s.accepted;
    }
  }

  // An eligible item never waits on a sleeper nobody will wake, and once the
  // queue is drained nobody sleeps.
  lemma NoLostWakeup(c: Scan, workers: nat, run: seq<State>, i: nat)
    requires IsRun(c, workers, run) && i < |run|
    ensures var s := run[i];
            && ((exists tier :: Eligible(s.q, tier)) && (exists w | 0 <= w < |s.workers| :: s.workers[w].Sleeping?)
                ==> exists w | 0 <= w < |s.workers| :: Awake(s.workers[w]))
            && (Drained(s.q) ==> forall w | 0 <= w < |s.workers| :: !s.workers[w].Sleeping?)
            && ((forall w | 0 <= w < |s.workers| :: !Busy(s.workers[w]))
                && (exists tier | InBands(tier) :: Items(s.q, tier) != [])
                ==> exists tier :: Eligible(s.q, tier))
  {
    RunInv(c, workers, run, i);
    var s := run[i];
    if forall w | 0 <= w < |s.workers| :: !Busy(s.workers[w]) {
      NothingInFlight(s);
      NoneEligibleNoneQueued(s.q);
    }
  }

  // ---------- the barrier ----------

  // Whenever Pop hands out a tier, everything accepted so far at any lower tier
  // has been dispatched and is Done.
  lemma BarrierHolds(c: Scan, workers: nat, run: seq<State>, i: nat, w: nat, t: Target, tier: int)
    requires IsRun(c, workers, run) && i < |run| && Enabled(c, run[i], Pop(w, Took(t, tier)))
    ensures forall j | j in run[i].accepted && FINGERPRINT <= j.tier < tier :: j in run[i].finished
    ensures forall v | 0 <= v < |run[i].workers| && Busy(run[i].workers[v]) :: run[i].workers[v].job.tier >= tier
  {
    RunInv(c, workers, run, i);
    var s := run[i];
    forall lower | FINGERPRINT <= lower < tier
      ensures Items(s.q, lower) == [] && Sum(s.workers, FlightAt(lower)) == 0
    {
      FlightCounts(s.workers, lower);
      assert Pending(s.q, lower) == |Items(s.q, lower)| + Sum(s.workers, FlightAt(lower));
    }
    forall v | 0 <= v < |s.workers| && Busy(s.workers[v]) ensures s.workers[v].job.tier >= tier {
      FlightCounts(s.workers, s.workers[v].job.tier);
      DispatchedInBands(c, s, s.workers[v].job);
    }
    forall j | j in s.accepted && FINGERPRINT <= j.tier < tier ensures j in s.finished {
      NotQueuedMeansDispatched(s, j);
    }
  }

  lemma DispatchedInBands(c: Scan, s: State, j: Job)
    requires Screened(c, s) && j in s.dispatched
    ensures InBands(j.tier) && j in s.accepted
  {
  }

  lemma NotQueuedMeansDispatched(s: State, j: Job)
    requires Ledger(s) && j in s.accepted && Items(s.q, j.tier) == []
    ensures j in s.dispatched
  {
    assert AtTier(s.accepted, j.tier) == AtTier(s.dispatched, j.tier) + Items(s.q, j.tier);
    AtTierMembers(s.accepted, j.tier);
    AtTierMembers(s.dispatched, j.tier);
    assert j == Job(j.t, j.tier);
  }

  // Within a tier, dispatch order is push order; and no slot is dispatched twice.
  lemma FifoWithinTier(c: Scan, workers: nat, run: seq<State>, i: nat, tier: int)
    requires IsRun(c, workers, run) && i < |run|
    ensures AtTier(run[i].dispatched, tier) <= AtTier(run[i].accepted, tier)
    ensures UniqueSlots(run[i].dispatched)
  {
    RunInv(c, workers, run, i);
    assert AtTier(run[i].accepted, tier) == AtTier(run[i].dispatched, tier) + Items(run[i].q, tier);
  }

  // ---------- nothing is lost ----------

  // Once any worker has exited, everything ever accepted was dispatched (once),
  // finished, and advanced to the next tier unless its page failed to
  // materialize or it was at the last tier.
  lemma NothingLost(c: Scan, workers: nat, run: seq<State>, i: nat)
    requires IsRun(c, workers, run) && i < |run|
    requires exists w | 0 <= w < |run[i].workers| :: run[i].workers[w].Exited?
    ensures forall j | j in run[i].accepted :: j in run[i].finished && Advanced(c, run[i], j)
    ensures forall j | j in run[i].accepted :: exists k | 0 <= k < |run[i].dispatched| :: run[i].dispatched[k] == j
    ensures UniqueSlots(run[i].dispatched) && forall w | 0 <= w < |run[i].workers| :: !Busy(run[i].workers[w])
  {
    RunInv(c, workers, run, i);
    var s := run[i];
    forall w | 0 <= w < |s.workers| ensures !Busy(s.workers[w]) {
      if Busy(s.workers[w]) { BusyMeansUndrained(s); }
    }
    forall j | j in s.accepted ensures j in s.finished {
      FlightCounts(s.workers, j.tier);
      assert Pending(s.q, j.tier) == |Items(s.q, j.tier)| + Sum(s.workers, FlightAt(j.tier));
      NotQueuedMeansDispatched(s, j);
    }
    forall j | j in s.accepted ensures exists k | 0 <= k < |s.dispatched| :: s.dispatched[k] == j {
      assert j in s.dispatched;
    }
  }

  // The drained state is stable: after the first exit nothing more is accepted.
  lemma {:induction false} DrainedIsStable(c: Scan, workers: nat, run: seq<State>, i: nat, k: nat)
    requires IsRun(c, workers, run) && i <= k < |run|
    requires exists w | 0 <= w < |run[i].workers| :: run[i].workers[w].Exited?
    ensures run[k].accepted == run[i].accepted && run[k].dispatched == run[i].dispatched
    decreases k - i
  {
    hide Ledger, SeenMatches, Screened, Holding, Progressed, HostsCounted, AllInBands;
    if i < k {
      DrainedIsStable(c, workers, run, i, k - 1);
      RunExtends(c, workers, run, i, k - 1);
      var w :| 0 <= w < |run[i].workers| && run[i].workers[w].Exited?;
      var s := run[k - 1];
      assert s.workers[w].Exited?;
      RunInv(c, workers, run, k - 1);
      DrainedMeansIdle(s);
      assert Next(c, s, run[k - 1 + 1]);
      var step :| Enabled(c, s, step) && run[k] == Apply(c, s, step);
      IdleAcceptsNothing(c, s, step);
    }
  }

  lemma DrainedMeansIdle(s: State)
    requires Counted(s) && Drained(s.q)
    ensures forall w | 0 <= w < |s.workers| :: !Busy(s.workers[w])
    ensures forall tier :: !Eligible(s.q, tier)
  {
    InvBalances(s);
    forall w | 0 <= w < |s.workers| ensures !Busy(s.workers[w]) {
      if Busy(s.workers[w]) { BusyMeansUndrained(s); }
    }
    forall tier ensures !Eligible(s.q, tier) {
      assert |Items(s.q, tier)| <= Pending(s.q, tier);
    }
  }

  lemma IdleAcceptsNothing(c: Scan, s: State, step: Step)
    requires Enabled(c, s, step) && s.q.sourceDone
    requires (forall w | 0 <= w < |s.workers| :: !Busy(s.workers[w])) && forall tier :: !Eligible(s.q, tier)
    ensures Apply(c, s, step).accepted == s.accepted && Apply(c, s, step).dispatched == s.dispatched
  {
  }

  // A failure of the key somewhere on the way from one tier up to another.
  ghost predicate FailedBetween(s: State, key: string, from: int, to: int) {
    exists j :: j in s.failed && j.t.key == key && from <= j.tier < to
  }

  lemma NextTierReached(c: Scan, s: State, key: string, from: int, to: int)
    requires from < to <= LastTier(c) && forall j | j in s.accepted :: Advanced(c, s, j)
    requires HasPair(s.accepted, key, to - 1) || FailedBetween(s, key, from, to - 1)
    ensures HasPair(s.accepted, key, to) || FailedBetween(s, key, from, to)
  {
    if k :| 0 <= k < |s.accepted| && s.accepted[k].t.key == key && s.accepted[k].tier == to - 1 {
      var j := s.accepted[k];
      assert Advanced(c, s, j);
    }
  }

  // At quiescence every target has walked every band from where it entered.
  lemma {:induction false} WalksEveryTier(
    c: Scan, workers: nat, run: seq<State>, i: nat, key: string, from: int, up: nat)
    requires IsRun(c, workers, run) && i < |run|
    requires exists w | 0 <= w < |run[i].workers| :: run[i].workers[w].Exited?
    requires HasPair(run[i].accepted, key, from) && from + up <= LastTier(c)
    ensures HasPair(run[i].accepted, key, from + up) || FailedBetween(run[i], key, from, from + up)
    decreases up
  {
    if up > 0 {
      WalksEveryTier(c, workers, run, i, key, from, up - 1);
      NothingLost(c, workers, run, i);
      NextTierReached(c, run[i], key, from, from + up);
    }
  }

  // ---------- tiers outside the five bands ----------

  // Push accepts any tier, but Pop only ever looks at the five bands: one
  // accepted push outside them and no worker exits, in that run, ever.
  lemma OutOfBandNeverDrains(c: Scan, workers: nat, run: seq<State>, i: nat, k: nat)
    requires IsRun(c, workers, run) && i <= k < |run| && !AllInBands(run[i].accepted)
    ensures forall w | 0 <= w < |run[k].workers| :: !run[k].workers[w].Exited?
  {
    var x :| 0 <= x < |run[i].accepted| && !InBands(run[i].accepted[x].tier);
    var j := run[i].accepted[x];
    RunExtends(c, workers, run, i, k);
    assert run[k].accepted[x] == j;
    RunInv(c, workers, run, k);
    if w :| 0 <= w < |run[k].workers| && run[k].workers[w].Exited? {
      NothingLost(c, workers, run, k);
      assert j in run[k].accepted;
      DispatchedInBands(c, run[k], j);
    }
  }

  // ---------- discovery cannot run forever ----------

  function Slots(log: seq<Job>): set<(string, int)> { set j | j in log :: (j.t.key, j.tier) }

  lemma {:induction false} SlotsCount(log: seq<Job>)
    requires UniqueSlots(log)
    ensures |Slots(log)| == |log|
  {
    if log == [] {
      assert Slots(log) == {};
    } else {
      var front, j := log[..|log| - 1], log[|log| - 1];
      SlotsCount(front);
      assert log == front + [j];
      SlotsSnoc(front, j);
      forall x | x in front ensures (x.t.key, x.tier) != (j.t.key, j.tier) {
        var i :| 0 <= i < |front| && front[i] == x;
        assert log[i] == x && !SameSlot(log[i], log[|log| - 1]);
      }
    }
  }

  lemma SlotsSnoc(log: seq<Job>, j: Job)
    ensures Slots(log + [j]) == Slots(log) + {(j.t.key, j.tier)}
  {
    assert forall x :: x in log + [j] <==> x in log || x == j;
  }

  // With a host budget, whatever the checks emit, a run over finitely many
  // hosts accepts at most five pushes per budgeted target.
  lemma DiscoveryIsBounded(c: Scan, workers: nat, run: seq<State>, i: nat, hosts: set<string>)
    requires IsRun(c, workers, run) && i < |run| && c.queue.budget > 0
    requires forall j | j in run[i].accepted :: InBands(j.tier) && j.t.host in hosts && j.t.host != ""
    ensures |run[i].accepted| <= 5 * c.queue.budget * |hosts|
  {
    RunInv(c, workers, run, i);
    var s := run[i];
    assert HostsCounted(c, s) by {
      forall k | 0 <= k < |s.accepted| ensures InBands(s.accepted[k].tier) { assert s.accepted[k] in s.accepted; }
    }
    var keys := s.firstHost.Keys;
    forall k | k in s.firstHost ensures s.firstHost[k] in hosts && s.firstHost[k] != "" {
      var x :| 0 <= x < |s.accepted| && s.accepted[x].t.key == k && s.accepted[x].t.host == s.firstHost[k];
      assert s.accepted[x] in s.accepted;
    }
    BudgetedKeys(c, s, hosts);
    forall j | j in s.accepted ensures j.t.key in keys {
      var x :| 0 <= x < |s.accepted| && s.accepted[x] == j;
      assert s.accepted[x].t.key == j.t.key;
    }
    FiveSlotsPerKey(s.accepted, keys);
    FiveTimes(|keys|, c.queue.budget, |hosts|);
  }

  lemma FiveSlotsPerKey(log: seq<Job>, keys: set<string>)
    requires UniqueSlots(log) && forall j | j in log :: InBands(j.tier) && j.t.key in keys
    ensures |log| <= 5 * |keys|
  {
    SlotsCount(log);
    var rows := Row(keys, 1) + Row(keys, 2) + Row(keys, 3) + Row(keys, 4) + Row(keys, 5);
    forall p | p in Slots(log) ensures p in rows {
      assert p.0 in keys && InBands(p.1);
      assert p in Row(keys, p.1);
    }
    SubsetCount(Slots(log), rows);
    RowCount(keys, 1); RowCount(keys, 2); RowCount(keys, 3); RowCount(keys, 4); RowCount(keys, 5);
    assert |rows| <= 5 * |keys|;
  }

  lemma FiveTimes(keys: nat, budget: nat, hosts: nat)
    requires keys <= budget * hosts
    ensures 5 * keys <= 5 * budget * hosts
  {
  }

  lemma BudgetedKeys(c: Scan, s: State, hosts: set<string>)
    requires HostsCounted(c, s) && c.queue.budget > 0
    requires forall k | k in s.firstHost :: s.firstHost[k] in hosts && s.firstHost[k] != ""
    ensures |s.firstHost.Keys| <= c.queue.budget * |hosts|
  {
    forall h | h in hosts ensures |KeysOn(s.firstHost, h)| <= c.queue.budget {
      if h == "" {
        assert KeysOn(s.firstHost, h) == {};
      } else {
        assert HostCount(s.q, h) == |KeysOn(s.firstHost, h)|;
      }
    }
    KeysBound(s.firstHost, hosts, c.queue.budget);
  }

  // The budget itself: distinct keys first accepted on a host never exceed it.
  lemma HostBudgetHolds(c: Scan, workers: nat, run: seq<State>, i: nat, host: string)
    requires IsRun(c, workers, run) && i < |run| && c.queue.budget > 0 && host != ""
    requires AllInBands(run[i].accepted)
    ensures |KeysOn(run[i].firstHost, host)| == HostCount(run[i].q, host) <= c.queue.budget
    ensures forall j | j in run[i].accepted :: j.t.key in run[i].firstHost
  {
    RunInv(c, workers, run, i);
    var s := run[i];
    forall j | j in s.accepted ensures j.t.key in s.firstHost {
      var x :| 0 <= x < |s.accepted| && s.accepted[x] == j;
      assert s.accepted[x].t.key == j.t.key;
    }
  }
}
