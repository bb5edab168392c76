/** Every step of the worker protocol keeps the invariant. */
module ScanInvariant {
  import opened Sums
  import opened Pigeonhole
  import opened Worklists
  import opened ScanProtocol

  // ---------- facts about the logs ----------

  lemma AtTierSnoc(log: seq<Job>, j: Job, tier: int)
    ensures AtTier(log + [j], tier) == AtTier(log, tier) + if j.tier == tier then [j.t] else []
  {
    assert (log + [j])[..|log|] == log;
  }

  lemma {:induction false} AtTierMembers(log: seq<Job>, tier: int)
    ensures forall t: Target :: t in AtTier(log, tier) <==> Job(t, tier) in log
  {
    if log != [] {
      var front, j := log[..|log| - 1], log[|log| - 1];
      assert log == front + [j];
      AtTierMembers(front, tier);
      AtTierSnoc(front, j, tier);
    }
  }

  // Distinct slots give distinct keys within a tier.
  lemma {:induction false} AtTierDistinct(log: seq<Job>, tier: int)
    requires UniqueSlots(log)
    ensures forall i, j | 0 <= i < j < |AtTier(log, tier)| :: AtTier(log, tier)[i].key != AtTier(log, tier)[j].key
  {
    if log != [] {
      var front, last := log[..|log| - 1], log[|log| - 1];
      assert log == front + [last];
      AtTierDistinct(front, tier);
      AtTierSnoc(front, last, tier);
      AtTierMembers(front, tier);
      if last.tier == tier {
        forall i | 0 <= i < |AtTier(front, tier)| ensures AtTier(front, tier)[i].key != last.t.key {
          var t := AtTier(front, tier)[i];
          assert t in AtTier(front, tier);
          var k :| 0 <= k < |front| && front[k] == Job(t, tier);
          assert !SameSlot(log[k], log[|front|]);
        }
      }
    }
  }

  lemma HasPairGrows(log: seq<Job>, j: Job, key: string, tier: int)
    ensures HasPair(log + [j], key, tier) <==> HasPair(log, key, tier) || (j.t.key == key && j.tier == tier)
  {
    var more := log + [j];
    if HasPair(log, key, tier) {
      var i :| 0 <= i < |log| && log[i].t.key == key && log[i].tier == tier;
      assert more[i].t.key == key && more[i].tier == tier;
    }
    assert more[|log|] == j;
  }

  // ---------- workers that keep their jobs ----------

  ghost predicate KeepJobs(ws: seq<Worker>, ws': seq<Worker>) {
    && |ws| == |ws'|
    && forall i | 0 <= i < |ws| :: Busy(ws[i]) == Busy(ws'[i]) && (Busy(ws[i]) ==> ws[i].job == ws'[i].job)
  }

  lemma KeepJobsHolding(s: State, s': State)
    requires Holding(s) && KeepJobs(s.workers, s'.workers)
    requires s'.dispatched == s.dispatched && s'.finished == s.finished
    ensures Holding(s')
  {
    forall j | j in s'.dispatched ensures j in s'.finished || Holds(s'.workers, j) {
      if j !in s.finished {
        var i :| 0 <= i < |s.workers| && Busy(s.workers[i]) && s.workers[i].job == j;
        assert Busy(s'.workers[i]) && s'.workers[i].job == j;
      }
    }
  }

  lemma KeepJobsFlight(ws: seq<Worker>, ws': seq<Worker>)
    requires KeepJobs(ws, ws')
    ensures forall tier: int :: Sum(ws, FlightAt(tier)) == Sum(ws', FlightAt(tier))
  {
    forall tier: int ensures Sum(ws, FlightAt(tier)) == Sum(ws', FlightAt(tier)) {
      SumAgree(ws, ws', FlightAt(tier));
    }
  }

  // Nothing in flight at a tier whose flight count is zero, and conversely.
  lemma FlightCounts(ws: seq<Worker>, tier: int)
    ensures 0 <= Sum(ws, FlightAt(tier))
    ensures Sum(ws, FlightAt(tier)) == 0 <==> forall i | 0 <= i < |ws| && Busy(ws[i]) :: ws[i].job.tier != tier
  {
    SumDominates(ws, FlightAt(tier));
    if forall i | 0 <= i < |ws| && Busy(ws[i]) :: ws[i].job.tier != tier {
      SumOfZeros(ws, FlightAt(tier));
    } else {
      var i :| 0 <= i < |ws| && Busy(ws[i]) && ws[i].job.tier == tier;
      assert FlightAt(tier)(ws[i]) == 1;
    }
  }

  lemma InvBalances(s: State)
    requires Counted(s)
    ensures Balanced(s.q)
    ensures forall tier: int :: 0 <= Pending(s.q, tier)
  {
    forall tier: int ensures |Items(s.q, tier)| <= Pending(s.q, tier) {
      FlightCounts(s.workers, tier);
    }
  }

  // ---------- an accepted push ----------

  lemma PushLedger(c: Scan, s: State, t: Target, tier: int, wakee: nat)
    requires Ledger(s) && Admits(c.queue, s.q, false, t, tier)
    ensures Ledger(AfterPush(c, s, t, tier, wakee))
  {
    var s' := AfterPush(c, s, t, tier, wakee);
    forall x: int ensures AtTier(s'.accepted, x) == AtTier(s'.dispatched, x) + Items(s'.q, x) {
      AtTierSnoc(s.accepted, Job(t, tier), x);
      assert AtTier(s.accepted, x) == AtTier(s.dispatched, x) + Items(s.q, x);
    }
  }

  lemma PushSeen(c: Scan, s: State, t: Target, tier: int, wakee: nat)
    requires SeenMatches(s) && Admits(c.queue, s.q, false, t, tier)
    ensures SeenMatches(AfterPush(c, s, t, tier, wakee))
  {
    var s' := AfterPush(c, s, t, tier, wakee);
    var job := Job(t, tier);
    forall key: string, x: int ensures SeenKey(key, x) in s'.q.seen <==> HasPair(s'.accepted, key, x) {
      HasPairGrows(s.accepted, job, key, x);
      assert SeenKey(key, x) in s.q.seen <==> HasPair(s.accepted, key, x);
      if SeenKey(key, x) == SeenKey(t.key, tier) { SeenKeyInjective(key, x, t.key, tier); }
    }
    assert !HasPair(s.accepted, t.key, tier);
    forall i, j | 0 <= i < j < |s'.accepted| ensures !SameSlot(s'.accepted[i], s'.accepted[j]) {
      if j == |s.accepted| { assert s'.accepted[i] == s.accepted[i]; }
    }
  }

  lemma PushCounted(c: Scan, s: State, t: Target, tier: int, wakee: nat)
    requires Counted(s) && Admits(c.queue, s.q, false, t, tier)
    ensures Counted(AfterPush(c, s, t, tier, wakee))
  {
    var s' := AfterPush(c, s, t, tier, wakee);
    KeepJobsFlight(s.workers, s'.workers);
    forall x: int ensures Pending(s'.q, x) == |Items(s'.q, x)| + Sum(s'.workers, FlightAt(x)) {
      assert Pending(s.q, x) == |Items(s.q, x)| + Sum(s.workers, FlightAt(x));
    }
  }

  lemma AdvancedGrows(c: Scan, s: State, s': State, j: Job)
    requires Advanced(c, s, j) && s.failed <= s'.failed && s.accepted <= s'.accepted
    ensures Advanced(c, s', j)
  {
    if HasPair(s.accepted, j.t.key, j.tier + 1) {
      var i :| 0 <= i < |s.accepted| && s.accepted[i].t.key == j.t.key && s.accepted[i].tier == j.tier + 1;
      assert s'.accepted[i] == s.accepted[i];
    }
  }

  lemma PushProgressed(c: Scan, s: State, t: Target, tier: int, wakee: nat)
    requires Progressed(c, s) && Admits(c.queue, s.q, false, t, tier)
    ensures Progressed(c, AfterPush(c, s, t, tier, wakee))
  {
    var s' := AfterPush(c, s, t, tier, wakee);
    forall j | j in s'.finished ensures Advanced(c, s', j) { AdvancedGrows(c, s, s', j); }
    forall i | 0 <= i < |s'.workers| && s'.workers[i].Finishing? ensures Advanced(c, s', s'.workers[i].job) {
      assert s.workers[i] == s'.workers[i];
      AdvancedGrows(c, s, s', s.workers[i].job);
    }
  }

  // A push happens while the producer runs or a worker is scanning, so the
  // queue is not drained, and afterwards somebody is awake.
  lemma PushWakeful(c: Scan, s: State, t: Target, tier: int, wakee: nat)
    requires Counted(s) && Wakeful(s) && Admits(c.queue, s.q, false, t, tier)
    requires WakesSomeone(s.workers, wakee)
    requires !s.q.sourceDone || exists i | 0 <= i < |s.workers| :: Busy(s.workers[i])
    ensures Wakeful(AfterPush(c, s, t, tier, wakee))
  {
    var s' := AfterPush(c, s, t, tier, wakee);
    if s.q.sourceDone { BusyMeansUndrained(s); }
    assert !Drained(s.q);
    PushCounted(c, s, t, tier, wakee);
    InvBalances(s');
    assert Items(s'.q, tier) != [];
    assert Pending(s'.q, tier) > 0;
    if s.workers != [] {
      if i :| 0 <= i < |s.workers| && s.workers[i].Sleeping? {
        assert Awake(s'.workers[wakee]);
      } else {
        assert Awake(s'.workers[0]);
      }
    }
  }

  lemma BusyMeansUndrained(s: State)
    requires Counted(s) && exists i | 0 <= i < |s.workers| :: Busy(s.workers[i])
    ensures !Drained(s.q)
  {
    var i :| 0 <= i < |s.workers| && Busy(s.workers[i]);
    var tier := s.workers[i].job.tier;
    FlightCounts(s.workers, tier);
    assert Pending(s.q, tier) > 0;
  }

  lemma AnyTierMeansAccepted(s: State, key: string)
    requires SeenMatches(s) && AllInBands(s.accepted)
    ensures SeenAnyTier(s.q, key) <==> exists i | 0 <= i < |s.accepted| :: s.accepted[i].t.key == key
  {
    if SeenAnyTier(s.q, key) {
      var tier :| FINGERPRINT <= tier <= DEFERRED && SeenKey(key, tier) in s.q.seen;
      assert HasPair(s.accepted, key, tier);
    }
    if i :| 0 <= i < |s.accepted| && s.accepted[i].t.key == key {
      assert HasPair(s.accepted, key, s.accepted[i].tier);
      assert SeenKey(key, s.accepted[i].tier) in s.q.seen;
    }
  }

  lemma PushFirstHosts(c: Scan, s: State, t: Target, tier: int, wakee: nat)
    requires FirstHosts(s) && Admits(c.queue, s.q, false, t, tier)
             && (t.key in s.firstHost <==> SeenAnyTier(s.q, t.key))
    ensures FirstHosts(AfterPush(c, s, t, tier, wakee))
  {
    hide SeenAnyTier, ScopeAllows, HostCount;
    var s' := AfterPush(c, s, t, tier, wakee);
    forall i | 0 <= i < |s.accepted| ensures s'.accepted[i] == s.accepted[i] {}
    assert s'.accepted[|s.accepted|] == Job(t, tier);
    forall key | key in s'.firstHost
      ensures exists i | 0 <= i < |s'.accepted| ::
              s'.accepted[i].t.key == key && s'.accepted[i].t.host == s'.firstHost[key]
    {
      if key in s.firstHost {
        var i :| 0 <= i < |s.accepted| && s.accepted[i].t.key == key && s.accepted[i].t.host == s.firstHost[key];
        assert s'.accepted[i] == s.accepted[i];
      }
    }
  }

  lemma PushHosts(c: Scan, s: State, t: Target, tier: int, wakee: nat)
    requires SeenMatches(s) && AllInBands(s.accepted) && HostsCounted(c, s)
    requires InBands(tier) && Admits(c.queue, s.q, false, t, tier)
    ensures HostsCounted(c, AfterPush(c, s, t, tier, wakee))
  {
    AnyTierMeansAccepted(s, t.key);
    hide SeenAnyTier, SeenMatches, AllInBands;
    PushFirstHosts(c, s, t, tier, wakee);
    var s' := AfterPush(c, s, t, tier, wakee);
    forall h: string | h != ""
      ensures HostCount(s'.q, h) == |KeysOn(s'.firstHost, h)|
      ensures c.queue.budget > 0 ==> HostCount(s'.q, h) <= c.queue.budget
    {
      PushHostCount(c, s, t, tier, wakee, h);
    }
  }

  lemma PushHostCount(c: Scan, s: State, t: Target, tier: int, wakee: nat, h: string)
    requires Admits(c.queue, s.q, false, t, tier) && h != "" && (t.key in s.firstHost <==> SeenAnyTier(s.q, t.key))
    requires HostCount(s.q, h) == |KeysOn(s.firstHost, h)|
             && (c.queue.budget > 0 ==> HostCount(s.q, h) <= c.queue.budget)
    ensures var s' := AfterPush(c, s, t, tier, wakee);
            && HostCount(s'.q, h) == |KeysOn(s'.firstHost, h)|
            && (c.queue.budget > 0 ==> HostCount(s'.q, h) <= c.queue.budget)
  {
    hide SeenAnyTier, KeysOn;
    if !SeenAnyTier(s.q, t.key) { KeysOnInsert(s.firstHost, t.key, t.host, h); }
  }

  lemma PushScreened(c: Scan, s: State, t: Target, tier: int, wakee: nat)
    requires Screened(c, s) && Admits(c.queue, s.q, false, t, tier)
    ensures Screened(c, AfterPush(c, s, t, tier, wakee))
  {
    hide SeenAnyTier, ScopeAllows;
  }

  lemma PushHolding(c: Scan, s: State, t: Target, tier: int, wakee: nat)
    requires Holding(s) && Admits(c.queue, s.q, false, t, tier)
    ensures Holding(AfterPush(c, s, t, tier, wakee))
  {
    hide Holding, Admits;
    KeepJobsHolding(s, AfterPush(c, s, t, tier, wakee));
  }

  // If all pushes name a band now, they did before.
  lemma PushBands(c: Scan, s: State, t: Target, tier: int, wakee: nat)
    requires Admits(c.queue, s.q, false, t, tier) && AllInBands(AfterPush(c, s, t, tier, wakee).accepted)
    ensures AllInBands(s.accepted) && InBands(tier)
  {
    var s' := AfterPush(c, s, t, tier, wakee);
    forall i | 0 <= i < |s.accepted| ensures InBands(s.accepted[i].tier) { assert s'.accepted[i] == s.accepted[i]; }
    assert s'.accepted[|s.accepted|].tier == tier;
  }

  lemma PushInv(c: Scan, s: State, t: Target, tier: int, wakee: nat)
    requires Inv(c, s) && WakesSomeone(s.workers, wakee)
    requires !s.q.sourceDone || exists i | 0 <= i < |s.workers| :: Busy(s.workers[i])
    ensures Inv(c, AfterPush(c, s, t, tier, wakee))
  {
    if Admits(c.queue, s.q, false, t, tier) {
      hide Ledger, SeenMatches, Screened, Holding, Counted, Progressed, Wakeful, HostsCounted, AllInBands, Admits,
          AfterPush;
      PushLedger(c, s, t, tier, wakee);
      PushSeen(c, s, t, tier, wakee);
      PushScreened(c, s, t, tier, wakee);
      PushHolding(c, s, t, tier, wakee);
      PushCounted(c, s, t, tier, wakee);
      PushProgressed(c, s, t, tier, wakee);
      PushWakeful(c, s, t, tier, wakee);
      if AllInBands(AfterPush(c, s, t, tier, wakee).accepted) {
        PushBands(c, s, t, tier, wakee);
        PushHosts(c, s, t, tier, wakee);
      }
    }
  }

  // ---------- a worker moving between phases of one dispatch ----------

  // Only worker states change, and every job stays with its worker.
  lemma SameBooks(c: Scan, s: State, s': State)
    requires Ledger(s) && SeenMatches(s) && Screened(c, s) && Holding(s) && Counted(s)
    requires AllInBands(s.accepted) ==> HostsCounted(c, s)
    requires s'.q == s.q && s'.accepted == s.accepted && s'.dispatched == s.dispatched
    requires s'.finished == s.finished && s'.firstHost == s.firstHost && KeepJobs(s.workers, s'.workers)
    ensures Ledger(s') && SeenMatches(s') && Screened(c, s') && Holding(s') && Counted(s')
    ensures AllInBands(s'.accepted) ==> HostsCounted(c, s')
  {
    KeepJobsHolding(s, s');
    KeepJobsFlight(s.workers, s'.workers);
    forall tier: int
      ensures Pending(s'.q, tier) == |Items(s'.q, tier)| + Sum(s'.workers, FlightAt(tier))
      ensures AtTier(s'.accepted, tier) == AtTier(s'.dispatched, tier) + Items(s'.q, tier)
    {
      assert Pending(s.q, tier) == |Items(s.q, tier)| + Sum(s.workers, FlightAt(tier));
      assert AtTier(s.accepted, tier) == AtTier(s.dispatched, tier) + Items(s.q, tier);
    }
  }

  lemma SameProgress(c: Scan, s: State, s': State)
    requires Progressed(c, s) && s.failed <= s'.failed && s'.accepted == s.accepted && s'.finished == s.finished
    requires |s'.workers| == |s.workers|
    requires forall i | 0 <= i < |s'.workers| && s'.workers[i].Finishing? ::
               s'.workers[i] == s.workers[i] || Advanced(c, s', s'.workers[i].job)
    ensures Progressed(c, s')
  {
    forall j | j in s'.finished ensures Advanced(c, s', j) { AdvancedGrows(c, s, s', j); }
    forall i | 0 <= i < |s'.workers| && s'.workers[i].Finishing? ensures Advanced(c, s', s'.workers[i].job) {
      if s'.workers[i] == s.workers[i] { AdvancedGrows(c, s, s', s.workers[i].job); }
    }
  }

  lemma PhaseInv(c: Scan, s: State, s': State, w: nat)
    requires Inv(c, s) && w < |s.workers| == |s'.workers| && s.failed <= s'.failed
    requires s' == s.(workers := s.workers[w := s'.workers[w]], failed := s'.failed)
    requires Busy(s.workers[w]) && Busy(s'.workers[w]) && s'.workers[w].job == s.workers[w].job
    requires s'.workers[w].Finishing? ==> Advanced(c, s', s'.workers[w].job)
    ensures Inv(c, s')
  {
    SameBooks(c, s, s');
    SameProgress(c, s, s');
    assert Awake(s'.workers[w]);
    BusyMeansUndrained(s);
  }

  // The re-push at the next tier is never refused for scope, budget or an empty
  // key: either it is accepted or that slot was accepted before.
  lemma AdvanceNeverRefused(c: Scan, s: State, j: Job)
    requires SeenMatches(s) && Screened(c, s) && j in s.dispatched
    ensures Admits(c.queue, s.q, false, j.t, j.tier + 1) || HasPair(s.accepted, j.t.key, j.tier + 1)
  {
    var i :| 0 <= i < |s.dispatched| && s.dispatched[i] == j;
    var k :| 0 <= k < |s.accepted| && s.accepted[k] == j;
    assert HasPair(s.accepted, j.t.key, j.tier);
    assert SeenKey(j.t.key, j.tier) in s.q.seen;
    assert SeenAnyTier(s.q, j.t.key);
    assert SeenKey(j.t.key, j.tier + 1) in s.q.seen <==> HasPair(s.accepted, j.t.key, j.tier + 1);
  }

  lemma AdvanceInv(c: Scan, s: State, w: nat, wakee: nat)
    requires Inv(c, s) && Enabled(c, s, Step.Advance(w, wakee))
    ensures Inv(c, Apply(c, s, Step.Advance(w, wakee)))
  {
    hide Inv;
    var job := s.workers[w].job;
    var s' := Apply(c, s, Step.Advance(w, wakee));
    if job.tier < LastTier(c) {
      var s1 := AfterPush(c, s, job.t, job.tier + 1, wakee);
      AdvanceOrder(c, s, w, wakee);
      AdvancePushInv(c, s, s1, w, wakee);
      AdvanceTailInv(c, s1, s', w);
    } else {
      PhaseInv(c, s, s', w);
    }
  }

  lemma AdvancePushInv(c: Scan, s: State, s1: State, w: nat, wakee: nat)
    requires Inv(c, s) && w < |s.workers| && s.workers[w].Scanning? && WakesSomeone(s.workers, wakee)
    requires s1 == AfterPush(c, s, s.workers[w].job.t, s.workers[w].job.tier + 1, wakee)
    ensures Inv(c, s1) && Advanced(c, s1, s.workers[w].job)
  {
    hide Inv;
    var job := s.workers[w].job;
    assert Busy(s.workers[w]);
    PushInv(c, s, job.t, job.tier + 1, wakee);
    AdvanceReaches(c, s, w, wakee);
  }

  lemma AdvanceTailInv(c: Scan, s1: State, s': State, w: nat)
    requires Inv(c, s1) && w < |s1.workers| && s1.workers[w].Scanning? && Advanced(c, s1, s1.workers[w].job)
    requires s' == s1.(workers := s1.workers[w := Finishing(s1.workers[w].job)])
    ensures Inv(c, s')
  {
    AdvancedGrows(c, s1, s', s1.workers[w].job);
    PhaseInv(c, s1, s', w);
  }

  // Re-pushing before or after the worker's own phase change comes to the same.
  lemma AdvanceOrder(c: Scan, s: State, w: nat, wakee: nat)
    requires Enabled(c, s, Step.Advance(w, wakee)) && s.workers[w].job.tier < LastTier(c)
    ensures var job := s.workers[w].job;
            var s1 := AfterPush(c, s, job.t, job.tier + 1, wakee);
            && w < |s1.workers| && s1.workers[w] == s.workers[w]
            && Apply(c, s, Step.Advance(w, wakee)) == s1.(workers := s1.workers[w := Finishing(job)])
  {
    var fin := Finishing(s.workers[w].job);
    assert Signalled(s.workers[w := fin], wakee) == Signalled(s.workers, wakee)[w := fin];
  }

  lemma AdvanceReaches(c: Scan, s: State, w: nat, wakee: nat)
    requires Inv(c, s) && w < |s.workers| && s.workers[w].Scanning?
    ensures var j := s.workers[w].job; Advanced(c, AfterPush(c, s, j.t, j.tier + 1, wakee), j)
  {
    hide Ledger, SeenMatches, Screened, Counted, Progressed, Wakeful, HostsCounted, AllInBands, Admits;
    var j := s.workers[w].job;
    AdvanceNeverRefused(c, s, j);
    if Admits(c.queue, s.q, false, j.t, j.tier + 1) {
      assert (s.accepted + [Job(j.t, j.tier + 1)])[|s.accepted|] == Job(j.t, j.tier + 1);
    }
  }

  // ---------- Pop ----------

  lemma TakeInv(c: Scan, s: State, w: nat, t: Target, tier: int)
    requires Inv(c, s) && Enabled(c, s, Pop(w, Took(t, tier)))
    ensures Inv(c, Apply(c, s, Pop(w, Took(t, tier))))
  {
    hide Ledger, SeenMatches, Screened, Holding, Counted, Progressed, HostsCounted, AllInBands;
    var s' := Apply(c, s, Pop(w, Took(t, tier)));
    var job := Job(t, tier);
    TakeFresh(c, s, job);
    TakeLedger(s, s', job);
    TakeHolding(s, s', w, job);
    TakeCounted(s, s', w, job);
    SameProgress(c, s, s');
    TakeRest(c, s, s', job);
    InvBalances(s);
    assert Pending(s.q, tier) > 0 && Pending(s'.q, tier) > 0;
    assert Awake(s'.workers[w]);
  }

  // The head of an eligible tier has not been dispatched before.
  lemma TakeFresh(c: Scan, s: State, job: Job)
    requires Ledger(s) && SeenMatches(s) && Items(s.q, job.tier) != [] && Items(s.q, job.tier)[0] == job.t
    ensures job in s.accepted && job !in s.dispatched
    ensures forall i | 0 <= i < |s.dispatched| :: !SameSlot(s.dispatched[i], job)
  {
    var tier := job.tier;
    assert AtTier(s.accepted, tier) == AtTier(s.dispatched, tier) + Items(s.q, tier);
    AtTierMembers(s.accepted, tier);
    AtTierMembers(s.dispatched, tier);
    AtTierDistinct(s.accepted, tier);
    var at := |AtTier(s.dispatched, tier)|;
    assert AtTier(s.accepted, tier)[at] == job.t;
    forall i | 0 <= i < |s.dispatched| ensures !SameSlot(s.dispatched[i], job) {
      if s.dispatched[i].tier == tier {
        var u := s.dispatched[i].t;
        assert s.dispatched[i] == Job(u, tier);
        assert u in AtTier(s.dispatched, tier);
        var k :| 0 <= k < at && AtTier(s.dispatched, tier)[k] == u;
        assert AtTier(s.accepted, tier)[k] == u;
      }
    }
  }

  lemma TakeRest(c: Scan, s: State, s': State, job: Job)
    requires SeenMatches(s) && Screened(c, s) && (AllInBands(s.accepted) ==> HostsCounted(c, s))
    requires InBands(job.tier) && job in s.accepted && forall i | 0 <= i < |s.dispatched| ::
             !SameSlot(s.dispatched[i], job)
    requires s'.accepted == s.accepted && s'.dispatched == s.dispatched + [job] && s'.firstHost == s.firstHost
    requires s'.q == s.q.(items := s'.q.items)
    ensures SeenMatches(s') && Screened(c, s') && (AllInBands(s'.accepted) ==> HostsCounted(c, s'))
  {
    if AllInBands(s'.accepted) { SameHosts(c, s, s'); }
  }

  lemma SameHosts(c: Scan, s: State, s': State)
    requires HostsCounted(c, s) && s'.accepted == s.accepted && s'.firstHost == s.firstHost
    requires s'.q.hostCount == s.q.hostCount
    ensures HostsCounted(c, s')
  {
    forall h: string | h != ""
      ensures HostCount(s'.q, h) == |KeysOn(s'.firstHost, h)|
              && (c.queue.budget > 0 ==> HostCount(s'.q, h) <= c.queue.budget)
    {
      assert HostCount(s.q, h) == |KeysOn(s.firstHost, h)|;
    }
  }

  lemma TakeLedger(s: State, s': State, job: Job)
    requires Ledger(s) && Items(s.q, job.tier) != [] && Items(s.q, job.tier)[0] == job.t
    requires s'.accepted == s.accepted && s'.dispatched == s.dispatched + [job] && s'.q == Take(s.q, job.tier)
    ensures Ledger(s')
  {
    forall x: int ensures AtTier(s'.accepted, x) == AtTier(s'.dispatched, x) + Items(s'.q, x) {
      AtTierSnoc(s.dispatched, job, x);
      assert AtTier(s.accepted, x) == AtTier(s.dispatched, x) + Items(s.q, x);
    }
  }

  lemma TakeHolding(s: State, s': State, w: nat, job: Job)
    requires Holding(s) && w < |s.workers| && !Busy(s.workers[w]) && job !in s.dispatched
    requires s'.workers == s.workers[w := Fetching(job)]
    requires s'.dispatched == s.dispatched + [job] && s'.finished == s.finished
    ensures Holding(s')
  {
    forall j | j in s'.dispatched ensures j in s'.finished || Holds(s'.workers, j) {
      if j == job {
        assert Busy(s'.workers[w]) && s'.workers[w].job == j;
      } else if j !in s.finished {
        assert j in s.dispatched;
        var i :| 0 <= i < |s.workers| && Busy(s.workers[i]) && s.workers[i].job == j;
        assert Busy(s'.workers[i]) && s'.workers[i].job == j;
      }
    }
  }

  lemma TakeCounted(s: State, s': State, w: nat, job: Job)
    requires Counted(s) && w < |s.workers| && !Busy(s.workers[w]) && Items(s.q, job.tier) != []
    requires s'.workers == s.workers[w := Fetching(job)] && s'.q == Take(s.q, job.tier)
    ensures Counted(s')
  {
    forall x: int ensures Pending(s'.q, x) == |Items(s'.q, x)| + Sum(s'.workers, FlightAt(x)) {
      SumUpdate(s.workers, w, Fetching(job), FlightAt(x));
      assert Pending(s.q, x) == |Items(s.q, x)| + Sum(s.workers, FlightAt(x));
    }
  }

  // A worker that finds nothing leaves or goes to sleep.
  lemma IdleInv(c: Scan, s: State, w: nat, a: Attempt)
    requires Inv(c, s) && !a.Took? && Enabled(c, s, Pop(w, a))
    ensures Inv(c, Apply(c, s, Pop(w, a)))
  {
    hide Ledger, SeenMatches, Screened, Holding, Counted, Progressed, HostsCounted, AllInBands;
    var s' := Apply(c, s, Pop(w, a));
    SameBooks(c, s, s');
    SameProgress(c, s, s');
    if forall i | 0 <= i < |s'.workers| :: !Awake(s'.workers[i]) {
      forall i | 0 <= i < |s'.workers| ensures !Busy(s'.workers[i]) { assert !Awake(s'.workers[i]); }
      NothingInFlight(s');
      NoneEligibleNoneQueued(s'.q);
    }
  }

  lemma NothingInFlight(s: State)
    requires Counted(s) && forall i | 0 <= i < |s.workers| :: !Busy(s.workers[i])
    ensures forall tier: int :: Pending(s.q, tier) == |Items(s.q, tier)|
  {
    forall tier: int ensures Pending(s.q, tier) == |Items(s.q, tier)| { FlightCounts(s.workers, tier); }
  }

  // With nothing in flight the lowest non-empty band is eligible.
  lemma NoneEligibleNoneQueued(q: Queue)
    requires forall tier: int :: Pending(q, tier) == |Items(q, tier)|
    ensures (forall tier :: !Eligible(q, tier)) ==> forall tier | InBands(tier) :: Items(q, tier) == []
  {
    if (forall tier :: !Eligible(q, tier)) && !(forall tier | InBands(tier) :: Items(q, tier) == []) {
      var low := 1;
      while Items(q, low) == []
        invariant 1 <= low <= DEFERRED
        invariant forall x | 1 <= x < low :: Items(q, x) == []
        invariant exists tier | low <= tier <= DEFERRED :: Items(q, tier) != []
        decreases DEFERRED - low
      {
        low := low + 1;
      }
      assert Eligible(q, low);
    }
  }

  // ---------- Done and SourceDone ----------

  lemma FinishInv(c: Scan, s: State, w: nat)
    requires Inv(c, s) && Enabled(c, s, Finish(w))
    ensures Inv(c, Apply(c, s, Finish(w)))
  {
    hide Ledger, SeenMatches, Screened, Holding, Counted, HostsCounted, AllInBands;
    var s' := Apply(c, s, Finish(w));
    var job := s.workers[w].job;
    FinishHolding(s, s', w);
    FinishCounted(s, s', w);
    forall j | j in s'.finished ensures Advanced(c, s', j) { AdvancedGrows(c, s, s', j); }
    forall i | 0 <= i < |s'.workers| && s'.workers[i].Finishing? ensures Advanced(c, s', s'.workers[i].job) {
      AdvancedGrows(c, s, s', s.workers[i].job);
    }
    FinishLedgers(c, s, s');
    BusyMeansUndrained(s);
    assert Awake(s'.workers[w]);
    assert forall i | 0 <= i < |s'.workers| :: !s'.workers[i].Sleeping?;
    forall i | 0 <= i < |s'.workers| ensures !s'.workers[i].Exited? {
      assert !s.workers[i].Exited?;
    }
  }

  lemma FinishLedgers(c: Scan, s: State, s': State)
    requires Ledger(s) && SeenMatches(s) && Screened(c, s) && (AllInBands(s.accepted) ==> HostsCounted(c, s))
    requires s'.accepted == s.accepted && s'.dispatched == s.dispatched && s'.firstHost == s.firstHost
    requires s'.q == s.q.(pending := s'.q.pending, sourceDone := s'.q.sourceDone)
    ensures Ledger(s') && SeenMatches(s') && Screened(c, s') && (AllInBands(s'.accepted) ==> HostsCounted(c, s'))
  {
    forall x: int ensures AtTier(s'.accepted, x) == AtTier(s'.dispatched, x) + Items(s'.q, x) {
      assert AtTier(s.accepted, x) == AtTier(s.dispatched, x) + Items(s.q, x);
    }
    if AllInBands(s'.accepted) { SameHosts(c, s, s'); }
  }

  lemma FinishHolding(s: State, s': State, w: nat)
    requires Holding(s) && w < |s.workers| && Busy(s.workers[w])
    requires s'.workers == Broadcasted(s.workers[w := Runnable])
    requires s'.dispatched == s.dispatched && s'.finished == s.finished + {s.workers[w].job}
    ensures Holding(s')
  {
    forall i | 0 <= i < |s'.workers| && Busy(s'.workers[i])
      ensures i != w && s'.workers[i] == s.workers[i] {}
    forall j | j in s'.dispatched ensures j in s'.finished || Holds(s'.workers, j) {
      if j !in s'.finished {
        var i :| 0 <= i < |s.workers| && Busy(s.workers[i]) && s.workers[i].job == j;
        assert Busy(s'.workers[i]) && s'.workers[i].job == j;
      }
    }
  }

  lemma FinishCounted(s: State, s': State, w: nat)
    requires Counted(s) && w < |s.workers| && Busy(s.workers[w])
    requires s'.workers == Broadcasted(s.workers[w := Runnable]) && s'.q == Release(s.q, s.workers[w].job.tier)
    ensures Counted(s')
  {
    var mid := s.workers[w := Runnable];
    KeepJobsFlight(mid, s'.workers);
    forall x: int ensures Pending(s'.q, x) == |Items(s'.q, x)| + Sum(s'.workers, FlightAt(x)) {
      SumUpdate(s.workers, w, Runnable, FlightAt(x));
      assert Pending(s.q, x) == |Items(s.q, x)| + Sum(s.workers, FlightAt(x));
    }
  }

  lemma ProducerDoneInv(c: Scan, s: State)
    requires Inv(c, s) && Enabled(c, s, ProducerDone)
    ensures Inv(c, Apply(c, s, ProducerDone))
  {
    var s' := Apply(c, s, ProducerDone);
    ClosedBooks(c, s);
    SameBooks(c, s.(q := s'.q), s');
    SameProgress(c, s, s');
    ProducerDoneWakeful(c, s);
  }

  lemma ClosedBooks(c: Scan, s: State)
    requires Ledger(s) && SeenMatches(s) && Screened(c, s) && Holding(s) && Counted(s)
    requires AllInBands(s.accepted) ==> HostsCounted(c, s)
    ensures var s' := s.(q := s.q.(sourceDone := true));
            && Ledger(s') && SeenMatches(s') && Screened(c, s') && Holding(s') && Counted(s')
            && (AllInBands(s'.accepted) ==> HostsCounted(c, s'))
  {
    var s' := s.(q := s.q.(sourceDone := true));
    FinishLedgers(c, s, s');
    forall x: int ensures Pending(s'.q, x) == |Items(s'.q, x)| + Sum(s'.workers, FlightAt(x)) {
      assert Pending(s.q, x) == |Items(s.q, x)| + Sum(s.workers, FlightAt(x));
    }
  }

  lemma ProducerDoneWakeful(c: Scan, s: State)
    requires Wakeful(s) && Enabled(c, s, ProducerDone)
    ensures Wakeful(Apply(c, s, ProducerDone))
  {
    var s' := Apply(c, s, ProducerDone);
    forall i | 0 <= i < |s'.workers| ensures !s'.workers[i].Exited? {
      assert !s.workers[i].Exited?;
    }
    if s'.workers != [] && forall i | 0 <= i < |s'.workers| :: !Awake(s'.workers[i]) {
      forall i | 0 <= i < |s.workers| ensures !Awake(s.workers[i]) { assert !Awake(s'.workers[i]); }
      forall tier | InBands(tier) ensures Items(s'.q, tier) == [] { assert Items(s.q, tier) == []; }
    }
  }

  // ---------- all steps, all runs ----------

  lemma StepInv(c: Scan, s: State, step: Step)
    requires Inv(c, s) && Enabled(c, s, step)
    ensures Inv(c, Apply(c, s, step))
  {
    hide Inv;
    match step
    case ProducerPush(t, wakee) => PushInv(c, s, t, FINGERPRINT, wakee);
    case ProducerDone => ProducerDoneInv(c, s);
    case Pop(w, a) =>
      if a.Took? { TakeInv(c, s, w, a.t, a.tier); } else { IdleInv(c, s, w, a); }
    case Materialize(w, ok) =>
      PhaseInv(c, s, Apply(c, s, step), w);
    case Discover(w, t, tier, wakee) =>
      assert Busy(s.workers[w]);
      PushInv(c, s, t, tier, wakee);
    case Advance(w, wakee) => AdvanceInv(c, s, w, wakee);
    case Finish(w) => FinishInv(c, s, w);
  }

  lemma InitInv(c: Scan, workers: nat)
    ensures Inv(c, Init(workers))
  {
    InitCounts(c, workers);
    var s := Init(workers);
    hide Counted, HostsCounted;
    if s.workers != [] { assert Awake(s.workers[0]); }
  }

  lemma InitCounts(c: Scan, workers: nat)
    ensures Counted(Init(workers)) && HostsCounted(c, Init(workers))
  {
    var s := Init(workers);
    forall tier: int ensures Pending(s.q, tier) == |Items(s.q, tier)| + Sum(s.workers, FlightAt(tier)) {
      SumOfZeros(s.workers, FlightAt(tier));
    }
    forall h: string ensures KeysOn(s.firstHost, h) == {} {}
  }

  lemma {:induction false} RunInv(c: Scan, workers: nat, run: seq<State>, i: nat)
    requires IsRun(c, workers, run) && i < |run|
    ensures Inv(c, run[i])
  {
    if i == 0 {
      InitInv(c, workers);
    } else {
      hide Inv;
      RunInv(c, workers, run, i - 1);
      assert Next(c, run[i - 1], run[i - 1 + 1]);
      var step :| Enabled(c, run[i - 1], step) && run[i] == Apply(c, run[i - 1], step);
      StepInv(c, run[i - 1], step);
    }
  }
}
