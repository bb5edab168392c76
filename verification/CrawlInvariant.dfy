/** Every step of the crawl protocol keeps the invariant. */
module CrawlInvariant {
  import opened Sums
  import opened CrawlProtocol
  import opened CrawlMoves

  // ---------- the frame of a step ----------

  // A step is the move of one task; it may launch one more.
  ghost predicate Frame(s: State, s': State, i: nat) {
    && i < |s.tasks| <= |s'.tasks| <= |s.tasks| + 1
    && (forall k | 0 <= k < |s.tasks| && k != i :: s'.tasks[k] == s.tasks[k])
    && SameIdentity(s.tasks[i], s'.tasks[i])
    && (|s'.tasks| > |s.tasks| ==> var n := s'.tasks[|s.tasks|]; n == NewTask(s.g, n.url, n.isSpec))
  }

  lemma StepFrame(c: Config, s: State, i: nat, m: Move)
    requires Enabled(c, s, Go(i, m))
    ensures var s' := Apply(c, s, Go(i, m));
      && i < |s'.tasks| && Frame(s, s', i) && s'.g == SharedAfter(c, s.g, s.tasks[i], m)
      && s'.tasks[i] == TaskAfter(c, s.g, |s.tasks|, s.tasks[i], m)
      && s'.pages == s.pages + (if m.Post? then [Page(i, s.tasks[i].url, s.tasks[i].ops)] else [])
      && (!Launches(s.tasks[i], m) ==> s'.tasks == s.tasks[i := s'.tasks[i]])
  {
    hide TaskAfter, SharedAfter;
    MoveIdentity(c, s.g, |s.tasks|, s.tasks[i], m);
  }

  // ---------- counters ----------

  lemma SlotsCount(c: Config, s: State, i: nat)
    requires Counters(c, s) && i < |s.tasks|
    ensures s.g.pending >= Slot()(s.tasks[i]) && s.g.specs >= Guard()(s.tasks[i])
    ensures s.g.closed ==> s.g.pending == 0
    ensures s.tasks[i].phase.Closing? ==> s.g.pending == 0 && !s.g.closed
  {
    SumDominates(s.tasks, Slot());
    SumDominates(s.tasks, Guard());
    SumDominates(s.tasks, Closer());
  }

  lemma MoveCounters(c: Config, s: State, s': State, i: nat)
    requires Counters(c, s) && i < |s.tasks| == |s'.tasks| && s'.tasks == s.tasks[i := s'.tasks[i]]
    requires Accounted(c, s.g, s.tasks[i], s'.g, s'.tasks[i])
    ensures Counters(c, s')
  {
    SumUpdate(s.tasks, i, s'.tasks[i], Slot());
    SumUpdate(s.tasks, i, s'.tasks[i], Guard());
    SumUpdate(s.tasks, i, s'.tasks[i], Closer());
    SumUpdate(s.tasks, i, s'.tasks[i], Admitted());
  }

  lemma StepCounters(c: Config, s: State, i: nat, m: Move)
    requires Counters(c, s) && Shape(s) && Enabled(c, s, Go(i, m)) && !Launches(s.tasks[i], m)
    ensures Counters(c, Apply(c, s, Go(i, m)))
  {
    hide Apply, TaskAfter, SharedAfter, Accounted, TaskShape;
    var s' := Apply(c, s, Go(i, m));
    SlotsCount(c, s, i);
    assert TaskShape(s.g.cancelled, s.tasks[i]);
    StepFrame(c, s, i, m);
    MoveAccounted(c, s.g, |s.tasks|, s.tasks[i], m);
    MoveCounters(c, s, s', i);
  }

  // A launch hands the slot, the guard, the claim and the cap over to the new task.
  lemma LaunchHandsOver(c: Config, s: State, i: nat, m: Move, f: Task -> int)
    requires Enabled(c, s, Go(i, m)) && Launches(s.tasks[i], m)
    ensures var t := s.tasks[i];
            var x := t.(phase := Acting(t.phase.rest, Idle));
            var n := NewTask(s.g, t.phase.sub.url, t.phase.sub.spec);
            Sum(Apply(c, s, Go(i, m)).tasks, f) == Sum(s.tasks, f) - f(t) + f(x) + f(n)
  {
    var t := s.tasks[i];
    var x := t.(phase := Acting(t.phase.rest, Idle));
    MoveIdentity(c, s.g, |s.tasks|, t, m);
    SumUpdate(s.tasks, i, x, f);
    SumAppend(s.tasks[i := x], NewTask(s.g, t.phase.sub.url, t.phase.sub.spec), f);
  }

  lemma LaunchCounters(c: Config, s: State, i: nat, m: Move)
    requires Counters(c, s) && Claims(s) && Enabled(c, s, Go(i, m)) && Launches(s.tasks[i], m)
    ensures Counters(c, Apply(c, s, Go(i, m))) && Claims(Apply(c, s, Go(i, m)))
  {
    hide Apply;
    var s' := Apply(c, s, Go(i, m));
    StepFrame(c, s, i, m);
    MoveIdentity(c, s.g, |s.tasks|, s.tasks[i], m);
    LaunchHandsOver(c, s, i, m, Slot());
    LaunchHandsOver(c, s, i, m, Guard());
    LaunchHandsOver(c, s, i, m, Closer());
    LaunchHandsOver(c, s, i, m, Admitted());
    forall url: string ensures Sum(s'.tasks, Claim(url)) <= One(url in s'.g.visited) {
      LaunchHandsOver(c, s, i, m, Claim(url));
      assert Sum(s.tasks, Claim(url)) <= One(url in s.g.visited);
    }
  }

  // ---------- claims ----------

  lemma StepClaims(c: Config, s: State, i: nat, m: Move)
    requires Claims(s) && Enabled(c, s, Go(i, m)) && !Launches(s.tasks[i], m)
    ensures Claims(Apply(c, s, Go(i, m)))
  {
    hide Apply, TaskAfter, SharedAfter;
    var s' := Apply(c, s, Go(i, m));
    StepFrame(c, s, i, m);
    forall url: string ensures Sum(s'.tasks, Claim(url)) <= One(url in s'.g.visited) {
      MoveClaimed(c, s.g, |s.tasks|, s.tasks[i], m, url);
      SumUpdate(s.tasks, i, s'.tasks[i], Claim(url));
      assert Sum(s.tasks, Claim(url)) <= One(url in s.g.visited);
    }
  }

  // A sum of non-negative weights dominates any two of them.
  lemma {:induction false} TwoOf<T>(s: seq<T>, f: T -> int, i: nat, j: nat)
    requires i < j < |s| && forall k | 0 <= k < |s| :: 0 <= f(s[k])
    ensures f(s[i]) + f(s[j]) <= Sum(s, f)
  {
    forall k | 0 <= k < |s[1..]| ensures 0 <= f(s[1..][k]) { assert s[1..][k] == s[k + 1]; }
    if i == 0 {
      SumDominates(s[1..], f);
      assert s[1..][j - 1] == s[j];
    } else {
      TwoOf(s[1..], f, i - 1, j - 1);
    }
  }

  // No URL is accepted twice.
  lemma UrlsDistinct(s: State)
    requires Claims(s)
    ensures forall i, j | 0 <= i < j < |s.tasks| && !s.tasks[i].root && !s.tasks[j].root ::
            s.tasks[i].url != s.tasks[j].url
    ensures forall i | 0 <= i < |s.tasks| && !s.tasks[i].root :: s.tasks[i].url in s.g.visited
  {
    forall i, j | 0 <= i < j < |s.tasks| && !s.tasks[i].root && !s.tasks[j].root
      ensures s.tasks[i].url != s.tasks[j].url
    {
      TwoOf(s.tasks, Claim(s.tasks[i].url), i, j);
      assert Sum(s.tasks, Claim(s.tasks[i].url)) <= 1;
    }
    forall i | 0 <= i < |s.tasks| && !s.tasks[i].root ensures s.tasks[i].url in s.g.visited {
      SumDominates(s.tasks, Claim(s.tasks[i].url));
      assert Claim(s.tasks[i].url)(s.tasks[i]) >= 1;
    }
  }

  // ---------- shapes and pages ----------

  lemma StepShape(c: Config, s: State, i: nat, m: Move)
    requires Shape(s) && Enabled(c, s, Go(i, m))
    ensures Shape(Apply(c, s, Go(i, m)))
  {
    hide Apply, TaskAfter, SharedAfter;
    var s' := Apply(c, s, Go(i, m));
    StepFrame(c, s, i, m);
    MoveIdentity(c, s.g, |s.tasks|, s.tasks[i], m);
    assert TaskShape(s.g.cancelled, s.tasks[i]);
    MoveShape(c, s.g, |s.tasks|, s.tasks[i], m);
  }

  lemma FramePages(s: State, s': State, i: nat, m: Move)
    requires Pages(s) && Frame(s, s', i) && Emits(s.tasks[i], s'.tasks[i], m)
    requires s'.pages == s.pages + (if m.Post? then [Page(i, s.tasks[i].url, s.tasks[i].ops)] else [])
    ensures Pages(s')
  {
    FramePosted(s, s', i, m);
    hide Frame, Emits;
    forall k | 0 <= k < |s'.tasks| && s'.tasks[k].emitted
      ensures exists p | 0 <= p < |s'.pages| :: s'.pages[p].task == k
    {
      if m.Post? && k == i {
        assert s'.pages[|s.pages|].task == k;
      } else {
        var p :| 0 <= p < |s.pages| && s.pages[p].task == k;
        assert s'.pages[p].task == k;
      }
    }
  }

  lemma FramePosted(s: State, s': State, i: nat, m: Move)
    requires Frame(s, s', i) && Emits(s.tasks[i], s'.tasks[i], m)
    ensures |s.tasks| <= |s'.tasks|
    ensures forall k | 0 <= k < |s.tasks| && s.tasks[k].emitted ::
              s'.tasks[k].emitted && s'.tasks[k].url == s.tasks[k].url && s'.tasks[k].ops == s.tasks[k].ops
    ensures forall k | 0 <= k < |s'.tasks| && s'.tasks[k].emitted ::
            k < |s.tasks| && (s.tasks[k].emitted || (m.Post? && k == i))
    ensures m.Post? ==>
              && !s.tasks[i].emitted && s'.tasks[i].emitted
              && s'.tasks[i].url == s.tasks[i].url && s'.tasks[i].ops == s.tasks[i].ops
  {
  }

  lemma StepPages(c: Config, s: State, i: nat, m: Move)
    requires Shape(s) && Pages(s) && Enabled(c, s, Go(i, m))
    ensures Pages(Apply(c, s, Go(i, m)))
  {
    hide Apply, TaskAfter, SharedAfter, Pages;
    assert TaskShape(s.g.cancelled, s.tasks[i]);
    StepFrame(c, s, i, m);
    MoveEmits(c, s.g, |s.tasks|, s.tasks[i], m);
    FramePages(s, Apply(c, s, Go(i, m)), i, m);
  }

  // ---------- operations ----------

  lemma MapsConserve(s: State, s': State, i: nat, m: Move)
    requires Conserved(s) && i < |s.tasks| && i < |s'.tasks| && MapsMove(s.g, s.tasks[i], s'.g, s'.tasks[i], m)
    ensures Conserved(s')
    ensures forall url: string :: Log(s.g.recorded, url) <= Log(s'.g.recorded, url)
  {
    forall url: string
      ensures Log(s'.g.recorded, url) == Log(s'.g.taken, url) + Log(s'.g.specOps, url)
      ensures Log(s.g.recorded, url) <= Log(s'.g.recorded, url)
    {
      UrlConserves(s.g, s.tasks[i], s'.g, s'.tasks[i], m, url);
    }
  }

  lemma UrlConserves(g: Shared, t: Task, g': Shared, x: Task, m: Move, url: string)
    requires Log(g.recorded, url) == Log(g.taken, url) + Log(g.specOps, url) && MapsMove(g, t, g', x, m)
    ensures Log(g'.recorded, url) == Log(g'.taken, url) + Log(g'.specOps, url)
    ensures Log(g.recorded, url) <= Log(g'.recorded, url)
  {
  }

  // A task about to take finds nothing taken for its URL yet.
  lemma NothingTakenYet(s: State, i: nat)
    requires Claims(s) && TakenBy(s) && i < |s.tasks| && !s.tasks[i].root && BeforeTake(s.tasks[i])
    ensures Log(s.g.taken, s.tasks[i].url) == []
  {
    UrlsDistinct(s);
  }

  lemma FrameTakenBy(s: State, s': State, i: nat, m: Move)
    requires Claims(s) && TakenBy(s) && Frame(s, s', i) && MapsMove(s.g, s.tasks[i], s'.g, s'.tasks[i], m)
    requires OpsMove(s.g, |s.tasks|, s.tasks[i], s'.tasks[i], m)
    requires s.tasks[i].root ==> !BeforeTake(s.tasks[i])
    ensures TakenBy(s')
  {
    if m.Take? {
      NothingTakenYet(s, i);
      UrlsDistinct(s);
    }
    forall url: string | Log(s'.g.taken, url) != []
      ensures exists k | 0 <= k < |s'.tasks| :: !s'.tasks[k].root && s'.tasks[k].url == url && !BeforeTake(s'.tasks[k])
    {
      if m.Take? && url == s.tasks[i].url {
        assert !s'.tasks[i].root && s'.tasks[i].url == url && !BeforeTake(s'.tasks[i]);
      } else {
        assert Log(s.g.taken, url) != [];
        var k :| 0 <= k < |s.tasks| && !s.tasks[k].root && s.tasks[k].url == url && !BeforeTake(s.tasks[k]);
        assert !s'.tasks[k].root && s'.tasks[k].url == url && !BeforeTake(s'.tasks[k]);
      }
    }
  }

  lemma FrameExecutions(s: State, s': State, i: nat, m: Move)
    requires Executions(s) && Conserved(s) && Frame(s, s', i) && MapsMove(s.g, s.tasks[i], s'.g, s'.tasks[i], m)
    requires OpsMove(s.g, |s.tasks|, s.tasks[i], s'.tasks[i], m)
    ensures Executions(s')
  {
    MapsConserve(s, s', i, m);
    forall j, k | 0 <= j < |s'.tasks| && 0 <= k < Executed(s'.tasks[j]) && k < |s'.tasks[j].plan|
        && s'.tasks[j].plan[k].Record?
      ensures Within(s'.tasks[j].plan[k].ops, Log(s'.g.recorded, s'.tasks[j].plan[k].url))
    {
      assert j < |s.tasks| && s'.tasks[j].plan == s.tasks[j].plan;
      var a := s.tasks[j].plan[k];
      assert Log(s.g.recorded, a.url) <= Log(s'.g.recorded, a.url);
      if k < Executed(s.tasks[j]) {
        assert Within(a.ops, Log(s.g.recorded, a.url));
      }
    }
  }

  lemma SnapshotGrows(log: seq<Op>, log': seq<Op>, n: nat, n': nat, t: Task)
    requires Snapshot(log, n, t) && log <= log' && n <= n'
    ensures Snapshot(log', n', t)
  {
  }

  // The task's own move: the wait reads the log, the take finds all of it.
  lemma SnapshotMoves(s: State, s': State, i: nat, m: Move)
    requires i < |s.tasks| && i < |s'.tasks| && OpsMove(s.g, |s.tasks|, s.tasks[i], s'.tasks[i], m)
    requires SameIdentity(s.tasks[i], s'.tasks[i]) && MapsMove(s.g, s.tasks[i], s'.g, s'.tasks[i], m)
    requires TaskShape(s.g.cancelled, s.tasks[i]) && (m.Wait? ==> s.tasks[i].phase.Waiting?)
    requires m.Take? ==> Log(s.g.recorded, s.tasks[i].url) == Log(s.g.specOps, s.tasks[i].url)
    requires Snapshot(Log(s.g.recorded, s.tasks[i].url), |s.tasks|, s.tasks[i])
    ensures Snapshot(Log(s.g.recorded, s.tasks[i].url), |s.tasks|, s'.tasks[i])
  {
  }

  lemma FrameSnapshots(s: State, s': State, i: nat, m: Move)
    requires Claims(s) && Conserved(s) && TakenBy(s) && Snapshots(s)
    requires Frame(s, s', i) && MapsMove(s.g, s.tasks[i], s'.g, s'.tasks[i], m)
    requires OpsMove(s.g, |s.tasks|, s.tasks[i], s'.tasks[i], m)
    requires TaskShape(s.g.cancelled, s.tasks[i]) && (m.Wait? ==> s.tasks[i].phase.Waiting?)
    ensures Snapshots(s')
  {
    hide OpsMove, Snapshot, Claims, TakenBy;
    MapsConserve(s, s', i, m);
    if !s.tasks[i].root {
      if m.Take? {
        NothingTakenYet(s, i);
        assert Log(s.g.recorded, s.tasks[i].url) == Log(s.g.taken, s.tasks[i].url) + Log(s.g.specOps, s.tasks[i].url);
      }
      SnapshotMoves(s, s', i, m);
    }
    RecordedGrows(s, s', i, m);
    hide MapsMove, Conserved, TaskShape;
    forall j | 0 <= j < |s'.tasks| && !s'.tasks[j].root
      ensures Snapshot(Log(s'.g.recorded, s'.tasks[j].url), |s'.tasks|, s'.tasks[j])
    {
      var url := s'.tasks[j].url;
      if j == |s.tasks| {
        NewSnapshot(Log(s'.g.recorded, url), |s'.tasks|, s'.tasks[j], s.g);
      } else {
        SnapshotGrows(Log(s.g.recorded, url), Log(s'.g.recorded, url), |s.tasks|, |s'.tasks|, s'.tasks[j]);
      }
    }
  }

  lemma RecordedGrows(s: State, s': State, i: nat, m: Move)
    requires i < |s.tasks| && i < |s'.tasks| && MapsMove(s.g, s.tasks[i], s'.g, s'.tasks[i], m)
    ensures forall url: string :: Log(s.g.recorded, url) <= Log(s'.g.recorded, url)
  {
  }

  lemma NewSnapshot(log: seq<Op>, n: nat, t: Task, g: Shared)
    requires t == NewTask(g, t.url, t.isSpec) && Log(g.recorded, t.url) <= log
    ensures Snapshot(log, n, t)
  {
  }

  lemma WaitHeard(c: Config, s: State, i: nat)
    requires Counters(c, s) && Shape(s) && Executions(s) && Heard(s) && Enabled(c, s, Go(i, Wait))
    ensures Heard(Apply(c, s, Go(i, Wait)))
  {
    var s' := Apply(c, s, Go(i, Wait));
    SumDominates(s.tasks, Guard());
    assert TaskShape(s.g.cancelled, s.tasks[i]);
    forall j | 0 <= j < s'.tasks[i].horizon && j < |s'.tasks| && s'.tasks[j].isSpec
      ensures s'.tasks[j].phase.Finishing? || s'.tasks[j].phase.Closing? || s'.tasks[j].phase.Over?
      ensures forall a | a in s'.tasks[j].plan && a.Record? && a.url == s'.tasks[i].url ::
              Within(a.ops, s'.tasks[i].heard)
    {
      assert Guard()(s.tasks[j]) <= s.g.specs;
      forall a | a in s'.tasks[j].plan && a.Record? && a.url == s'.tasks[i].url
        ensures Within(a.ops, s'.tasks[i].heard)
      {
        var k :| 0 <= k < |s.tasks[j].plan| && s.tasks[j].plan[k] == a;
        assert k < Executed(s.tasks[j]);
      }
    }
  }

  lemma FrameHeard(s: State, s': State, i: nat, m: Move)
    requires Snapshots(s) && Heard(s) && !m.Wait? && Frame(s, s', i)
    requires OpsMove(s.g, |s.tasks|, s.tasks[i], s'.tasks[i], m)
    ensures Heard(s')
  {
    forall h, j | 0 <= h < |s'.tasks| && !s'.tasks[h].root && PastWait(s'.tasks[h]) && 0 <= j < s'.tasks[h].horizon
        && j < |s'.tasks| && s'.tasks[j].isSpec
      ensures s'.tasks[j].phase.Finishing? || s'.tasks[j].phase.Closing? || s'.tasks[j].phase.Over?
      ensures forall a | a in s'.tasks[j].plan && a.Record? && a.url == s'.tasks[h].url ::
              Within(a.ops, s'.tasks[h].heard)
    {
      assert h < |s.tasks| && PastWait(s.tasks[h]) && s.tasks[h].horizon == s'.tasks[h].horizon
             && s.tasks[h].heard == s'.tasks[h].heard;
      assert j < |s.tasks|;
      assert s.tasks[j].phase.Finishing? || s.tasks[j].phase.Closing? || s.tasks[j].phase.Over?;
      assert s'.tasks[j].plan == s.tasks[j].plan;
    }
  }

  lemma StepOperations(c: Config, s: State, i: nat, m: Move)
    requires Counters(c, s) && Claims(s) && Shape(s) && Conserved(s) && TakenBy(s) && Executions(s) && Snapshots(s)
             && Heard(s)
    requires Enabled(c, s, Go(i, m))
    ensures var s' := Apply(c, s, Go(i, m));
            Conserved(s') && TakenBy(s') && Executions(s') && Snapshots(s') && Heard(s')
  {
    hide Apply, TaskAfter, SharedAfter, Counters, Claims, Conserved, TakenBy, Executions, Snapshots, Heard, Frame,
        MapsMove, OpsMove;
    var s' := Apply(c, s, Go(i, m));
    var t := s.tasks[i];
    assert TaskShape(s.g.cancelled, t);
    StepFrame(c, s, i, m);
    MoveMaps(c, s.g, |s.tasks|, t, m);
    MoveOps(c, s.g, |s.tasks|, t, m);
    MapsConserve(s, s', i, m);
    FrameTakenBy(s, s', i, m);
    FrameExecutions(s, s', i, m);
    FrameSnapshots(s, s', i, m);
    if m.Wait? { WaitHeard(c, s, i); } else { FrameHeard(s, s', i, m); }
  }

  // ---------- all steps, all runs ----------

  lemma CancelInv(c: Config, s: State)
    requires Inv(c, s)
    ensures Inv(c, s.(g := s.g.(cancelled := true)))
  {
    forall i | 0 <= i < |s.tasks| ensures TaskShape(true, s.tasks[i]) { assert TaskShape(s.g.cancelled, s.tasks[i]); }
  }

  lemma StepInv(c: Config, s: State, step: Step)
    requires Inv(c, s) && Enabled(c, s, step)
    ensures Inv(c, Apply(c, s, step))
  {
    if step.Cancel? {
      CancelInv(c, s);
    } else {
      hide Apply, Counters, Claims, Shape, Pages, Conserved, TakenBy, Executions, Snapshots, Heard;
      if Launches(s.tasks[step.i], step.m) {
        LaunchCounters(c, s, step.i, step.m);
      } else {
        StepCounters(c, s, step.i, step.m);
        StepClaims(c, s, step.i, step.m);
      }
      StepShape(c, s, step.i, step.m);
      StepPages(c, s, step.i, step.m);
      StepOperations(c, s, step.i, step.m);
    }
  }

  lemma InitInv(c: Config, seeds: seq<Action>)
    requires forall a | a in seeds :: a.Submit?
    ensures Inv(c, Init(seeds))
  {
    InitCounters(c, seeds);
    InitTasks(c, seeds);
  }

  lemma InitTasks(c: Config, seeds: seq<Action>)
    requires forall a | a in seeds :: a.Submit?
    ensures var s := Init(seeds);
      Shape(s) && Pages(s) && Conserved(s) && TakenBy(s) && Executions(s) && Snapshots(s) && Heard(s)
  {
    InitPages(c, seeds);
    InitOperations(c, seeds);
  }

  lemma InitPages(c: Config, seeds: seq<Action>)
    requires forall a | a in seeds :: a.Submit?
    ensures Shape(Init(seeds)) && Pages(Init(seeds))
  {
  }

  lemma InitOperations(c: Config, seeds: seq<Action>)
    requires forall a | a in seeds :: a.Submit?
    ensures var s := Init(seeds); Conserved(s) && TakenBy(s) && Executions(s) && Snapshots(s) && Heard(s)
  {
    assert Executed(Init(seeds).tasks[0]) == 0;
  }

  lemma InitCounters(c: Config, seeds: seq<Action>)
    ensures Counters(c, Init(seeds)) && Claims(Init(seeds))
  {
    var s := Init(seeds);
    forall url: string ensures Sum(s.tasks, Claim(url)) == 0 {}
  }

  lemma {:induction false} RunInv(c: Config, seeds: seq<Action>, run: seq<State>, i: nat)
    requires IsRun(c, seeds, run) && i < |run|
    ensures Inv(c, run[i])
  {
    if i == 0 {
      InitInv(c, seeds);
    } else {
      hide Inv;
      RunInv(c, seeds, run, i - 1);
      assert Next(c, run[i - 1], run[i - 1 + 1]);
      var step :| Enabled(c, run[i - 1], step) && run[i] == Apply(c, run[i - 1], step);
      StepInv(c, run[i - 1], step);
    }
  }
}
