/** What the crawl protocol guarantees over every run. */
module CrawlTheorems {
  import opened Sums
  import opened CrawlProtocol
  import opened CrawlMoves
  import opened CrawlInvariant

  // ---------- the counter and the close ----------

  predicate Outstanding(t: Task) { !t.phase.Closing? && !t.phase.Over? }

  // The counter is zero exactly when nothing is outstanding, the seeding
  // goroutine included; it is never negative.
  lemma PendingCountsOutstanding(c: Config, seeds: seq<Action>, run: seq<State>, i: nat)
    requires IsRun(c, seeds, run) && i < |run|
    ensures run[i].g.pending >= 0
    ensures run[i].g.pending == 0 <==> forall k | 0 <= k < |run[i].tasks| :: !Outstanding(run[i].tasks[k])
    ensures run[i].g.closed ==> run[i].g.pending == 0
  {
    RunInv(c, seeds, run, i);
    var s := run[i];
    SumDominates(s.tasks, Slot());
    SumDominates(s.tasks, Closer());
    if forall k | 0 <= k < |s.tasks| :: !Outstanding(s.tasks[k]) {
      SumOfZeros(s.tasks, Slot());
    } else {
      var k :| 0 <= k < |s.tasks| && Outstanding(s.tasks[k]);
      assert Slot()(s.tasks[k]) >= 1;
    }
  }

  // The work channel is closed at most once, and nothing is sent on it, nothing
  // is launched and no page is emitted once it is closed (or once the counter
  // has reached zero).
  lemma NothingAfterClose(c: Config, seeds: seq<Action>, run: seq<State>, i: nat, k: nat, m: Move)
    requires IsRun(c, seeds, run) && i < |run| && Enabled(c, run[i], Go(k, m))
    ensures m.Close? ==> !run[i].g.closed
    ensures !m.Close? ==> !run[i].g.closed && run[i].g.pending > 0
  {
    RunInv(c, seeds, run, i);
    SlotsCount(c, run[i], k);
    SumDominates(run[i].tasks, Slot());
  }

  // Zero is reached once: from there on no move but the one close is possible,
  // and the counter stays at zero.
  lemma {:induction false} ZeroIsFinal(c: Config, seeds: seq<Action>, run: seq<State>, i: nat, k: nat)
    requires IsRun(c, seeds, run) && i <= k < |run| && run[i].g.pending == 0
    ensures run[k].g.pending == 0 && |run[k].tasks| == |run[i].tasks| && run[k].pages == run[i].pages
    decreases k - i
  {
    if i < k {
      ZeroIsFinal(c, seeds, run, i, k - 1);
      var step := StepTo(c, seeds, run, k);
      hide IsRun, Enabled, Apply;
      if step.Go? { NothingAfterClose(c, seeds, run, k - 1, step.i, step.m); }
      LastMoves(c, run[k - 1], step);
    }
  }

  lemma StepTo(c: Config, seeds: seq<Action>, run: seq<State>, k: nat) returns (step: Step)
    requires IsRun(c, seeds, run) && 0 < k < |run|
    ensures Enabled(c, run[k - 1], step) && run[k] == Apply(c, run[k - 1], step)
  {
    hide Enabled, Apply;
    assert Next(c, run[k - 1], run[k - 1 + 1]);
    step :| Enabled(c, run[k - 1], step) && run[k] == Apply(c, run[k - 1], step);
  }

  lemma LastMoves(c: Config, s: State, step: Step)
    requires Enabled(c, s, step) && (step.Cancel? || step.m.Close?)
    ensures var s' := Apply(c, s, step); s'.g.pending == s.g.pending && |s'.tasks| == |s.tasks| && s'.pages == s.pages
  {
  }

  // ---------- at most one task per URL, at most MaxPages ----------

  lemma AcceptedOnce(c: Config, seeds: seq<Action>, run: seq<State>, i: nat)
    requires IsRun(c, seeds, run) && i < |run|
    ensures forall j, k | 0 < j < k < |run[i].tasks| :: run[i].tasks[j].url != run[i].tasks[k].url
    ensures forall j | 0 < j < |run[i].tasks| :: run[i].tasks[j].url in run[i].g.visited
  {
    RunInv(c, seeds, run, i);
    UrlsDistinct(run[i]);
  }

  lemma {:induction false} SumAtLeastLength<T>(s: seq<T>, f: T -> int)
    requires forall i | 0 <= i < |s| :: 1 <= f(s[i])
    ensures |s| <= Sum(s, f)
  {
    if s != [] {
      forall i | 0 <= i < |s[1..]| ensures 1 <= f(s[1..][i]) { assert s[1..][i] == s[i + 1]; }
      SumAtLeastLength(s[1..], f);
    }
  }

  lemma PageCapHolds(c: Config, seeds: seq<Action>, run: seq<State>, i: nat)
    requires IsRun(c, seeds, run) && i < |run| && c.maxPages > 0
    ensures |run[i].tasks| - 1 <= c.maxPages
  {
    RunInv(c, seeds, run, i);
    var s := run[i];
    var rest := s.tasks[1..];
    forall k | 0 <= k < |rest| ensures 1 <= Admitted()(rest[k]) {
      assert rest[k] == s.tasks[k + 1];
    }
    SumAtLeastLength(rest, Admitted());
    assert Sum(s.tasks, Admitted()) == Admitted()(s.tasks[0]) + Sum(rest, Admitted());
  }

  // ---------- one page per URL ----------

  lemma PagesAreDistinct(c: Config, seeds: seq<Action>, run: seq<State>, i: nat)
    requires IsRun(c, seeds, run) && i < |run|
    ensures forall p, q | 0 <= p < q < |run[i].pages| :: run[i].pages[p].url != run[i].pages[q].url
  {
    RunInv(c, seeds, run, i);
    var s := run[i];
    UrlsDistinct(s);
    forall p, q | 0 <= p < q < |s.pages| ensures s.pages[p].url != s.pages[q].url {
    }
  }

  // An uncancelled crawl that has nothing outstanding has emitted a page for
  // every accepted URL (and, by PagesAreDistinct, just one).
  lemma EveryUrlGetsAPage(c: Config, seeds: seq<Action>, run: seq<State>, i: nat, k: nat)
    requires IsRun(c, seeds, run) && i < |run| && !run[i].g.cancelled && run[i].g.pending == 0
    requires 0 < k < |run[i].tasks|
    ensures exists p | 0 <= p < |run[i].pages| ::
            run[i].pages[p].task == k && run[i].pages[p].url == run[i].tasks[k].url
  {
    RunInv(c, seeds, run, i);
    PendingCountsOutstanding(c, seeds, run, i);
    var s := run[i];
    assert TaskShape(s.g.cancelled, s.tasks[k]) && !Outstanding(s.tasks[k]);
    var p :| 0 <= p < |s.pages| && s.pages[p].task == k;
    assert s.pages[p].url == s.tasks[k].url;
  }

  // ---------- spec operations ----------

  // What was recorded for a URL is, in order, what its one page carries followed
  // by what is still stashed: no operation is duplicated or reordered, and none
  // reaches another URL's page.
  lemma OperationsConserved(c: Config, seeds: seq<Action>, run: seq<State>, i: nat, p: nat)
    requires IsRun(c, seeds, run) && i < |run| && p < |run[i].pages|
    ensures var page := run[i].pages[p];
            Log(run[i].g.recorded, page.url) == page.ops + Log(run[i].g.specOps, page.url)
  {
    RunInv(c, seeds, run, i);
    var s := run[i];
    var t := s.tasks[s.pages[p].task];
    assert Log(s.g.recorded, t.url) == Log(s.g.taken, t.url) + Log(s.g.specOps, t.url);
    assert Log(s.g.taken, t.url) == t.ops;
  }

  // Until a URL's page takes them, all its recorded operations are stashed.
  lemma OperationsWait(c: Config, seeds: seq<Action>, run: seq<State>, i: nat, k: nat)
    requires IsRun(c, seeds, run) && i < |run| && 0 < k < |run[i].tasks| && BeforeTake(run[i].tasks[k])
    ensures Log(run[i].g.specOps, run[i].tasks[k].url) == Log(run[i].g.recorded, run[i].tasks[k].url)
  {
    RunInv(c, seeds, run, i);
    var s := run[i];
    NothingTakenYet(s, k);
    assert Log(s.g.recorded, s.tasks[k].url) == Log(s.g.taken, s.tasks[k].url) + Log(s.g.specOps, s.tasks[k].url);
  }

  lemma {:induction false} TaskPersists(c: Config, seeds: seq<Action>, run: seq<State>, i: nat, k: nat, j: nat)
    requires IsRun(c, seeds, run) && i <= k < |run| && j < |run[i].tasks|
    ensures j < |run[k].tasks| && SameIdentity(run[i].tasks[j], run[k].tasks[j])
    ensures !BeforeWait(run[i].tasks[j]) ==> !BeforeWait(run[k].tasks[j])
    ensures !BeforeWait(run[i].tasks[j]) && PastWait(run[k].tasks[j]) ==>
              PastWait(run[i].tasks[j]) && run[k].tasks[j].horizon == run[i].tasks[j].horizon
                  && run[k].tasks[j].heard == run[i].tasks[j].heard
    decreases k - i
  {
    hide Shape, Enabled, Apply, BeforeWait, PastWait;
    if i < k {
      TaskPersists(c, seeds, run, i, k - 1, j);
      RunShape(c, seeds, run, k - 1);
      var step := StepTo(c, seeds, run, k);
      hide IsRun;
      if step.Go? { TaskStepPersists(c, run[k - 1], step.i, step.m, j); } else { CancelPersists(c, run[k - 1]); }
    }
  }

  lemma RunShape(c: Config, seeds: seq<Action>, run: seq<State>, i: nat)
    requires IsRun(c, seeds, run) && i < |run|
    ensures Shape(run[i])
  {
    hide Shape;
    RunInv(c, seeds, run, i);
  }

  lemma CancelPersists(c: Config, s: State)
    ensures Enabled(c, s, Cancel) && Apply(c, s, Cancel).tasks == s.tasks
  {
  }

  lemma TaskStepPersists(c: Config, s: State, i: nat, m: Move, j: nat)
    requires Shape(s) && Enabled(c, s, Go(i, m)) && j < |s.tasks|
    ensures var s' := Apply(c, s, Go(i, m));
      && j < |s'.tasks| && SameIdentity(s.tasks[j], s'.tasks[j])
      && (!BeforeWait(s.tasks[j]) ==> !BeforeWait(s'.tasks[j]))
      && (!BeforeWait(s.tasks[j]) && PastWait(s'.tasks[j]) ==>
            PastWait(s.tasks[j]) && s'.tasks[j].horizon == s.tasks[j].horizon && s'.tasks[j].heard == s.tasks[j].heard)
  {
    hide Apply, TaskAfter, SharedAfter;
    assert TaskShape(s.g.cancelled, s.tasks[i]);
    StepFrame(c, s, i, m);
    MoveIdentity(c, s.g, |s.tasks|, s.tasks[i], m);
    MoveOps(c, s.g, |s.tasks|, s.tasks[i], m);
  }

  // A non-spec page carries every operation that any path-recognised spec task
  // launched before the page's wait step recorded for its URL.
  lemma PageCarriesEarlierSpecs(
    c: Config, seeds: seq<Action>, run: seq<State>, w: nat, t: nat, i: nat, p: nat, j: nat, a: Action)
    requires IsRun(c, seeds, run) && w < i < |run|
    requires Enabled(c, run[w], Go(t, Wait)) && run[w + 1] == Apply(c, run[w], Go(t, Wait)) && !run[w].tasks[t].isSpec
    requires p < |run[i].pages| && run[i].pages[p].task == t
    requires j < |run[w].tasks| && run[w].tasks[j].isSpec && j < |run[i].tasks|
    requires a in run[i].tasks[j].plan && a.Record? && a.url == run[i].pages[p].url
    ensures Within(a.ops, run[i].pages[p].ops)
  {
    assert run[w + 1].tasks[t].horizon == |run[w].tasks| && PastWait(run[w + 1].tasks[t]);
    RunInv(c, seeds, run, i);
    hide Inv, Apply;
    TaskPersists(c, seeds, run, w + 1, i, t);
    TaskPersists(c, seeds, run, w, i, j);
  }

  // A URL whose accepting submission came after the same program recorded
  // operations for it carries those operations, spec-looking path or not.
  lemma SubmittedWithItsOperations(
    c: Config, seeds: seq<Action>, run: seq<State>, l: nat, j: nat, i: nat, p: nat, e: nat)
    requires IsRun(c, seeds, run) && l < i < |run|
    requires Enabled(c, run[l], Go(j, Act)) && Launches(run[l].tasks[j], Act)
             && run[l + 1] == Apply(c, run[l], Go(j, Act))
    requires e < Executed(run[l].tasks[j]) && e < |run[l].tasks[j].plan| && run[l].tasks[j].plan[e].Record?
    requires run[l].tasks[j].plan[e].url == run[l].tasks[j].phase.sub.url
    requires p < |run[i].pages| && run[i].pages[p].task == |run[l].tasks|
    ensures Within(run[l].tasks[j].plan[e].ops, run[i].pages[p].ops)
  {
    RunInv(c, seeds, run, l);
    RunInv(c, seeds, run, i);
    var n := |run[l].tasks|;
    var a := run[l].tasks[j].plan[e];
    assert run[l + 1].tasks[n] == NewTask(run[l].g, a.url, run[l].tasks[j].phase.sub.spec);
    assert Within(a.ops, Log(run[l].g.recorded, a.url));
    TaskPersists(c, seeds, run, l + 1, i, n);
    var s := run[i];
    assert Snapshot(Log(s.g.recorded, s.tasks[n].url), |s.tasks|, s.tasks[n]);
    assert s.tasks[n].born <= s.tasks[n].ops;
  }

  // ---------- no deadlock ----------

  function NextMove(t: Task): Move {
    match t.phase
    case Sending => Send
    case Buffered => Receive
    case Ready => Fetch([])
    case Waiting => Wait
    case Taking => Take
    case Posting => Post
    case Acting(rest, sub) => if rest == [] && sub.Idle? then Leave else Act
    case Unguarding => Unguard
    case Finishing => Finish
    case Closing => Close
    case Over => Close
  }

  // A spec task never waits for the worker pool or for another task.
  lemma SpecNeverBlocks(c: Config, seeds: seq<Action>, run: seq<State>, i: nat, k: nat)
    requires IsRun(c, seeds, run) && i < |run| && k < |run[i].tasks|
    requires run[i].tasks[k].isSpec && !run[i].tasks[k].phase.Over?
    ensures Enabled(c, run[i], Go(k, NextMove(run[i].tasks[k])))
  {
    RunInv(c, seeds, run, i);
    assert TaskShape(run[i].g.cancelled, run[i].tasks[k]);
  }

  // While a page waits for specs, some other task holds the guard and can move.
  lemma GuardHolderCanMove(c: Config, s: State)
    requires Counters(c, s) && Shape(s) && s.g.specs > 0
    ensures exists k | 0 <= k < |s.tasks| :: Enabled(c, s, Go(k, NextMove(s.tasks[k])))
  {
    if forall k | 0 <= k < |s.tasks| :: Guard()(s.tasks[k]) == 0 {
      SumOfZeros(s.tasks, Guard());
    }
    var k :| 0 <= k < |s.tasks| && Guard()(s.tasks[k]) != 0;
    assert TaskShape(s.g.cancelled, s.tasks[k]);
    assert Enabled(c, s, Go(k, NextMove(s.tasks[k])));
  }

  lemma UnguardedCanMove(c: Config, s: State, k: nat)
    requires k < |s.tasks| && s.g.specs == 0
    requires !s.tasks[k].phase.Sending? && !s.tasks[k].phase.Buffered? && !s.tasks[k].phase.Over?
    ensures Enabled(c, s, Go(k, NextMove(s.tasks[k])))
  {
  }

  // With at least one worker, some task can always move until all are over: the
  // pool, the channel and the spec wait never lock each other out.
  lemma CrawlNeverStalls(c: Config, seeds: seq<Action>, run: seq<State>, i: nat)
    requires IsRun(c, seeds, run) && i < |run| && c.workers > 0
    requires exists k | 0 <= k < |run[i].tasks| :: !run[i].tasks[k].phase.Over?
    ensures exists k | 0 <= k < |run[i].tasks| :: Enabled(c, run[i], Go(k, NextMove(run[i].tasks[k])))
  {
    RunInv(c, seeds, run, i);
    var s := run[i];
    if s.g.specs > 0 {
      GuardHolderCanMove(c, s);
    } else if k :|
      && 0 <= k < |s.tasks|
      && !s.tasks[k].phase.Sending? && !s.tasks[k].phase.Buffered? && !s.tasks[k].phase.Over? {
      SumDominates(s.tasks, Guard());
      assert s.g.specs == 0;
      UnguardedCanMove(c, s, k);
    } else if k :| 0 <= k < |s.tasks| && s.tasks[k].phase.Buffered? {
      SumOfZeros(s.tasks, Held());
      assert Enabled(c, s, Go(k, NextMove(s.tasks[k])));
    } else {
      var k :| 0 <= k < |s.tasks| && !s.tasks[k].phase.Over?;
      SumOfZeros(s.tasks, InBuffer());
      assert Enabled(c, s, Go(k, NextMove(s.tasks[k])));
    }
  }

  // Over the whole run: all tasks over means the channel is closed.
  lemma OverMeansClosed(c: Config, seeds: seq<Action>, run: seq<State>, i: nat)
    requires IsRun(c, seeds, run) && i < |run|
    requires forall k | 0 <= k < |run[i].tasks| :: run[i].tasks[k].phase.Over?
    ensures run[i].g.closed
  {
    RunInv(c, seeds, run, i);
    SumOfZeros(run[i].tasks, Closer());
    SumOfZeros(run[i].tasks, Slot());
  }
}
