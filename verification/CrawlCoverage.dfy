/** Which URLs a crawl visits: exactly those its programs submit, each with a
    page of its own unless the page cap is full. */
module CrawlCoverage {
  import opened Options
  import opened Sums
  import opened CrawlProtocol
  import opened CrawlMoves
  import opened CrawlInvariant
  import opened CrawlTheorems

  // The e-th action of the task's plan has been carried out and submits url.
  predicate Submitted(c: Config, t: Task, e: nat, url: string) {
    && e < Executed(t) && e < |t.plan| && t.plan[e].Submit?
    && c.canon(t.plan[e].raw, t.plan[e].depth) == Some(url)
  }

  predicate Full(c: Config, g: Shared) { c.maxPages > 0 && g.queued > c.maxPages }

  predicate Claimed(t: Task, url: string) { Claim(url)(t) >= 1 }

  // ---------- the invariant ----------

  ghost predicate Performed(c: Config, s: State) {
    forall i, e: nat, url | 0 <= i < |s.tasks| && Submitted(c, s.tasks[i], e, url) :: url in s.g.visited
  }

  ghost predicate Sourced(c: Config, s: State) {
    forall url | url in s.g.visited :: exists i, e: nat | 0 <= i < |s.tasks| :: Submitted(c, s.tasks[i], e, url)
  }

  ghost predicate Covered(c: Config, s: State) {
    forall url | url in s.g.visited :: Full(c, s.g) || exists i | 0 <= i < |s.tasks| :: Claimed(s.tasks[i], url)
  }

  predicate KindOk(c: Config, t: Task) {
    && (!t.root ==> t.isSpec == c.isSpec(t.url))
    && (t.phase.Acting? && t.phase.sub.Guarding? ==> c.isSpec(t.phase.sub.url))
    && (t.phase.Acting? && t.phase.sub.Launching? ==> t.phase.sub.spec == c.isSpec(t.phase.sub.url))
  }

  ghost predicate Kinds(c: Config, s: State) { forall i | 0 <= i < |s.tasks| :: KindOk(c, s.tasks[i]) }

  ghost predicate Coverage(c: Config, s: State) {
    Performed(c, s) && Sourced(c, s) && Covered(c, s) && Kinds(c, s)
  }

  // ---------- one task's move ----------

  ghost predicate Submits(c: Config, g: Shared, t: Task, g': Shared, x: Task) {
    && g.visited <= g'.visited && g.queued <= g'.queued
    && (forall e: nat, url :: Submitted(c, t, e, url) ==> Submitted(c, x, e, url))
    && (forall e: nat, url :: Submitted(c, x, e, url) ==> Submitted(c, t, e, url) || url in g'.visited)
    && (forall url | url in g'.visited && url !in g.visited ::
          Claimed(x, url) && exists e: nat :: Submitted(c, x, e, url))
  }

  ghost predicate KeepsClaims(c: Config, g: Shared, t: Task, g': Shared, x: Task) {
    forall url | Claimed(t, url) :: Claimed(x, url) || Full(c, g')
  }

  lemma MoveSubmits(c: Config, g: Shared, n: nat, t: Task, m: Move)
    requires CanMove(g, t, m) && TaskShape(g.cancelled, t)
    ensures Submits(c, g, t, SharedAfter(c, g, t, m), TaskAfter(c, g, n, t, m))
  {
    if m.Act? && t.phase.sub.Idle? {
      IdleSubmits(c, g, n, t);
    } else {
      hide Submitted;
      SameSubmissions(c, g, n, t, m);
    }
  }

  // No other move carries an action out or touches the visited set.
  lemma SameSubmissions(c: Config, g: Shared, n: nat, t: Task, m: Move)
    requires CanMove(g, t, m) && TaskShape(g.cancelled, t) && !(m.Act? && t.phase.sub.Idle?)
    ensures var x, g' := TaskAfter(c, g, n, t, m), SharedAfter(c, g, t, m);
            && g'.visited == g.visited && g.queued <= g'.queued
            && forall e: nat, url :: Submitted(c, x, e, url) <==> Submitted(c, t, e, url)
  {
    var x := TaskAfter(c, g, n, t, m);
    assert Executed(x) == Executed(t) && (Executed(t) > 0 ==> x.plan == t.plan);
  }

  lemma IdleSubmits(c: Config, g: Shared, n: nat, t: Task)
    requires CanMove(g, t, Act) && TaskShape(g.cancelled, t) && t.phase.sub.Idle?
    ensures Submits(c, g, t, SharedAfter(c, g, t, Act), TaskAfter(c, g, n, t, Act))
  {
    var x, g' := TaskAfter(c, g, n, t, Act), SharedAfter(c, g, t, Act);
    var now := Executed(t);
    assert t.phase.rest[0] == t.plan[now] && Executed(x) == now + 1 && x.plan == t.plan;
    forall url | url in g'.visited && url !in g.visited ensures Submitted(c, x, now, url) {}
    forall e: nat, url | Submitted(c, x, e, url) ensures Submitted(c, t, e, url) || url in g'.visited {}
  }

  lemma MoveKeepsClaims(c: Config, g: Shared, n: nat, t: Task, m: Move)
    requires CanMove(g, t, m) && TaskShape(g.cancelled, t) && !Launches(t, m)
    ensures KeepsClaims(c, g, t, SharedAfter(c, g, t, m), TaskAfter(c, g, n, t, m))
  {
    if m.Act? {
      forall url | Claimed(t, url)
        ensures Claimed(TaskAfter(c, g, n, t, m), url) || Full(c, SharedAfter(c, g, t, m))
      {
        ActKeepsClaim(c, g, n, t, url);
      }
    } else {
      hide ActPhase, ActShared;
    }
  }

  lemma ActKeepsClaim(c: Config, g: Shared, n: nat, t: Task, url: string)
    requires CanMove(g, t, Act) && !Launches(t, Act) && Claimed(t, url)
    ensures Claimed(TaskAfter(c, g, n, t, Act), url) || Full(c, SharedAfter(c, g, t, Act))
  {
    hide Resolved;
  }

  lemma MoveKind(c: Config, g: Shared, n: nat, t: Task, m: Move)
    requires CanMove(g, t, m) && KindOk(c, t)
    ensures KindOk(c, TaskAfter(c, g, n, t, m))
  {
  }

  // ---------- one step ----------

  lemma StepPerforms(c: Config, s: State, i: nat, m: Move)
    requires Shape(s) && Performed(c, s) && Sourced(c, s) && Enabled(c, s, Go(i, m))
    ensures Performed(c, Apply(c, s, Go(i, m))) && Sourced(c, Apply(c, s, Go(i, m)))
  {
    hide Apply, TaskAfter, SharedAfter, Submitted;
    var s' := Apply(c, s, Go(i, m));
    StepFrame(c, s, i, m);
    assert TaskShape(s.g.cancelled, s.tasks[i]);
    MoveSubmits(c, s.g, |s.tasks|, s.tasks[i], m);
    forall k, e: nat, url | 0 <= k < |s'.tasks| && Submitted(c, s'.tasks[k], e, url) ensures url in s'.g.visited {
      if k == |s.tasks| { NothingSubmitted(c, s.g, s'.tasks[k].url, s'.tasks[k].isSpec, e, url); }
      assert k < |s.tasks| && (k != i ==> s'.tasks[k] == s.tasks[k]);
    }
    forall url | url in s'.g.visited
      ensures exists k, e: nat | 0 <= k < |s'.tasks| :: Submitted(c, s'.tasks[k], e, url)
    {
      if url in s.g.visited {
        var k, e: nat :| 0 <= k < |s.tasks| && Submitted(c, s.tasks[k], e, url);
        assert Submitted(c, s'.tasks[k], e, url);
      } else {
        var e: nat :| Submitted(c, s'.tasks[i], e, url);
      }
    }
  }

  lemma NothingSubmitted(c: Config, g: Shared, url: string, spec: bool, e: nat, any: string)
    ensures !Submitted(c, NewTask(g, url, spec), e, any)
  {
  }

  lemma StepCovers(c: Config, s: State, i: nat, m: Move)
    requires Shape(s) && Covered(c, s) && Enabled(c, s, Go(i, m)) && !Launches(s.tasks[i], m)
    ensures Covered(c, Apply(c, s, Go(i, m)))
  {
    hide Apply, TaskAfter, SharedAfter, Claimed, Submitted;
    var s' := Apply(c, s, Go(i, m));
    StepFrame(c, s, i, m);
    assert TaskShape(s.g.cancelled, s.tasks[i]);
    MoveSubmits(c, s.g, |s.tasks|, s.tasks[i], m);
    MoveKeepsClaims(c, s.g, |s.tasks|, s.tasks[i], m);
    forall url | url in s'.g.visited
      ensures Full(c, s'.g) || exists k | 0 <= k < |s'.tasks| :: Claimed(s'.tasks[k], url)
    {
      if url in s.g.visited && !Full(c, s.g) {
        var k :| 0 <= k < |s.tasks| && Claimed(s.tasks[k], url);
        assert k != i ==> s'.tasks[k] == s.tasks[k];
      }
    }
  }

  // The task launched takes over the claim of the submission that launched it.
  lemma LaunchCovers(c: Config, s: State, i: nat, m: Move)
    requires Covered(c, s) && Enabled(c, s, Go(i, m)) && Launches(s.tasks[i], m)
    ensures Covered(c, Apply(c, s, Go(i, m)))
  {
    var s' := Apply(c, s, Go(i, m));
    var n := |s.tasks|;
    var t := s.tasks[i];
    assert s'.tasks[n] == NewTask(s.g, t.phase.sub.url, t.phase.sub.spec) && s'.g == s.g;
    hide Apply, Enabled;
    assert Claimed(s'.tasks[n], t.phase.sub.url);
    assert forall url | Claimed(t, url) :: Claimed(s'.tasks[i], url) || url == t.phase.sub.url;
    forall url | url in s'.g.visited
      ensures Full(c, s'.g) || exists k | 0 <= k < |s'.tasks| :: Claimed(s'.tasks[k], url)
    {
      if !Full(c, s.g) && url != t.phase.sub.url {
        var k :| 0 <= k < |s.tasks| && Claimed(s.tasks[k], url);
        assert k != i ==> s'.tasks[k] == s.tasks[k];
      }
    }
  }

  lemma StepKinds(c: Config, s: State, i: nat, m: Move)
    requires Kinds(c, s) && Enabled(c, s, Go(i, m))
    ensures Kinds(c, Apply(c, s, Go(i, m)))
  {
    MoveKind(c, s.g, |s.tasks|, s.tasks[i], m);
    hide TaskAfter, SharedAfter;
  }

  // ---------- every run ----------

  lemma StepCoverage(c: Config, s: State, step: Step)
    requires Shape(s) && Coverage(c, s) && Enabled(c, s, step)
    ensures Coverage(c, Apply(c, s, step))
  {
    match step
    case Cancel =>
    case Go(i, m) =>
      hide Apply, Enabled, Shape, Performed, Sourced, Covered, Kinds;
      StepPerforms(c, s, i, m);
      StepKinds(c, s, i, m);
      if Launches(s.tasks[i], m) { LaunchCovers(c, s, i, m); } else { StepCovers(c, s, i, m); }
  }

  lemma {:induction false} RunCoverage(c: Config, seeds: seq<Action>, run: seq<State>, i: nat)
    requires IsRun(c, seeds, run) && i < |run|
    ensures Coverage(c, run[i])
  {
    if i == 0 {
    } else {
      RunCoverage(c, seeds, run, i - 1);
      RunShape(c, seeds, run, i - 1);
      var step := StepTo(c, seeds, run, i);
      hide IsRun, Coverage, Shape, Enabled, Apply;
      StepCoverage(c, run[i - 1], step);
    }
  }

  // The URLs accepted so far are those of the submissions carried out so far,
  // and each task crawls one of them, as a spec exactly if its path says so.
  lemma VisitedMeansSubmitted(c: Config, seeds: seq<Action>, run: seq<State>, i: nat)
    requires IsRun(c, seeds, run) && i < |run|
    ensures forall url :: url in run[i].g.visited <==>
              exists j, e: nat | 0 <= j < |run[i].tasks| :: Submitted(c, run[i].tasks[j], e, url)
    ensures forall k | 0 < k < |run[i].tasks| :: run[i].tasks[k].url in run[i].g.visited
    ensures forall k | 0 < k < |run[i].tasks| :: run[i].tasks[k].isSpec == c.isSpec(run[i].tasks[k].url)
  {
    RunCoverage(c, seeds, run, i);
    RunShape(c, seeds, run, i);
    AcceptedOnce(c, seeds, run, i);
    hide IsRun, Submitted;
    var s := run[i];
    forall k | 0 < k < |s.tasks| ensures s.tasks[k].isSpec == c.isSpec(s.tasks[k].url) {
      assert !s.tasks[k].root && KindOk(c, s.tasks[k]);
    }
  }

  // Every URL with a page is the canonical form of a submission in the program
  // of some task.
  lemma PagesWereSubmitted(c: Config, seeds: seq<Action>, run: seq<State>, i: nat, p: nat)
    returns (j: nat, e: nat)
    requires IsRun(c, seeds, run) && i < |run| && p < |run[i].pages|
    ensures j < |run[i].tasks| && e < |run[i].tasks[j].plan| && run[i].tasks[j].plan[e].Submit?
    ensures c.canon(run[i].tasks[j].plan[e].raw, run[i].tasks[j].plan[e].depth) == Some(run[i].pages[p].url)
  {
    RunInv(c, seeds, run, i);
    VisitedMeansSubmitted(c, seeds, run, i);
    var s := run[i];
    var k := s.pages[p].task;
    assert TaskShape(s.g.cancelled, s.tasks[k]) && s.tasks[k].emitted && k > 0;
    var x, y: nat :| 0 <= x < |s.tasks| && Submitted(c, s.tasks[x], y, s.pages[p].url);
    j, e := x, y;
  }

  // ---------- an uncancelled crawl that is through ----------

  lemma FinishedIsExecuted(c: Config, seeds: seq<Action>, run: seq<State>, i: nat, j: nat, e: nat, url: string)
    requires IsRun(c, seeds, run) && i < |run| && run[i].g.pending == 0
    requires j < |run[i].tasks| && e < |run[i].tasks[j].plan| && run[i].tasks[j].plan[e].Submit?
    requires c.canon(run[i].tasks[j].plan[e].raw, run[i].tasks[j].plan[e].depth) == Some(url)
    ensures url in run[i].g.visited
  {
    PendingCountsOutstanding(c, seeds, run, i);
    assert !Outstanding(run[i].tasks[j]);
    assert Submitted(c, run[i].tasks[j], e, url);
    VisitedMeansSubmitted(c, seeds, run, i);
  }

  // With the cap full and nothing outstanding there are exactly maxPages tasks.
  lemma FullMeansCapReached(c: Config, seeds: seq<Action>, run: seq<State>, i: nat)
    requires IsRun(c, seeds, run) && i < |run| && run[i].g.pending == 0 && Full(c, run[i].g)
    ensures |run[i].tasks| - 1 == c.maxPages
  {
    RunInv(c, seeds, run, i);
    PendingCountsOutstanding(c, seeds, run, i);
    var s := run[i];
    var rest := s.tasks[1..];
    forall k | 0 <= k < |rest| ensures Admitted()(rest[k]) == 1 {
      assert rest[k] == s.tasks[k + 1] && !Outstanding(s.tasks[k + 1]);
    }
    assert !Outstanding(s.tasks[0]);
    SumOfOnes(rest, Admitted());
    assert Sum(s.tasks, Admitted()) == Admitted()(s.tasks[0]) + Sum(rest, Admitted());
  }

  lemma {:induction false} SumOfOnes<T>(s: seq<T>, f: T -> int)
    requires forall i | 0 <= i < |s| :: f(s[i]) == 1
    ensures Sum(s, f) == |s|
  {
    if s != [] {
      forall i | 0 <= i < |s[1..]| ensures f(s[1..][i]) == 1 { assert s[1..][i] == s[i + 1]; }
      SumOfOnes(s[1..], f);
    }
  }

  // Whatever a program submits gets a page; under a page cap it gets a page or
  // the cap is full to the last place.
  lemma SubmissionsGetPages(c: Config, seeds: seq<Action>, run: seq<State>, i: nat, j: nat, e: nat, url: string)
    requires IsRun(c, seeds, run) && i < |run| && !run[i].g.cancelled && run[i].g.pending == 0
    requires j < |run[i].tasks| && e < |run[i].tasks[j].plan| && run[i].tasks[j].plan[e].Submit?
    requires c.canon(run[i].tasks[j].plan[e].raw, run[i].tasks[j].plan[e].depth) == Some(url)
    ensures (exists p | 0 <= p < |run[i].pages| :: run[i].pages[p].url == url)
         || (c.maxPages > 0 && |run[i].tasks| - 1 == c.maxPages)
  {
    FinishedIsExecuted(c, seeds, run, i, j, e, url);
    RunCoverage(c, seeds, run, i);
    if Full(c, run[i].g) {
      FullMeansCapReached(c, seeds, run, i);
    } else {
      var s := run[i];
      var k :| 0 <= k < |s.tasks| && Claimed(s.tasks[k], url);
      PendingCountsOutstanding(c, seeds, run, i);
      assert !Outstanding(s.tasks[k]);
      RunShape(c, seeds, run, i);
      EveryUrlGetsAPage(c, seeds, run, i, k);
    }
  }

  // ---------- what a page yielded is what is carried out ----------

  predicate HasPlan(t: Task) { !t.phase.Sending? && !t.phase.Buffered? && !t.phase.Ready? }

  lemma MoveKeepsPlan(c: Config, g: Shared, n: nat, t: Task, m: Move)
    requires CanMove(g, t, m) && HasPlan(t) && !g.cancelled
    ensures HasPlan(TaskAfter(c, g, n, t, m)) && TaskAfter(c, g, n, t, m).plan == t.plan
  {
    hide Resolved;
  }

  lemma {:induction false} PlanStays(c: Config, seeds: seq<Action>, run: seq<State>, i: nat, k: nat, j: nat)
    requires IsRun(c, seeds, run) && i <= k < |run| && !run[k].g.cancelled
    requires j < |run[i].tasks| && HasPlan(run[i].tasks[j])
    ensures !run[i].g.cancelled && j < |run[k].tasks|
    ensures HasPlan(run[k].tasks[j]) && run[k].tasks[j].plan == run[i].tasks[j].plan
    decreases k - i
  {
    hide IsRun, HasPlan, Enabled, Apply;
    if i < k {
      var step := StepTo(c, seeds, run, k);
      StepKeepsLive(c, run[k - 1], step);
      PlanStays(c, seeds, run, i, k - 1, j);
      StepKeepsPlan(c, run[k - 1], step, j);
    }
  }

  lemma StepKeepsPlan(c: Config, s: State, step: Step, j: nat)
    requires Enabled(c, s, step) && step.Go? && !s.g.cancelled && j < |s.tasks| && HasPlan(s.tasks[j])
    ensures var s' := Apply(c, s, step);
            j < |s'.tasks| && HasPlan(s'.tasks[j]) && s'.tasks[j].plan == s.tasks[j].plan
  {
    StepFrame(c, s, step.i, step.m);
    hide Apply, TaskAfter, SharedAfter, HasPlan;
    if step.i == j { MoveKeepsPlan(c, s.g, |s.tasks|, s.tasks[j], step.m); }
  }

  lemma StepKeepsLive(c: Config, s: State, step: Step)
    requires Enabled(c, s, step) && !Apply(c, s, step).g.cancelled
    ensures step.Go? && !s.g.cancelled
  {
    if step.Go? { MoveIdentity(c, s.g, |s.tasks|, s.tasks[step.i], step.m); }
    hide TaskAfter, SharedAfter;
  }

  // Every submission a fetched page yields, or the caller seeds, gets its page.
  lemma FetchedSubmissionsGetPages(
    c: Config, seeds: seq<Action>, run: seq<State>, w: nat, j: nat, plan: seq<Action>, i: nat, e: nat, url: string)
    requires IsRun(c, seeds, run) && w < i < |run| && !run[i].g.cancelled && run[i].g.pending == 0
    requires Enabled(c, run[w], Go(j, Fetch(plan))) && run[w + 1] == Apply(c, run[w], Go(j, Fetch(plan)))
    requires e < |plan| && plan[e].Submit? && c.canon(plan[e].raw, plan[e].depth) == Some(url)
    ensures (exists p | 0 <= p < |run[i].pages| :: run[i].pages[p].url == url)
         || (c.maxPages > 0 && |run[i].tasks| - 1 == c.maxPages)
  {
    PlanStays(c, seeds, run, w + 1, i, j);
    SubmissionsGetPages(c, seeds, run, i, j, e, url);
  }

  lemma SeedsGetPages(c: Config, seeds: seq<Action>, run: seq<State>, i: nat, e: nat, url: string)
    requires IsRun(c, seeds, run) && i < |run| && !run[i].g.cancelled && run[i].g.pending == 0
    requires e < |seeds| && c.canon(seeds[e].raw, seeds[e].depth) == Some(url)
    ensures (exists p | 0 <= p < |run[i].pages| :: run[i].pages[p].url == url)
         || (c.maxPages > 0 && |run[i].tasks| - 1 == c.maxPages)
  {
    PlanStays(c, seeds, run, 0, i, 0);
    assert seeds[e] in seeds;
    SubmissionsGetPages(c, seeds, run, i, 0, e, url);
  }
}
