/** A crawl with a page cap ends: how many moves its goroutines can make. */
module CrawlBounds {
  import opened Sums
  import opened CrawlProtocol
  import opened CrawlMoves
  import opened CrawlInvariant
  import opened CrawlTheorems

  // ---------- what one task may still do ----------

  function ActionsLeft(rest: nat, sub: Submission): nat {
    5 * rest + match sub
      case Idle => 0
      case Launching(_, _) => 1
      case Guarding(_) => 2
      case Opening(_) => 3
      case Counting(_) => 4
  }

  // Moves the task has left when a fetch yields at most `longest` actions.
  function Left(longest: nat): Task -> int {
    (t: Task) =>
      match t.phase
      case Over => 0
      case Closing => 1
      case Finishing => 2
      case Unguarding => 3
      case Acting(rest, sub) => 4 + ActionsLeft(|rest|, sub)
      case Posting => 5 + 5 * |t.plan|
      case Taking => 6 + 5 * |t.plan|
      case Waiting => 7 + 5 * |t.plan|
      case Ready => 8 + 5 * longest
      case Buffered => 9 + 5 * longest
      case Sending => 10 + 5 * longest
  }

  lemma MoveDropsLeft(c: Config, g: Shared, n: nat, t: Task, m: Move, longest: nat)
    requires CanMove(g, t, m) && (m.Fetch? ==> |m.plan| <= longest)
    ensures Left(longest)(TaskAfter(c, g, n, t, m)) < Left(longest)(t)
  {
    hide Resolved;
  }

  // What the tasks have left, and what the tasks the cap still allows would have.
  ghost function Rank(c: Config, s: State, longest: nat): int {
    (c.maxPages + 1 - |s.tasks|) * (10 + 5 * longest) + Sum(s.tasks, Left(longest))
  }

  lemma OneLess(n: int, w: int)
    ensures (n - 1) * w == n * w - w
  {
  }

  lemma StepDropsRank(c: Config, s: State, i: nat, m: Move, longest: nat)
    requires Enabled(c, s, Go(i, m)) && (m.Fetch? ==> |m.plan| <= longest)
    ensures Rank(c, Apply(c, s, Go(i, m)), longest) < Rank(c, s, longest)
  {
    hide TaskAfter, SharedAfter, CanMove, Left;
    var t := s.tasks[i];
    var x := TaskAfter(c, s.g, |s.tasks|, t, m);
    MoveDropsLeft(c, s.g, |s.tasks|, t, m, longest);
    SumUpdate(s.tasks, i, x, Left(longest));
    if Launches(t, m) {
      var launched := NewTask(s.g, t.phase.sub.url, t.phase.sub.spec);
      NewTaskLeft(s.g, t.phase.sub.url, t.phase.sub.spec, longest);
      SumAppend(s.tasks[i := x], launched, Left(longest));
      OneLess(c.maxPages + 1 - |s.tasks|, 10 + 5 * longest);
    } else {
      assert Apply(c, s, Go(i, m)).tasks == s.tasks[i := x];
    }
  }

  lemma NewTaskLeft(g: Shared, url: string, spec: bool, longest: nat)
    ensures Left(longest)(NewTask(g, url, spec)) <= 10 + 5 * longest
  {
  }

  // ---------- whole runs ----------

  /** The run is the one these steps make. */
  ghost predicate Follows(c: Config, run: seq<State>, steps: seq<Step>) {
    && |run| == |steps| + 1
    && forall i | 0 <= i < |steps| :: Enabled(c, run[i], steps[i]) && run[i + 1] == Apply(c, run[i], steps[i])
  }

  ghost predicate PlansWithin(steps: seq<Step>, longest: nat) {
    forall i | 0 <= i < |steps| && steps[i].Go? && steps[i].m.Fetch? :: |steps[i].m.plan| <= longest
  }

  // One for every step of a goroutine; cancelling is not one.
  function Moved(): Step -> int { (step: Step) => if step.Go? then 1 else 0 }

  lemma {:induction false} MovesSpendRank(
    c: Config, seeds: seq<Action>, run: seq<State>, steps: seq<Step>, k: nat, longest: nat)
    requires IsRun(c, seeds, run) && Follows(c, run, steps) && PlansWithin(steps, longest) && k <= |steps|
    ensures Sum(steps[..k], Moved()) + Rank(c, run[k], longest) <= Rank(c, run[0], longest)
  {
    if k == 0 {
      assert steps[..0] == [];
    } else {
      MovesSpendRank(c, seeds, run, steps, k - 1, longest);
      assert steps[..k] == steps[..k - 1] + [steps[k - 1]];
      SumAppend(steps[..k - 1], steps[k - 1], Moved());
      var before, step := run[k - 1], steps[k - 1];
      assert Enabled(c, before, step) && run[k - 1 + 1] == Apply(c, before, step);
      if step.Go? {
        hide Rank, IsRun, Enabled, Apply;
        StepDropsRank(c, before, step.i, step.m, longest);
      }
    }
  }

  lemma Products(m: nat, n: nat)
    ensures m * n >= 0
  {
  }

  lemma RankNonNegative(c: Config, seeds: seq<Action>, run: seq<State>, i: nat, longest: nat)
    requires IsRun(c, seeds, run) && i < |run| && c.maxPages > 0
    ensures Rank(c, run[i], longest) >= 0
  {
    PageCapHolds(c, seeds, run, i);
    hide IsRun;
    SumDominates(run[i].tasks, Left(longest));
    Products(c.maxPages + 1 - |run[i].tasks|, 10 + 5 * longest);
  }

  // With a page cap, no interleaving makes more moves than this, whatever the
  // fetches yield and whenever the crawl is cancelled.
  lemma CrawlIsBounded(c: Config, seeds: seq<Action>, run: seq<State>, steps: seq<Step>, longest: nat)
    requires IsRun(c, seeds, run) && Follows(c, run, steps) && PlansWithin(steps, longest) && c.maxPages > 0
    ensures Sum(steps, Moved()) <= 5 * |seeds| + 4 + c.maxPages * (10 + 5 * longest)
  {
    MovesSpendRank(c, seeds, run, steps, |steps|, longest);
    RankNonNegative(c, seeds, run, |steps|, longest);
    assert steps[..|steps|] == steps;
    InitialRank(c, seeds, longest);
  }

  lemma InitialRank(c: Config, seeds: seq<Action>, longest: nat)
    ensures Rank(c, Init(seeds), longest) == 5 * |seeds| + 4 + c.maxPages * (10 + 5 * longest)
  {
    assert Left(longest)(Init(seeds).tasks[0]) == 4 + 5 * |seeds|;
    assert Sum(Init(seeds).tasks[1..], Left(longest)) == 0;
  }

  // ---------- the pool and the channel ----------

  // A worker of the pool holds the task from its receipt to its end.
  lemma HeldMeans(t: Task)
    ensures Held()(t) == 1 <==>
            !t.root && !t.isSpec && !t.phase.Sending? && !t.phase.Buffered? && !t.phase.Over?
    ensures InBuffer()(t) == 1 <==> t.phase.Buffered?
    ensures Held()(t) == 1 || Held()(t) == 0
    ensures InBuffer()(t) == 1 || InBuffer()(t) == 0
  {
  }

  lemma MoveHolds(c: Config, g: Shared, n: nat, t: Task, m: Move)
    requires CanMove(g, t, m) && !g.cancelled && TaskShape(g.cancelled, t)
    ensures Held()(TaskAfter(c, g, n, t, m)) <= Held()(t) + One(m.Receive?)
    ensures InBuffer()(TaskAfter(c, g, n, t, m)) <= InBuffer()(t) + One(m.Send?)
  {
    hide Resolved;
  }

  lemma StepHolds(c: Config, s: State, i: nat, m: Move)
    requires Shape(s) && Enabled(c, s, Go(i, m)) && !s.g.cancelled
    requires Sum(s.tasks, Held()) <= c.workers && Sum(s.tasks, InBuffer()) <= 2 * c.workers
    ensures var s' := Apply(c, s, Go(i, m));
            Sum(s'.tasks, Held()) <= c.workers && Sum(s'.tasks, InBuffer()) <= 2 * c.workers
  {
    hide TaskAfter, SharedAfter, CanMove;
    var t := s.tasks[i];
    var x := TaskAfter(c, s.g, |s.tasks|, t, m);
    assert TaskShape(s.g.cancelled, t);
    MoveHolds(c, s.g, |s.tasks|, t, m);
    SumUpdate(s.tasks, i, x, Held());
    SumUpdate(s.tasks, i, x, InBuffer());
    if Launches(t, m) {
      var launched := NewTask(s.g, t.phase.sub.url, t.phase.sub.spec);
      SumAppend(s.tasks[i := x], launched, Held());
      SumAppend(s.tasks[i := x], launched, InBuffer());
    } else {
      assert Apply(c, s, Go(i, m)).tasks == s.tasks[i := x];
    }
  }

  // Until it is cancelled, a crawl has at most `workers` pages in hand outside
  // spec tasks, and at most twice as many waiting in the channel.
  lemma {:induction false} PoolHolds(c: Config, seeds: seq<Action>, run: seq<State>, i: nat)
    requires IsRun(c, seeds, run) && i < |run| && !run[i].g.cancelled
    ensures Sum(run[i].tasks, Held()) <= c.workers && Sum(run[i].tasks, InBuffer()) <= 2 * c.workers
  {
    hide Enabled, Apply, Shape;
    if i == 0 {
      InitHolds(seeds);
    } else {
      hide IsRun;
      var step := StepTo(c, seeds, run, i);
      StaysCancelled(c, run[i - 1], step);
      PoolHolds(c, seeds, run, i - 1);
      RunShape(c, seeds, run, i - 1);
      StepHolds(c, run[i - 1], step.i, step.m);
    }
  }

  lemma InitHolds(seeds: seq<Action>)
    ensures Sum(Init(seeds).tasks, Held()) == 0 && Sum(Init(seeds).tasks, InBuffer()) == 0
  {
    assert Init(seeds).tasks[1..] == [];
  }

  lemma StaysCancelled(c: Config, s: State, step: Step)
    requires Enabled(c, s, step)
    ensures s.g.cancelled || step.Cancel? ==> Apply(c, s, step).g.cancelled
  {
    if step.Go? { MoveIdentity(c, s.g, |s.tasks|, s.tasks[step.i], step.m); }
    hide TaskAfter, SharedAfter;
  }
}
