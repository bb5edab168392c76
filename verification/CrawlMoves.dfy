/** What one move does to its own task and to the shared state. */
module CrawlMoves {
  import opened CrawlProtocol

  predicate SameIdentity(t: Task, x: Task) {
    x.root == t.root && x.url == t.url && x.isSpec == t.isSpec && x.born == t.born
  }

  lemma MoveIdentity(c: Config, g: Shared, n: nat, t: Task, m: Move)
    requires CanMove(g, t, m)
    ensures SameIdentity(t, TaskAfter(c, g, n, t, m)) && SharedAfter(c, g, t, m).cancelled == g.cancelled
    ensures Launches(t, m) ==>
              TaskAfter(c, g, n, t, m) == t.(phase := Acting(t.phase.rest, Idle)) && SharedAfter(c, g, t, m) == g
  {
  }

  function Cap(c: Config, queued: int): int { if queued < c.maxPages then queued else c.maxPages }

  // What a move does to the counters matches what it does to its task.
  ghost predicate Accounted(c: Config, g: Shared, t: Task, g': Shared, x: Task) {
    && g'.pending - g.pending == Slot()(x) - Slot()(t)
    && g'.specs - g.specs == Guard()(x) - Guard()(t)
    && Closer()(x) - Closer()(t) + One(g'.closed) - One(g.closed) == One(g'.pending == 0) - One(g.pending == 0)
    && 0 <= g'.queued
    && (c.maxPages > 0 ==> Admitted()(x) - Admitted()(t) == Cap(c, g'.queued) - Cap(c, g.queued))
  }

  lemma MoveAccounted(c: Config, g: Shared, n: nat, t: Task, m: Move)
    requires CanMove(g, t, m) && TaskShape(g.cancelled, t) && !Launches(t, m)
    requires g.pending >= Slot()(t) && 0 <= g.queued
    requires g.closed ==> g.pending == 0
    requires t.phase.Closing? ==> g.pending == 0 && !g.closed
    ensures Accounted(c, g, t, SharedAfter(c, g, t, m), TaskAfter(c, g, n, t, m))
  {
    hide Accounted;
    if m.Act? { ActAccounted(c, g, n, t); } else { OtherAccounted(c, g, n, t, m); }
  }

  lemma OtherAccounted(c: Config, g: Shared, n: nat, t: Task, m: Move)
    requires CanMove(g, t, m) && TaskShape(g.cancelled, t) && !m.Act?
    requires g.pending >= Slot()(t) && 0 <= g.queued
    requires g.closed ==> g.pending == 0
    requires t.phase.Closing? ==> g.pending == 0 && !g.closed
    ensures Accounted(c, g, t, SharedAfter(c, g, t, m), TaskAfter(c, g, n, t, m))
  {
    hide Cap, ActPhase, ActShared;
  }

  lemma ActAccounted(c: Config, g: Shared, n: nat, t: Task)
    requires CanMove(g, t, Act) && !Launches(t, Act)
    requires g.pending >= Slot()(t) && 0 <= g.queued
    requires g.closed ==> g.pending == 0
    ensures Accounted(c, g, t, SharedAfter(c, g, t, Act), TaskAfter(c, g, n, t, Act))
  {
    ActSlots(c, g, n, t);
    ActGuards(c, g, n, t);
    ActAdmits(c, g, n, t);
    hide TaskAfter, SharedAfter, Cap;
  }

  lemma ActSlots(c: Config, g: Shared, n: nat, t: Task)
    requires CanMove(g, t, Act) && !Launches(t, Act) && g.pending >= Slot()(t) && (g.closed ==> g.pending == 0)
    ensures var g', x := SharedAfter(c, g, t, Act), TaskAfter(c, g, n, t, Act);
            && g'.pending - g.pending == Slot()(x) - Slot()(t)
            && Closer()(x) == Closer()(t) && g'.closed == g.closed && g.pending > 0 && g'.pending > 0
  {
    hide Resolved;
  }

  lemma ActGuards(c: Config, g: Shared, n: nat, t: Task)
    requires CanMove(g, t, Act) && !Launches(t, Act)
    ensures var g', x := SharedAfter(c, g, t, Act), TaskAfter(c, g, n, t, Act);
            g'.specs - g.specs == Guard()(x) - Guard()(t)
  {
    hide Resolved;
  }

  lemma ActAdmits(c: Config, g: Shared, n: nat, t: Task)
    requires CanMove(g, t, Act) && !Launches(t, Act) && 0 <= g.queued
    ensures var g', x := SharedAfter(c, g, t, Act), TaskAfter(c, g, n, t, Act);
            && 0 <= g'.queued
            && (c.maxPages > 0 ==> Admitted()(x) - Admitted()(t) == Cap(c, g'.queued) - Cap(c, g.queued))
  {
    hide Resolved;
  }

  lemma MoveClaimed(c: Config, g: Shared, n: nat, t: Task, m: Move, url: string)
    requires CanMove(g, t, m) && !Launches(t, m)
    ensures Claim(url)(TaskAfter(c, g, n, t, m)) - Claim(url)(t)
         <= One(url in SharedAfter(c, g, t, m).visited) - One(url in g.visited)
  {
    if m.Act? { ActClaimed(c, g, n, t, url); }
  }

  lemma ActClaimed(c: Config, g: Shared, n: nat, t: Task, url: string)
    requires CanMove(g, t, Act) && !Launches(t, Act)
    ensures Claim(url)(TaskAfter(c, g, n, t, Act)) - Claim(url)(t)
         <= One(url in SharedAfter(c, g, t, Act).visited) - One(url in g.visited)
  {
  }

  lemma MoveShape(c: Config, g: Shared, n: nat, t: Task, m: Move)
    requires CanMove(g, t, m) && TaskShape(g.cancelled, t)
    ensures TaskShape(g.cancelled, TaskAfter(c, g, n, t, m))
  {
    if m.Act? { ActKeepsShape(c, g, n, t); }
  }

  lemma ActKeepsShape(c: Config, g: Shared, n: nat, t: Task)
    requires CanMove(g, t, Act) && TaskShape(g.cancelled, t)
    ensures TaskShape(g.cancelled, TaskAfter(c, g, n, t, Act))
  {
    var x := TaskAfter(c, g, n, t, Act);
    assert x.phase.rest == t.phase.rest || x.phase.rest == t.phase.rest[1..];
  }

  // Only Post emits, and what was attached stays attached.
  ghost predicate Emits(t: Task, x: Task, m: Move) {
    if m.Post? then !t.emitted && x.emitted && x.ops == t.ops
    else x.emitted == t.emitted && (t.emitted ==> x.ops == t.ops)
  }

  lemma MoveEmits(c: Config, g: Shared, n: nat, t: Task, m: Move)
    requires CanMove(g, t, m) && TaskShape(g.cancelled, t)
    ensures Emits(t, TaskAfter(c, g, n, t, m), m)
  {
  }

  // How the logs may change: a record appends, a take moves, nothing else does.
  ghost predicate MapsMove(g: Shared, t: Task, g': Shared, x: Task, m: Move) {
    if m.Take? then
      && g'.recorded == g.recorded && g'.specOps == g.specOps - {t.url}
      && g'.taken == g.taken[t.url := Log(g.taken, t.url) + Log(g.specOps, t.url)]
      && t.phase.Taking? && x == t.(phase := Posting, ops := Log(g.specOps, t.url))
    else
      && g'.taken == g.taken
      && (Quiet(g, t, g', x, m) || Records(g, t, g', x, m))
  }

  ghost predicate Quiet(g: Shared, t: Task, g': Shared, x: Task, m: Move) {
    && g'.recorded == g.recorded && g'.specOps == g.specOps
    && (Executed(x) <= Executed(t)
        || (Executed(x) == Executed(t) + 1 && Executed(t) < |t.plan| && !t.plan[Executed(t)].Record?))
  }

  ghost predicate Records(g: Shared, t: Task, g': Shared, x: Task, m: Move) {
    && m.Act? && Executed(t) < |t.plan| && t.plan[Executed(t)].Record? && Executed(x) == Executed(t) + 1
        && x.plan == t.plan
    && var r := t.plan[Executed(t)];
       && g'.recorded == g.recorded[r.url := Log(g.recorded, r.url) + r.ops]
       && g'.specOps == g.specOps[r.url := Log(g.specOps, r.url) + r.ops]
  }

  lemma MoveMaps(c: Config, g: Shared, n: nat, t: Task, m: Move)
    requires CanMove(g, t, m) && TaskShape(g.cancelled, t)
    ensures MapsMove(g, t, SharedAfter(c, g, t, m), TaskAfter(c, g, n, t, m), m)
  {
    if m.Act? { ActMaps(c, g, n, t); }
  }

  lemma ActMaps(c: Config, g: Shared, n: nat, t: Task)
    requires CanMove(g, t, Act) && TaskShape(g.cancelled, t)
    ensures MapsMove(g, t, SharedAfter(c, g, t, Act), TaskAfter(c, g, n, t, Act), Act)
  {
    if t.phase.sub.Idle? { IdleActMaps(c, g, n, t); }
  }

  lemma IdleActMaps(c: Config, g: Shared, n: nat, t: Task)
    requires CanMove(g, t, Act) && TaskShape(g.cancelled, t) && t.phase.sub.Idle?
    ensures MapsMove(g, t, SharedAfter(c, g, t, Act), TaskAfter(c, g, n, t, Act), Act)
  {
    assert t.phase.rest[0] == t.plan[|t.plan| - |t.phase.rest|];
  }

  // What a move does to the fields the operation invariants speak of.
  ghost predicate OpsMove(g: Shared, n: nat, t: Task, x: Task, m: Move) {
    && (PastTake(x) ==> m.Take? || (PastTake(t) && x.ops == t.ops))
    && (BeforeTake(x) ==> BeforeTake(t))
    && (PastWait(x) ==> if m.Wait? then x.heard == Log(g.recorded, t.url) && x.horizon == if t.isSpec then 0 else n
                        else PastWait(t) && x.heard == t.heard && x.horizon == t.horizon)
    && (t.phase.Finishing? || t.phase.Closing? || t.phase.Over?
        ==> (x.phase.Closing? || x.phase.Over?) && x.plan == t.plan)
    && (0 < Executed(x) ==> x.plan == t.plan)
    && (BeforeWait(x) ==> BeforeWait(t))
  }

  lemma MoveOps(c: Config, g: Shared, n: nat, t: Task, m: Move)
    requires CanMove(g, t, m) && TaskShape(g.cancelled, t)
    ensures OpsMove(g, n, t, TaskAfter(c, g, n, t, m), m)
  {
    if m.Act? { ActOps(c, g, n, t); }
  }

  lemma ActOps(c: Config, g: Shared, n: nat, t: Task)
    requires CanMove(g, t, Act)
    ensures OpsMove(g, n, t, TaskAfter(c, g, n, t, Act), Act)
  {
  }
}
