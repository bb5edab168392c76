/** The crawler's counting protocol (internal/crawler/crawler.go, Crawl and process).

    Task 0 is the goroutine that seeds the crawl; its program is the list of seed
    submissions and it holds the bootstrap slot. Every other task is one accepted
    URL. Each atomic operation of the source (LoadOrStore, Add, channel send,
    mutex section, close) is one step, so submissions interleave freely. What a
    fetch yields is an arbitrary program of record/submit actions. */
module CrawlProtocol {
  import opened Options
  import opened Sums

  datatype Op = Op(id: nat)

  /** What a processed page makes the crawler do: stash a spec's operations under
      a URL, or submit a URL at a depth. */
  datatype Action = Record(url: string, ops: seq<Op>) | Submit(raw: string, depth: int)

  /** Where a submission is between its atomic operations. */
  datatype Submission =
    | Idle
    | Counting(url: string)
    | Opening(url: string)
    | Guarding(url: string)
    | Launching(url: string, spec: bool)

  datatype Phase =
    | Sending
    | Buffered
    | Ready
    | Waiting
    | Taking
    | Posting
    | Acting(rest: seq<Action>, sub: Submission)
    | Unguarding
    | Finishing
    | Closing
    | Over

  /** `plan` is the program the task runs after emitting its page; `ops` what it
      attached to the page. Ghost history: `born` is what had been recorded for
      the URL when the task was launched, `heard` when its page passed the wait
      (with `horizon` tasks launched by then). */
  datatype Task = Task(
    root: bool, url: string, isSpec: bool, phase: Phase,
    plan: seq<Action>, ops: seq<Op>, emitted: bool,
    born: seq<Op>, heard: seq<Op>, horizon: nat)

  datatype Page = Page(task: nat, url: string, ops: seq<Op>)

  /** `canon` is depth gate, parse, scheme check, scope and fragment removal in
      one: None when the submission is dropped. */
  datatype Config = Config(canon: (string, int) -> Option<string>, isSpec: string -> bool, maxPages: int, workers: nat)

  /** What the goroutines share. `recorded` and `taken` are ghost logs per URL. */
  datatype Shared = Shared(
    pending: int, closed: bool, queued: int, visited: set<string>, specs: int,
    specOps: map<string, seq<Op>>, recorded: map<string, seq<Op>>, taken: map<string, seq<Op>>,
    cancelled: bool)

  datatype State = State(g: Shared, tasks: seq<Task>, pages: seq<Page>)

  /** One atomic move of one task. */
  datatype Move =
    | Send
    | Drop
    | Receive
    | Fetch(plan: seq<Action>)
    | Skip
    | Wait
    | Take
    | Post
    | Abandon
    | Act
    | Leave
    | Unguard
    | Finish
    | Close

  datatype Step = Cancel | Go(i: nat, m: Move)

  function Log(m: map<string, seq<Op>>, url: string): seq<Op> { if url in m then m[url] else [] }

  function Init(seeds: seq<Action>): State {
    State(Shared(1, false, 0, {}, 0, map[], map[], map[], false),
          [Task(true, "", false, Acting(seeds, Idle), seeds, [], false, [], [], 0)], [])
  }

  // ---------- one task ----------

  predicate CanMove(g: Shared, t: Task, m: Move) {
    match m
    case Send => t.phase.Sending?
    case Drop => t.phase.Sending? && g.cancelled
    case Receive => t.phase.Buffered?
    case Fetch(_) => t.phase.Ready?
    case Skip => t.phase.Ready? && t.isSpec && g.cancelled
    case Wait => t.phase.Waiting? && (t.isSpec || g.specs == 0)
    case Take => t.phase.Taking?
    case Post => t.phase.Posting?
    case Abandon => t.phase.Posting? && g.cancelled
    case Act => t.phase.Acting? && !(t.phase.rest == [] && t.phase.sub.Idle?)
    case Leave => t.phase == Acting([], Idle)
    case Unguard => t.phase.Unguarding?
    case Finish => t.phase.Finishing?
    case Close => t.phase.Closing?
  }

  // After process() returns: a spec goroutine calls Done, then everyone finishes.
  function Returned(t: Task): Phase { if t.isSpec then Unguarding else Finishing }

  function Resolved(c: Config, g: Shared, a: Action): Option<string> {
    if a.Record? then None
    else
      var url := c.canon(a.raw, a.depth);
      if url.Some? && url.value !in g.visited then url else None
  }

  function ActPhase(c: Config, g: Shared, t: Task): Phase
    requires CanMove(g, t, Act)
  {
    var rest := t.phase.rest;
    match t.phase.sub
    case Counting(url) => Acting(rest, if c.maxPages > 0 && g.queued + 1 > c.maxPages then Idle else Opening(url))
    case Opening(url) => Acting(rest, if c.isSpec(url) then Guarding(url) else Launching(url, false))
    case Guarding(url) => Acting(rest, Launching(url, true))
    case Launching(_, _) => Acting(rest, Idle)
    case Idle =>
      var url := Resolved(c, g, rest[0]);
      Acting(rest[1..], if url.Some? then Counting(url.value) else Idle)
  }

  function ActShared(c: Config, g: Shared, t: Task): Shared
    requires CanMove(g, t, Act)
  {
    match t.phase.sub
    case Counting(_) => if c.maxPages > 0 then g.(queued := g.queued + 1) else g
    case Opening(_) => g.(pending := g.pending + 1)
    case Guarding(_) => g.(specs := g.specs + 1)
    case Launching(_, _) => g
    case Idle =>
      var a := t.phase.rest[0];
      var url := Resolved(c, g, a);
      if a.Record? then
        g.(specOps := g.specOps[a.url := Log(g.specOps, a.url) + a.ops],
           recorded := g.recorded[a.url := Log(g.recorded, a.url) + a.ops])
      else if url.Some? then g.(visited := g.visited + {url.value})
      else g
  }

  function TaskAfter(c: Config, g: Shared, launched: nat, t: Task, m: Move): Task
    requires CanMove(g, t, m)
  {
    match m
    case Send => t.(phase := Buffered)
    case Drop => t.(phase := Finishing)
    case Receive => t.(phase := Ready)
    case Fetch(plan) => t.(phase := Waiting, plan := plan)
    case Skip => t.(phase := Unguarding)
    case Wait => t.(phase := Taking, heard := Log(g.recorded, t.url), horizon := if t.isSpec then 0 else launched)
    case Take => t.(phase := Posting, ops := Log(g.specOps, t.url))
    case Post => t.(phase := Acting(t.plan, Idle), emitted := true)
    case Abandon => t.(phase := Returned(t), plan := [])
    case Act => t.(phase := ActPhase(c, g, t))
    case Leave => t.(phase := Returned(t))
    case Unguard => t.(phase := Finishing)
    case Finish => t.(phase := if g.pending - 1 == 0 then Closing else Over)
    case Close => t.(phase := Over)
  }

  function SharedAfter(c: Config, g: Shared, t: Task, m: Move): Shared
    requires CanMove(g, t, m)
  {
    match m
    case Take =>
      g.(specOps := g.specOps - {t.url}, taken := g.taken[t.url := Log(g.taken, t.url) + Log(g.specOps, t.url)])
    case Act => ActShared(c, g, t)
    case Unguard => g.(specs := g.specs - 1)
    case Finish => g.(pending := g.pending - 1)
    case Close => g.(closed := true)
    case _ => g
  }

  predicate Launches(t: Task, m: Move) { m.Act? && t.phase.Acting? && t.phase.sub.Launching? }

  function NewTask(g: Shared, url: string, spec: bool): Task {
    Task(false, url, spec, if spec then Ready else Sending, [], [], false, Log(g.recorded, url), [], 0)
  }

  // ---------- all tasks ----------

  // A worker of the shared pool is busy with the task.
  function Held(): Task -> int {
    (t: Task) => if !t.root && !t.isSpec && !(t.phase.Sending? || t.phase.Buffered? || t.phase.Over?) then 1 else 0
  }

  function InBuffer(): Task -> int { (t: Task) => if t.phase.Buffered? then 1 else 0 }

  ghost predicate Enabled(c: Config, s: State, step: Step) {
    match step
    case Cancel => true
    case Go(i, m) =>
      && i < |s.tasks| && CanMove(s.g, s.tasks[i], m)
      && (m.Send? ==> Sum(s.tasks, InBuffer()) < 2 * c.workers)
      && (m.Receive? ==> Sum(s.tasks, Held()) < c.workers)
  }

  ghost function Apply(c: Config, s: State, step: Step): State
    requires Enabled(c, s, step)
  {
    match step
    case Cancel => s.(g := s.g.(cancelled := true))
    case Go(i, m) =>
      var t := s.tasks[i];
      State(SharedAfter(c, s.g, t, m),
            s.tasks[i := TaskAfter(c, s.g, |s.tasks|, t, m)]
              + if Launches(t, m) then [NewTask(s.g, t.phase.sub.url, t.phase.sub.spec)] else [],
            s.pages + if m.Post? then [Page(i, t.url, t.ops)] else [])
  }

  ghost predicate Next(c: Config, s: State, s': State) {
    exists step :: Enabled(c, s, step) && s' == Apply(c, s, step)
  }

  ghost predicate IsRun(c: Config, seeds: seq<Action>, run: seq<State>) {
    && (forall a | a in seeds :: a.Submit?)
    && run != [] && run[0] == Init(seeds)
    && forall i | 0 <= i < |run| - 1 :: Next(c, run[i], run[i + 1])
  }

  // ---------- the counters ----------

  // What a task contributes to `pending`: its own slot until its decrement, and
  // the slot it has opened for a task it has not launched yet.
  function Slot(): Task -> int {
    (t: Task) => (if t.phase.Closing? || t.phase.Over? then 0 else 1)
       + (if t.phase.Acting? && (t.phase.sub.Guarding? || t.phase.sub.Launching?) then 1 else 0)
  }

  // What a task contributes to the spec WaitGroup.
  function Guard(): Task -> int {
    (t: Task) => (if t.isSpec && !(t.phase.Finishing? || t.phase.Closing? || t.phase.Over?) then 1 else 0)
       + (if t.phase.Acting? && t.phase.sub.Launching? && t.phase.sub.spec then 1 else 0)
  }

  function Closer(): Task -> int { (t: Task) => if t.phase.Closing? then 1 else 0 }

  // Submissions admitted by the page cap: launched, or past the count.
  function Admitted(): Task -> int {
    (t: Task) => (if t.root then 0 else 1)
       + (if t.phase.Acting? && (t.phase.sub.Opening? || t.phase.sub.Guarding? || t.phase.sub.Launching?) then 1 else 0)
  }

  // A URL is claimed by its task or by the one submission that stored it.
  function Claim(url: string): Task -> int {
    (t: Task) => (if !t.root && t.url == url then 1 else 0)
       + (if t.phase.Acting? && !t.phase.sub.Idle? && t.phase.sub.url == url then 1 else 0)
  }

  function One(b: bool): int { if b then 1 else 0 }

  ghost predicate Counters(c: Config, s: State) {
    && s.g.pending == Sum(s.tasks, Slot())
    && s.g.specs == Sum(s.tasks, Guard())
    && Sum(s.tasks, Closer()) + One(s.g.closed) == One(s.g.pending == 0)
    && 0 <= s.g.queued
    && (c.maxPages > 0 ==> Sum(s.tasks, Admitted()) == if s.g.queued < c.maxPages then s.g.queued else c.maxPages)
  }

  ghost predicate Claims(s: State) {
    forall url: string :: Sum(s.tasks, Claim(url)) <= One(url in s.g.visited)
  }

  // ---------- the tasks ----------

  predicate BeforeWait(t: Task) { t.phase.Sending? || t.phase.Buffered? || t.phase.Ready? || t.phase.Waiting? }

  predicate BeforeTake(t: Task) { BeforeWait(t) || t.phase.Taking? }

  predicate BeforePost(t: Task) { BeforeTake(t) || t.phase.Posting? }

  predicate PastWait(t: Task) { t.emitted || t.phase.Taking? || t.phase.Posting? }

  predicate PastTake(t: Task) { t.emitted || t.phase.Posting? }

  // How many actions of the plan have been carried out.
  function Executed(t: Task): nat {
    match t.phase
    case Acting(rest, _) => if |rest| <= |t.plan| then |t.plan| - |rest| else 0
    case Unguarding => |t.plan|
    case Finishing => |t.plan|
    case Closing => |t.plan|
    case Over => |t.plan|
    case _ => 0
  }

  ghost predicate Shape(s: State) {
    && s.tasks != [] && s.tasks[0].root
    && (forall i | 0 < i < |s.tasks| :: !s.tasks[i].root)
    && (forall i | 0 <= i < |s.tasks| :: TaskShape(s.g.cancelled, s.tasks[i]))
  }

  predicate TaskShape(cancelled: bool, t: Task) {
    && (t.root ==> !BeforePost(t) && !t.isSpec && !t.emitted && forall a | a in t.plan :: a.Submit?)
    && (t.isSpec ==> !t.phase.Sending? && !t.phase.Buffered?)
    && (t.phase.Unguarding? ==> t.isSpec)
    && (BeforePost(t) ==> !t.emitted)
    && (t.phase.Sending? || t.phase.Buffered? || t.phase.Ready? ==> t.plan == [])
    && (t.phase.Acting? ==>
          && |t.phase.rest| <= |t.plan| && t.phase.rest == t.plan[|t.plan| - |t.phase.rest|..]
          && (t.root || t.emitted))
    && (!t.root && !BeforePost(t) && !t.emitted ==> cancelled)
  }

  // One page per emitted task, carrying its URL and operations.
  ghost predicate Pages(s: State) {
    && (forall p | 0 <= p < |s.pages| ::
          s.pages[p].task < |s.tasks| && s.tasks[s.pages[p].task].emitted
          && s.pages[p].url == s.tasks[s.pages[p].task].url && s.pages[p].ops == s.tasks[s.pages[p].task].ops)
    && (forall p, q | 0 <= p < q < |s.pages| :: s.pages[p].task != s.pages[q].task)
    && (forall i | 0 <= i < |s.tasks| && s.tasks[i].emitted :: exists p | 0 <= p < |s.pages| :: s.pages[p].task == i)
  }

  // ---------- the operations ----------

  // Everything recorded for a URL was taken, in order, or is still in the map.
  ghost predicate Conserved(s: State) {
    forall url: string :: Log(s.g.recorded, url) == Log(s.g.taken, url) + Log(s.g.specOps, url)
  }

  // What was taken for a URL is what its task took.
  ghost predicate TakenBy(s: State) {
    && (forall i | 0 <= i < |s.tasks| && !s.tasks[i].root && PastTake(s.tasks[i]) ::
        Log(s.g.taken, s.tasks[i].url) == s.tasks[i].ops)
    && (forall url: string | Log(s.g.taken, url) != [] ::
          exists i | 0 <= i < |s.tasks| :: !s.tasks[i].root && s.tasks[i].url == url && !BeforeTake(s.tasks[i]))
  }

  predicate Within(ops: seq<Op>, log: seq<Op>) { forall op | op in ops :: op in log }

  // The records a task has carried out are in the log.
  ghost predicate Executions(s: State) {
    forall i, k | 0 <= i < |s.tasks| && 0 <= k < Executed(s.tasks[i]) && k < |s.tasks[i].plan|
        && s.tasks[i].plan[k].Record? ::
      Within(s.tasks[i].plan[k].ops, Log(s.g.recorded, s.tasks[i].plan[k].url))
  }

  // born, heard and ops are successive snapshots of the URL's log.
  predicate Snapshot(log: seq<Op>, n: nat, t: Task) {
    && t.born <= log
    && (PastWait(t) ==> t.born <= t.heard <= log && t.horizon <= n)
    && (PastTake(t) ==> t.heard <= t.ops)
  }

  ghost predicate Snapshots(s: State) {
    forall i | 0 <= i < |s.tasks| && !s.tasks[i].root ::
        Snapshot(Log(s.g.recorded, s.tasks[i].url), |s.tasks|, s.tasks[i])
  }

  // The spec tasks launched before a page's wait were over by then, and what
  // they recorded for its URL had been heard.
  ghost predicate Heard(s: State) {
    forall i, j | 0 <= i < |s.tasks| && !s.tasks[i].root && PastWait(s.tasks[i]) && 0 <= j < s.tasks[i].horizon
        && j < |s.tasks| && s.tasks[j].isSpec ::
      && (s.tasks[j].phase.Finishing? || s.tasks[j].phase.Closing? || s.tasks[j].phase.Over?)
      && forall a | a in s.tasks[j].plan && a.Record? && a.url == s.tasks[i].url :: Within(a.ops, s.tasks[i].heard)
  }

  ghost predicate Inv(c: Config, s: State) {
    && Counters(c, s) && Claims(s) && Shape(s) && Pages(s)
    && Conserved(s) && TakenBy(s) && Executions(s) && Snapshots(s) && Heard(s)
  }
}
