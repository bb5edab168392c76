/** The worker protocol around the queue (internal/scanner/scanner.go, ScanAll).

    One producer and any number of workers share the queue. Every
    mutex-protected section of the source is one step here; the condition
    variable's Signal and Broadcast move sleeping workers to Notified. The run is
    uncancelled: the context never expires and nobody calls Close. The ghost
    logs (accepted, dispatched, finished, failed, firstHost) record history. */
module ScanProtocol {
  import opened Sums
  import opened Pigeonhole
  import opened Worklists

  /** A queued unit of work: one target at one tier. */
  datatype Job = Job(t: Target, tier: int)

  /** Where a worker goroutine is. A worker holding a job has popped it and not
      called Done: it fetches the page, then runs the tier's checks, then has
      re-pushed the target (or skipped that) and is about to call Done. */
  datatype Worker =
    | Runnable
    | Sleeping
    | Notified
    | Fetching(job: Job)
    | Scanning(job: Job)
    | Finishing(job: Job)
    | Exited

  datatype Scan = Scan(queue: Config, hasDeferred: bool)

  function LastTier(c: Scan): int { if c.hasDeferred then DEFERRED else ACTIVE }

  datatype State = State(
    q: Queue,
    workers: seq<Worker>,
    accepted: seq<Job>,
    dispatched: seq<Job>,
    finished: set<Job>,
    failed: set<Job>,
    firstHost: map<string, string>)

  predicate Busy(w: Worker) { w.Fetching? || w.Scanning? || w.Finishing? }

  predicate Awake(w: Worker) { !w.Sleeping? && !w.Exited? }

  // ---------- wakeups ----------

  function Signalled(ws: seq<Worker>, wakee: nat): seq<Worker> {
    if wakee < |ws| && ws[wakee].Sleeping? then ws[wakee := Notified] else ws
  }

  function Roused(w: Worker): Worker { if w.Sleeping? then Notified else w }

  function Broadcasted(ws: seq<Worker>): seq<Worker> {
    seq(|ws|, i requires 0 <= i < |ws| => Roused(ws[i]))
  }

  // Signal wakes some sleeper whenever there is one.
  ghost predicate WakesSomeone(ws: seq<Worker>, wakee: nat) {
    (exists i | 0 <= i < |ws| :: ws[i].Sleeping?) ==> wakee < |ws| && ws[wakee].Sleeping?
  }

  // ---------- steps ----------

  datatype Step =
    | ProducerPush(p: Target, wakee: nat)
    | ProducerDone
    | Pop(w: nat, a: Attempt)
    | Materialize(w: nat, ok: bool)
    | Discover(w: nat, d: Target, tier: int, wakee: nat)
    | Advance(w: nat, wakee: nat)
    | Finish(w: nat)

  function Init(workers: nat): State {
    State(EMPTY, seq(workers, i => Runnable), [], [], {}, {}, map[])
  }

  function AfterPush(c: Scan, s: State, t: Target, tier: int, wakee: nat): State {
    if !Admits(c.queue, s.q, false, t, tier) then s else
      s.(q := Accept(s.q, t, tier),
         workers := Signalled(s.workers, wakee),
         accepted := s.accepted + [Job(t, tier)],
         firstHost := if SeenAnyTier(s.q, t.key) then s.firstHost else s.firstHost[t.key := t.host])
  }

  function Popped(q: Queue, a: Attempt): Queue {
    if a.Took? && Items(q, a.tier) != [] then Take(q, a.tier) else q
  }

  ghost predicate Enabled(c: Scan, s: State, step: Step) {
    match step
    case ProducerPush(_, wakee) => !s.q.sourceDone && WakesSomeone(s.workers, wakee)
    case ProducerDone => !s.q.sourceDone
    case Pop(w, a) => w < |s.workers| && (s.workers[w].Runnable? || s.workers[w].Notified?)
                      && PopMeets(s.q, false, a, Popped(s.q, a))
    case Materialize(w, _) => w < |s.workers| && s.workers[w].Fetching?
    case Discover(w, _, _, wakee) => w < |s.workers| && s.workers[w].Scanning? && WakesSomeone(s.workers, wakee)
    case Advance(w, wakee) => w < |s.workers| && s.workers[w].Scanning? && WakesSomeone(s.workers, wakee)
    case Finish(w) => w < |s.workers| && s.workers[w].Finishing?
  }

  ghost function Apply(c: Scan, s: State, step: Step): State
    requires Enabled(c, s, step)
  {
    match step
    case ProducerPush(t, wakee) => AfterPush(c, s, t, FINGERPRINT, wakee)
    case ProducerDone =>
      var q := s.q.(sourceDone := true);
      s.(q := q, workers := if Drained(q) then Broadcasted(s.workers) else s.workers)
    case Pop(w, a) => (
      match a
      case Took(t, tier) => s.(q := Take(s.q, tier),
                               workers := s.workers[w := Fetching(Job(t, tier))],
                               dispatched := s.dispatched + [Job(t, tier)])
      case Exit => s.(workers := s.workers[w := Exited])
      case Blocked => s.(workers := s.workers[w := Sleeping]))
    case Materialize(w, ok) =>
      var job := s.workers[w].job;
      if ok then s.(workers := s.workers[w := Scanning(job)])
      else s.(workers := s.workers[w := Finishing(job)], failed := s.failed + {job})
    case Discover(_, t, tier, wakee) => AfterPush(c, s, t, tier, wakee)
    case Advance(w, wakee) =>
      var job := s.workers[w].job;
      var s1 := s.(workers := s.workers[w := Finishing(job)]);
      if job.tier < LastTier(c) then AfterPush(c, s1, job.t, job.tier + 1, wakee) else s1
    case Finish(w) =>
      var job := s.workers[w].job;
      s.(q := Release(s.q, job.tier),
         workers := Broadcasted(s.workers[w := Runnable]),
         finished := s.finished + {job})
  }

  ghost predicate Next(c: Scan, s: State, s': State) {
    exists step :: Enabled(c, s, step) && s' == Apply(c, s, step)
  }

  ghost predicate IsRun(c: Scan, workers: nat, run: seq<State>) {
    && run != [] && run[0] == Init(workers)
    && forall i | 0 <= i < |run| - 1 :: Next(c, run[i], run[i + 1])
  }

  // ---------- reading the logs ----------

  function AtTier(log: seq<Job>, tier: int): seq<Target> {
    if log == [] then [] else
      var j := log[|log| - 1];
      AtTier(log[..|log| - 1], tier) + if j.tier == tier then [j.t] else []
  }

  predicate HasPair(log: seq<Job>, key: string, tier: int) {
    exists i | 0 <= i < |log| :: log[i].t.key == key && log[i].tier == tier
  }

  predicate SameSlot(a: Job, b: Job) { a.t.key == b.t.key && a.tier == b.tier }

  predicate UniqueSlots(log: seq<Job>) {
    forall i, j | 0 <= i < j < |log| :: !SameSlot(log[i], log[j])
  }

  predicate AllInBands(log: seq<Job>) { forall i | 0 <= i < |log| :: InBands(log[i].tier) }

  function FlightAt(tier: int): Worker -> int {
    w => if Busy(w) && w.job.tier == tier then 1 else 0
  }

  predicate Holds(ws: seq<Worker>, j: Job) { exists i | 0 <= i < |ws| :: Busy(ws[i]) && ws[i].job == j }

  // ---------- the invariant ----------

  // Per tier, push order is dispatch order followed by what is still queued.
  ghost predicate Ledger(s: State) {
    forall tier: int :: AtTier(s.accepted, tier) == AtTier(s.dispatched, tier) + Items(s.q, tier)
  }

  ghost predicate SeenMatches(s: State) {
    && (forall key: string, tier: int :: SeenKey(key, tier) in s.q.seen <==> HasPair(s.accepted, key, tier))
    && UniqueSlots(s.accepted)
    && UniqueSlots(s.dispatched)
  }

  ghost predicate Screened(c: Scan, s: State) {
    && !s.q.closed
    && (forall i | 0 <= i < |s.accepted| :: s.accepted[i].t.key != "" && ScopeAllows(c.queue, s.accepted[i].t))
    && (forall i | 0 <= i < |s.dispatched| :: InBands(s.dispatched[i].tier) && s.dispatched[i] in s.accepted)
  }

  ghost predicate Holding(s: State) {
    && (forall i | 0 <= i < |s.workers| && Busy(s.workers[i]) ::
          s.workers[i].job in s.dispatched && s.workers[i].job !in s.finished)
    && (forall i, j | 0 <= i < j < |s.workers| && Busy(s.workers[i]) && Busy(s.workers[j]) ::
          s.workers[i].job != s.workers[j].job)
    && (forall j | j in s.dispatched :: j in s.finished || Holds(s.workers, j))
    && (forall j | j in s.finished :: j in s.dispatched)
  }

  // Outstanding work at a tier: queued plus in flight.
  ghost predicate Counted(s: State) {
    forall tier: int :: Pending(s.q, tier) == |Items(s.q, tier)| + Sum(s.workers, FlightAt(tier))
  }

  ghost predicate Advanced(c: Scan, s: State, j: Job) {
    j in s.failed || j.tier >= LastTier(c) || HasPair(s.accepted, j.t.key, j.tier + 1)
  }

  ghost predicate Progressed(c: Scan, s: State) {
    && (forall j | j in s.finished :: Advanced(c, s, j))
    && (forall i | 0 <= i < |s.workers| && s.workers[i].Finishing? :: Advanced(c, s, s.workers[i].job))
  }

  // No wakeup is ever lost.
  ghost predicate Wakeful(s: State) {
    && (Drained(s.q) ==> forall i | 0 <= i < |s.workers| :: !s.workers[i].Sleeping?)
    && ((exists i | 0 <= i < |s.workers| :: s.workers[i].Exited?) ==> Drained(s.q))
    && (s.workers != [] && (forall i | 0 <= i < |s.workers| :: !Awake(s.workers[i]))
        ==> forall tier | InBands(tier) :: Items(s.q, tier) == [])
  }

  // The keys with a first host are those accepted, on a host they came with.
  ghost predicate FirstHosts(s: State) {
    && (forall key: string :: key in s.firstHost <==> exists i | 0 <= i < |s.accepted| :: s.accepted[i].t.key == key)
    && (forall key | key in s.firstHost :: exists i | 0 <= i < |s.accepted| ::
          s.accepted[i].t.key == key && s.accepted[i].t.host == s.firstHost[key])
  }

  // hostCount[h] is the number of distinct keys first accepted on h. Push looks
  // for earlier entries of a key in the five bands only, so this is about runs
  // whose pushes all name a band.
  ghost predicate HostsCounted(c: Scan, s: State) {
    && FirstHosts(s)
    && (forall h: string | h != "" :: HostCount(s.q, h) == |KeysOn(s.firstHost, h)|)
    && (c.queue.budget > 0 ==> forall h: string | h != "" :: HostCount(s.q, h) <= c.queue.budget)
  }

  ghost predicate Inv(c: Scan, s: State) {
    && Ledger(s) && SeenMatches(s) && Screened(c, s) && Holding(s) && Counted(s)
    && Progressed(c, s) && Wakeful(s)
    && (AllInBands(s.accepted) ==> HostsCounted(c, s))
  }
}
