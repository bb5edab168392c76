/** Which pushes a scan accepts, by its scope, its budget and the history of
    accepted pushes alone. */
module ScanAdmission {
  import opened Pigeonhole
  import opened Worklists
  import opened ScanProtocol
  import opened ScanInvariant

  // Each accepted key with the host it came with first.
  function HostsOf(log: seq<Job>): (m: map<string, string>)
    ensures forall key :: key in m <==> exists j | j in log :: j.t.key == key
  {
    if log == [] then map[] else
      var front, last := log[..|log| - 1], log[|log| - 1];
      assert log == front + [last];
      var m := HostsOf(front);
      if last.t.key in m then m else m[last.t.key := last.t.host]
  }

  // Push takes the target: it is in scope, has a key, is new at this tier, and
  // if the key itself is new its host still has budget.
  ghost predicate Welcome(c: Config, log: seq<Job>, t: Target, tier: int) {
    && (c.scope.None? || (t.url != "" && c.scope.value(t.url)))
    && t.key != ""
    && (forall j | j in log :: j.t.key != t.key || j.tier != tier)
    && (c.budget <= 0 || t.host == "" || t.key in HostsOf(log) || |KeysOn(HostsOf(log), t.host)| < c.budget)
  }

  // ---------- the first hosts ----------

  lemma BandMeansLogged(s: State, key: string)
    requires SeenMatches(s) && AllInBands(s.accepted)
    ensures SeenAnyTier(s.q, key) <==> key in HostsOf(s.accepted)
  {
    AnyTierMeansAccepted(s, key);
    hide SeenMatches, AllInBands, SeenAnyTier;
    if i :| 0 <= i < |s.accepted| && s.accepted[i].t.key == key { assert s.accepted[i] in s.accepted; }
    if j :| j in s.accepted && j.t.key == key {
      var i :| 0 <= i < |s.accepted| && s.accepted[i] == j;
    }
  }

  // The hosts recorded are those of the log.
  predicate HostsLogged(s: State) { AllInBands(s.accepted) ==> s.firstHost == HostsOf(s.accepted) }

  lemma PushLogged(c: Scan, s: State, t: Target, tier: int, wakee: nat)
    requires SeenMatches(s) && HostsLogged(s)
    ensures HostsLogged(AfterPush(c, s, t, tier, wakee))
  {
    if Admits(c.queue, s.q, false, t, tier) && AllInBands(AfterPush(c, s, t, tier, wakee).accepted) {
      PushBands(c, s, t, tier, wakee);
      BandMeansLogged(s, t.key);
      hide SeenMatches, Admits, SeenAnyTier, AllInBands;
      var s' := AfterPush(c, s, t, tier, wakee);
      assert s'.accepted[..|s'.accepted| - 1] == s.accepted;
    }
  }

  lemma StepLogged(c: Scan, s: State, step: Step)
    requires SeenMatches(s) && HostsLogged(s) && Enabled(c, s, step)
    ensures HostsLogged(Apply(c, s, step))
  {
    hide SeenMatches, HostsLogged, AfterPush, WakesSomeone, PopMeets;
    match step
    case ProducerPush(t, wakee) => PushLogged(c, s, t, FINGERPRINT, wakee);
    case Discover(_, t, tier, wakee) => PushLogged(c, s, t, tier, wakee);
    case Advance(w, wakee) =>
      var job := s.workers[w].job;
      var s1 := s.(workers := s.workers[w := Finishing(job)]);
      SameLogs(s, s1);
      if job.tier < LastTier(c) { PushLogged(c, s1, job.t, job.tier + 1, wakee); }
    case _ => SameLogs(s, Apply(c, s, step));
  }

  lemma SameLogs(s: State, s': State)
    requires s'.accepted == s.accepted && s'.firstHost == s.firstHost && HostsLogged(s)
    ensures HostsLogged(s')
    ensures SeenMatches(s) && s'.q == s.q && s'.dispatched == s.dispatched ==> SeenMatches(s')
  {
  }

  lemma {:induction false} RunLogged(c: Scan, workers: nat, run: seq<State>, i: nat)
    requires IsRun(c, workers, run) && i < |run|
    ensures HostsLogged(run[i]) && SeenMatches(run[i])
  {
    hide HostsLogged, SeenMatches, Enabled, Apply;
    RunInv(c, workers, run, i);
    assert SeenMatches(run[i]);
    if i == 0 {
      InitLogged(workers);
    } else {
      RunLogged(c, workers, run, i - 1);
      assert Next(c, run[i - 1], run[i - 1 + 1]);
      var step :| Enabled(c, run[i - 1], step) && run[i - 1 + 1] == Apply(c, run[i - 1], step);
      StepLogged(c, run[i - 1], step);
    }
  }

  lemma InitLogged(workers: nat)
    ensures HostsLogged(Init(workers))
  {
  }

  // ---------- what is accepted ----------

  // Everything a scan ever accepts, and so everything it dispatches, has a key
  // and is in scope.
  lemma OnlyInScope(c: Scan, workers: nat, run: seq<State>, i: nat)
    requires IsRun(c, workers, run) && i < |run|
    ensures forall j | j in run[i].accepted || j in run[i].dispatched ::
              j.t.key != "" && (c.queue.scope.None? || (j.t.url != "" && c.queue.scope.value(j.t.url)))
  {
    RunInv(c, workers, run, i);
    var s := run[i];
    forall j | j in s.accepted ensures j.t.key != "" && ScopeAllows(c.queue, j.t) {
      var k :| 0 <= k < |s.accepted| && s.accepted[k] == j;
    }
    forall j | j in s.dispatched ensures j in s.accepted {
      var k :| 0 <= k < |s.dispatched| && s.dispatched[k] == j;
    }
  }

  // A push by producer or check adds its job exactly when it is welcome.
  lemma WelcomeIsAccepted(c: Scan, workers: nat, run: seq<State>, i: nat, step: Step)
    requires IsRun(c, workers, run) && i < |run| && Enabled(c, run[i], step)
    requires step.ProducerPush? || step.Discover?
    requires c.queue.budget > 0 ==> AllInBands(run[i].accepted)
    ensures var t := if step.ProducerPush? then step.p else step.d;
            var tier := if step.ProducerPush? then FINGERPRINT else step.tier;
            Apply(c, run[i], step).accepted
            == run[i].accepted + if Welcome(c.queue, run[i].accepted, t, tier) then [Job(t, tier)] else []
  {
    RunInv(c, workers, run, i);
    RunLogged(c, workers, run, i);
    hide IsRun, Inv, HostsLogged, WakesSomeone, Welcome, Admits;
    var t := if step.ProducerPush? then step.p else step.d;
    var tier := if step.ProducerPush? then FINGERPRINT else step.tier;
    AdmitsIsWelcome(c, run[i], t, tier);
  }

  lemma AdmitsIsWelcome(c: Scan, s: State, t: Target, tier: int)
    requires Inv(c, s) && HostsLogged(s) && (c.queue.budget > 0 ==> AllInBands(s.accepted))
    ensures Admits(c.queue, s.q, false, t, tier) <==> Welcome(c.queue, s.accepted, t, tier)
  {
    assert SeenMatches(s) && !s.q.closed;
    SlotIsNew(s, t.key, tier);
    if c.queue.budget > 0 {
      assert HostsCounted(c, s);
      BandMeansLogged(s, t.key);
      assert t.host != "" ==> HostCount(s.q, t.host) == |KeysOn(HostsOf(s.accepted), t.host)|;
    }
    hide Inv, SeenMatches, SeenAnyTier, HostCount, HostsOf, KeysOn, AllInBands, HostsLogged, HostsCounted;
  }

  lemma SlotIsNew(s: State, key: string, tier: int)
    requires SeenMatches(s)
    ensures SeenKey(key, tier) !in s.q.seen <==> forall j | j in s.accepted :: j.t.key != key || j.tier != tier
  {
    if HasPair(s.accepted, key, tier) {
      var i :| 0 <= i < |s.accepted| && s.accepted[i].t.key == key && s.accepted[i].tier == tier;
      assert s.accepted[i] in s.accepted;
    } else {
      forall j | j in s.accepted ensures j.t.key != key || j.tier != tier {
        var i :| 0 <= i < |s.accepted| && s.accepted[i] == j;
      }
    }
  }
}
