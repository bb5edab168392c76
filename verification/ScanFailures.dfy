/** Targets whose page could not be materialized: which they are, and that
    nothing is done with them. */
module ScanFailures {
  import opened Worklists
  import opened ScanProtocol
  import opened ScanInvariant
  import opened ScanTheorems

  // At step k some worker fails to materialize the page of j.
  ghost predicate FailsAt(c: Scan, run: seq<State>, k: nat, j: Job) {
    && k + 1 < |run|
    && exists w: nat :: Enabled(c, run[k], Materialize(w, false)) && run[k].workers[w].job == j
                        && run[k + 1] == Apply(c, run[k], Materialize(w, false))
  }

  ghost predicate FailedBefore(c: Scan, run: seq<State>, i: nat, j: Job) {
    exists k: nat | k < i :: FailsAt(c, run, k, j)
  }

  lemma StepFails(c: Scan, run: seq<State>, k: nat, step: Step, j: Job)
    requires k + 1 < |run| && Enabled(c, run[k], step) && run[k + 1] == Apply(c, run[k], step)
    ensures j in run[k + 1].failed <==> j in run[k].failed || FailsAt(c, run, k, j)
  {
    hide Admits, WakesSomeone, PopMeets;
    FailureShows(c, run, k, j);
    if step.Materialize? && !step.ok && run[k].workers[step.w].job == j { assert FailsAt(c, run, k, j); }
  }

  lemma FailureShows(c: Scan, run: seq<State>, k: nat, j: Job)
    ensures FailsAt(c, run, k, j) ==> j in run[k + 1].failed
  {
    hide Admits, WakesSomeone, PopMeets;
  }

  // The failed jobs are those whose page some worker could not materialize.
  lemma {:induction false} FailedMeansNotMaterialized(c: Scan, workers: nat, run: seq<State>, i: nat, j: Job)
    requires IsRun(c, workers, run) && i < |run|
    ensures j in run[i].failed <==> FailedBefore(c, run, i, j)
  {
    hide FailsAt, Enabled, Apply;
    if i > 0 {
      FailedMeansNotMaterialized(c, workers, run, i - 1, j);
      assert Next(c, run[i - 1], run[i - 1 + 1]);
      hide IsRun;
      var step :| Enabled(c, run[i - 1], step) && run[i - 1 + 1] == Apply(c, run[i - 1], step);
      StepFails(c, run, i - 1, step, j);
      FailedByNow(c, run, i - 1, j);
    }
  }

  lemma FailedByNow(c: Scan, run: seq<State>, i: nat, j: Job)
    ensures FailedBefore(c, run, i + 1, j) <==> FailedBefore(c, run, i, j) || FailsAt(c, run, i, j)
  {
    hide FailsAt;
  }

  // ---------- nothing is done with them ----------

  // A failed job is finished, or its worker is about to finish it.
  ghost predicate FailedOver(s: State) {
    forall j | j in s.failed :: j in s.finished || exists w | 0 <= w < |s.workers| :: s.workers[w] == Finishing(j)
  }

  lemma FinishingStays(c: Scan, s: State, step: Step, w: nat, j: Job)
    requires Enabled(c, s, step) && w < |s.workers| && s.workers[w] == Finishing(j)
    ensures var s' := Apply(c, s, step);
            j in s'.finished || (w < |s'.workers| && s'.workers[w] == Finishing(j))
  {
    hide Admits, WakesSomeone, PopMeets, Drained;
  }

  lemma StepFailedOver(c: Scan, s: State, step: Step)
    requires FailedOver(s) && Enabled(c, s, step)
    ensures FailedOver(Apply(c, s, step))
  {
    StepExtends(c, s, step);
    var s' := Apply(c, s, step);
    forall j | j in s'.failed
      ensures j in s'.finished || exists w | 0 <= w < |s'.workers| :: s'.workers[w] == Finishing(j)
    {
      if j in s.failed {
        if j !in s.finished {
          var w :| 0 <= w < |s.workers| && s.workers[w] == Finishing(j);
          FinishingStays(c, s, step, w, j);
        }
      } else {
        JustFailed(c, s, step, j);
      }
    }
  }

  lemma JustFailed(c: Scan, s: State, step: Step, j: Job)
    requires Enabled(c, s, step) && j !in s.failed && j in Apply(c, s, step).failed
    ensures exists w | 0 <= w < |Apply(c, s, step).workers| :: Apply(c, s, step).workers[w] == Finishing(j)
  {
    hide Admits, WakesSomeone, PopMeets, Drained;
    assert step.Materialize? && Apply(c, s, step).workers[step.w] == Finishing(j);
  }

  lemma {:induction false} RunFailedOver(c: Scan, workers: nat, run: seq<State>, i: nat)
    requires IsRun(c, workers, run) && i < |run|
    ensures FailedOver(run[i])
  {
    hide Enabled, Apply;
    if i > 0 {
      RunFailedOver(c, workers, run, i - 1);
      assert Next(c, run[i - 1], run[i - 1 + 1]);
      hide IsRun, FailedOver;
      var step :| Enabled(c, run[i - 1], step) && run[i - 1 + 1] == Apply(c, run[i - 1], step);
      StepFailedOver(c, run[i - 1], step);
    }
  }

  // No worker scans a failed job: no check runs on it and its worker does not
  // push it on to the next tier.
  lemma FailedIsLeftAlone(c: Scan, workers: nat, run: seq<State>, i: nat, step: Step)
    requires IsRun(c, workers, run) && i < |run| && Enabled(c, run[i], step) && (step.Discover? || step.Advance?)
    ensures run[i].workers[step.w].Scanning? && run[i].workers[step.w].job !in run[i].failed
  {
    RunInv(c, workers, run, i);
    RunFailedOver(c, workers, run, i);
    hide Ledger, SeenMatches, Screened, Counted, Progressed, Wakeful, HostsCounted, AllInBands;
    var s, w := run[i], step.w;
    assert Busy(s.workers[w]) && s.workers[w].job !in s.finished;
    forall v | 0 <= v < |s.workers| && s.workers[v].Finishing? ensures s.workers[v].job != s.workers[w].job {
      assert Busy(s.workers[v]) && v != w;
    }
  }
}
