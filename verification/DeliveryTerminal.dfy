/** Statuses that end a job. `completed` is never left; `failed` and `cancelled` are left only when the
    dead-letter queue is replayed. The status writes of the worker shell carry no condition on the old status
    (packages/worker-runtime/src/reporter.ts:110-120), so all of this rests on the claim. */
module DeliveryTerminal {
  import opened Delivery
  import opened DeliveryOwner

  predicate Ended(status: Status) { status == Completed || status == Failed || status == Cancelled }

  predicate Unclaimed(job: Job, after: Job) {
    after.status == job.status && after.hist.claims == job.hist.claims
  }

  /** The next state of an ended job: unchanged but for a replay of a failed or cancelled one. */
  predicate EndedStep(job: Job, after: Job) {
    && job.hist.resets <= after.hist.resets
    && (Ended(job.status) && (job.status == Completed || after.hist.resets == job.hist.resets) ==> Unclaimed(job, after))
  }

  lemma ActOnEnded(cfg: Config, s: Sys, m: nat, act: Act)
    requires OwnerInv(s) && CanAct(s, m, act)
    ensures EndedStep(s.jobs[s.msgs[m].job], Do(cfg, s, m, act).job)
  {
    if Executed(s, m) {
      assert Owner(s.jobs[s.msgs[m].job], s.msgs[m].place.worker);
    }
  }

  lemma StepOnEnded(cfg: Config, s: Sys, step: Step, j: JobId)
    requires OwnerInv(s) && Enabled(cfg, s, step) && j in s.jobs
    ensures j in Apply(cfg, s, step).jobs && EndedStep(s.jobs[j], Apply(cfg, s, step).jobs[j])
  {
    match step
    case Work(m, act) =>
      ActIsFramed(cfg, s, m, act);
      ActOnEnded(cfg, s, m, act);
    case _ =>
  }

  lemma {:induction false} RunOnEnded(cfg: Config, s: Sys, steps: seq<Step>, t: Sys, j: JobId)
    requires OwnerInv(s) && Run(cfg, s, steps, t) && j in s.jobs
    ensures j in t.jobs && EndedStep(s.jobs[j], t.jobs[j])
    decreases |steps|
  {
    if steps != [] {
      var u := Apply(cfg, s, steps[0]);
      StepOnEnded(cfg, s, steps[0], j);
      StepKeepsOwner(cfg, s, steps[0]);
      RunOnEnded(cfg, u, steps[1..], t, j);
    }
  }

  lemma ReachableOwned(cfg: Config, s: Sys)
    requires Reachable(cfg, s)
    ensures OwnerInv(s)
  {
    var steps :| Run(cfg, INIT, steps, s);
    RunKeepsOwner(cfg, INIT, steps, s);
  }

  /** A completed job stays completed and is never executed again, whatever happens afterwards. */
  lemma CompletedIsFinal(cfg: Config, s: Sys, steps: seq<Step>, t: Sys, j: JobId)
    requires Reachable(cfg, s) && Run(cfg, s, steps, t)
    requires j in s.jobs && s.jobs[j].status == Completed
    ensures j in t.jobs && t.jobs[j].status == Completed && t.jobs[j].hist.claims == s.jobs[j].hist.claims
    ensures forall m | Executed(t, m) :: t.msgs[m].job != j
  {
    ReachableOwned(cfg, s);
    RunOnEnded(cfg, s, steps, t, j);
    RunKeepsOwner(cfg, s, steps, t);
    forall m | Executed(t, m) ensures t.msgs[m].job != j {
      assert Owner(t.jobs[t.msgs[m].job], t.msgs[m].place.worker);
    }
  }

  /** A failed or cancelled job keeps its status and is not executed until a replay resets it. */
  lemma EndedUntilReplay(cfg: Config, s: Sys, steps: seq<Step>, t: Sys, j: JobId)
    requires Reachable(cfg, s) && Run(cfg, s, steps, t)
    requires j in s.jobs && (s.jobs[j].status == Failed || s.jobs[j].status == Cancelled)
    ensures j in t.jobs
    ensures t.jobs[j].hist.resets > s.jobs[j].hist.resets || Unclaimed(s.jobs[j], t.jobs[j])
    ensures t.jobs[j].hist.resets == s.jobs[j].hist.resets ==> forall m | Executed(t, m) :: t.msgs[m].job != j
  {
    ReachableOwned(cfg, s);
    RunOnEnded(cfg, s, steps, t, j);
    RunKeepsOwner(cfg, s, steps, t);
    forall m | Executed(t, m) && t.jobs[j].hist.resets == s.jobs[j].hist.resets ensures t.msgs[m].job != j {
      assert Owner(t.jobs[t.msgs[m].job], t.msgs[m].place.worker);
    }
  }

  ghost predicate Flagged(s: Sys) {
    forall j | j in s.jobs && (s.jobs[j].status == Cancelling || s.jobs[j].status == Cancelled) :: j in s.flags
  }

  lemma StepKeepsFlagged(cfg: Config, s: Sys, step: Step)
    requires Flagged(s) && Enabled(cfg, s, step)
    ensures Flagged(Apply(cfg, s, step)) && s.flags <= Apply(cfg, s, step).flags
  {
    match step
    case Work(m, act) =>
      ActIsFramed(cfg, s, m, act);
      assert Do(cfg, s, m, act).job.status == Cancelled ==> s.jobs[s.msgs[m].job].status == Cancelled || act == CancelSeen;
      assert Do(cfg, s, m, act).job.status == Cancelling ==> s.jobs[s.msgs[m].job].status == Cancelling;
    case _ =>
  }

  lemma {:induction false} RunKeepsFlagged(cfg: Config, s: Sys, steps: seq<Step>, t: Sys)
    requires Flagged(s) && Run(cfg, s, steps, t)
    ensures Flagged(t) && s.flags <= t.flags
    decreases |steps|
  {
    if steps != [] {
      StepKeepsFlagged(cfg, s, steps[0]);
      RunKeepsFlagged(cfg, Apply(cfg, s, steps[0]), steps[1..], t);
    }
  }

  /** A job is `cancelling` or `cancelled` only with its flag set, since the route sets the flag first; and a
      worker that claims the job after that finds the flag for as long as it executes. */
  lemma CancelIsObservable(cfg: Config, s: Sys, steps: seq<Step>, t: Sys, m: int)
    requires Reachable(cfg, s) && Run(cfg, s, steps, t) && Executed(t, m)
    ensures t.msgs[m].job in s.flags ==> CanAct(t, m, CancelSeen) || t.msgs[m].place.pc == RetryPublished
    ensures t.msgs[m].job in t.jobs && (t.jobs[t.msgs[m].job].status == Cancelling ==> t.msgs[m].job in t.flags)
  {
    ReachableOwned(cfg, s);
    RunKeepsOwner(cfg, s, steps, t);
    var before :| Run(cfg, INIT, before, s);
    RunKeepsFlagged(cfg, INIT, before, s);
    RunKeepsFlagged(cfg, s, steps, t);
    assert Owner(t.jobs[t.msgs[m].job], t.msgs[m].place.worker);
  }

  /** The cancel route's first UPDATE either hits, and then nothing runs the job before a replay, or leaves
      the job as it is; the second asks the one owner to stop and never touches a finished job
      (services/gateway-api/src/routes/jobs.ts:171-183). */
  lemma CancelStops(cfg: Config, s: Sys, j: JobId, steps: seq<Step>, t: Sys)
    requires Reachable(cfg, s) && j in s.jobs
    requires j in s.flags && (s.jobs[j].status == Queued || s.jobs[j].status == Retrying)
    requires Run(cfg, Apply(cfg, s, CancelQueued(j)), steps, t)
    ensures j in t.jobs
    ensures t.jobs[j].hist.resets == s.jobs[j].hist.resets ==>
              t.jobs[j].status == Cancelled && t.jobs[j].hist.claims == s.jobs[j].hist.claims
    ensures forall m | Executed(s, m) :: s.msgs[m].job != j
    ensures t.jobs[j].hist.resets == s.jobs[j].hist.resets ==> forall m | Executed(t, m) :: t.msgs[m].job != j
  {
    var c := Apply(cfg, s, CancelQueued(j));
    var before :| Run(cfg, INIT, before, s);
    RunAppend(cfg, INIT, before, s, CancelQueued(j));
    EndedUntilReplay(cfg, c, steps, t, j);
    ReachableOwned(cfg, s);
    forall m | Executed(s, m) ensures s.msgs[m].job != j {
      assert Owner(s.jobs[s.msgs[m].job], s.msgs[m].place.worker);
    }
  }
}
