/** Who executes a job: at most one live worker, the one in `worker_id`, and only while the job is
    `running` or `cancelling` (packages/worker-runtime/src/reporter.ts:85-120). */
module DeliveryOwner {
  import opened Basics
  import opened Delivery

  /** The delivery holds the claim: from a successful `claimJob` to its own status write. */
  predicate Owns(pc: Pc) { pc == Executing || pc == RetryPublished }

  predicate ExecutedBy(msg: Msg, alive: set<WorkerId>) {
    msg.place.Held? && Owns(msg.place.pc) && msg.place.worker in alive
  }

  /** Message `m` is being executed by a live worker. */
  predicate Executed(s: Sys, m: int) {
    0 <= m < |s.msgs| && ExecutedBy(s.msgs[m], s.alive)
  }

  predicate Owner(job: Job, w: WorkerId) {
    (job.status == Running || job.status == Cancelling) && job.worker == Some(w)
  }

  ghost predicate MessagesKnown(s: Sys) {
    && (forall m | 0 <= m < |s.msgs| :: s.msgs[m].job in s.jobs)
    && (forall m | 0 <= m < |s.msgs| && s.msgs[m].place.Held? :: s.msgs[m].place.worker in s.seen)
  }

  ghost predicate OwnersRecorded(s: Sys) {
    forall m | Executed(s, m) :: s.msgs[m].job in s.jobs && Owner(s.jobs[s.msgs[m].job], s.msgs[m].place.worker)
  }

  ghost predicate OneExecution(s: Sys) {
    forall m, n | Executed(s, m) && Executed(s, n) && s.msgs[m].job == s.msgs[n].job :: m == n
  }

  ghost predicate OwnerInv(s: Sys) {
    s.alive <= s.beating <= s.seen && MessagesKnown(s) && OwnersRecorded(s) && OneExecution(s)
  }

  /** What an act may do to the claim on its job. */
  predicate OwnerChange(s: Sys, m: nat, c: Change)
    requires m < |s.msgs| && s.msgs[m].job in s.jobs
  {
    var job := s.jobs[s.msgs[m].job];
    && (c.msg.place.Held? ==> c.msg.place.worker in s.seen)
    && (ExecutedBy(c.msg, s.alive) ==> Owner(c.job, c.msg.place.worker))
    && (!Executed(s, m) ==>
          if ExecutedBy(c.msg, s.alive) then Claimable(job, c.msg.place.worker, s.beating)
          else (c.job.status == job.status && c.job.worker == job.worker) || !(job.status == Running || job.status == Cancelling))
  }

  lemma ActKeepsOwnerBeforeClaim(cfg: Config, s: Sys, m: nat, act: Act)
    requires BeforeClaim(act)
    requires OwnerInv(s) && CanAct(s, m, act)
    ensures OwnerChange(s, m, Do(cfg, s, m, act))
  {
  }

  lemma ActKeepsOwnerAfterHandler(cfg: Config, s: Sys, m: nat, act: Act)
    requires AfterHandler(act)
    requires OwnerInv(s) && CanAct(s, m, act)
    ensures OwnerChange(s, m, Do(cfg, s, m, act))
  {
  }

  lemma ActKeepsOwnerElsewhere(cfg: Config, s: Sys, m: nat, act: Act)
    requires !BeforeClaim(act) && !AfterHandler(act)
    requires OwnerInv(s) && CanAct(s, m, act)
    ensures OwnerChange(s, m, Do(cfg, s, m, act))
  {
  }

  lemma ActKeepsOwner(cfg: Config, s: Sys, m: nat, act: Act)
    requires OwnerInv(s) && CanAct(s, m, act)
    ensures OwnerChange(s, m, Do(cfg, s, m, act))
  {
    if BeforeClaim(act) {
      ActKeepsOwnerBeforeClaim(cfg, s, m, act);
    } else if AfterHandler(act) {
      ActKeepsOwnerAfterHandler(cfg, s, m, act);
    } else {
      ActKeepsOwnerElsewhere(cfg, s, m, act);
    }
  }

  /** A job that can be claimed is executed by nobody. */
  lemma ClaimableIsFree(s: Sys, j: JobId, w: WorkerId)
    requires OwnerInv(s) && j in s.jobs && Claimable(s.jobs[j], w, s.beating)
    ensures forall n | Executed(s, n) :: s.msgs[n].job != j
  {
    forall n | Executed(s, n) ensures s.msgs[n].job != j {
      assert Owner(s.jobs[s.msgs[n].job], s.msgs[n].place.worker);
    }
  }

  lemma EffectKeepsOwner(s: Sys, m: nat, c: Change)
    requires OwnerInv(s) && m < |s.msgs| && Framed(s, m, c) && OwnerChange(s, m, c)
    ensures OwnerInv(Effect(s, m, c))
  {
    var t := Effect(s, m, c);
    var j := s.msgs[m].job;
    forall n | 0 <= n < |t.msgs|
      ensures t.msgs[n].job in t.jobs && (t.msgs[n].place.Held? ==> t.msgs[n].place.worker in t.seen)
    {
      if n < |s.msgs| && n != m { assert t.msgs[n] == s.msgs[n]; }
    }
    if !Executed(s, m) && ExecutedBy(c.msg, s.alive) { ClaimableIsFree(s, j, c.msg.place.worker); }
    forall n | Executed(t, n)
      ensures Owner(t.jobs[t.msgs[n].job], t.msgs[n].place.worker)
      ensures n == m || Executed(s, n)
      ensures n < |s.msgs|
      ensures n != m && t.msgs[n].job == j ==> !Executed(t, m)
    {
      if n != m {
        assert n < |s.msgs| && t.msgs[n] == s.msgs[n] && Executed(s, n);
        assert Owner(s.jobs[s.msgs[n].job], s.msgs[n].place.worker);
      }
    }
  }

  lemma StepKeepsOwner(cfg: Config, s: Sys, step: Step)
    requires OwnerInv(s) && Enabled(cfg, s, step)
    ensures OwnerInv(Apply(cfg, s, step))
  {
    var t := Apply(cfg, s, step);
    match step
    case Work(m, act) =>
      ActIsFramed(cfg, s, m, act);
      ActKeepsOwner(cfg, s, m, act);
      EffectKeepsOwner(s, m, Do(cfg, s, m, act));
    case _ =>
      assert s.msgs <= t.msgs;
      forall m | Executed(t, m) ensures Executed(s, m) && Owner(t.jobs[t.msgs[m].job], t.msgs[m].place.worker) {
        assert m < |s.msgs| && s.msgs[m].place.worker in s.seen;
        assert Executed(s, m);
        assert Owner(s.jobs[s.msgs[m].job], s.msgs[m].place.worker);
      }
  }

  lemma {:induction false} RunKeepsOwner(cfg: Config, s: Sys, steps: seq<Step>, t: Sys)
    requires OwnerInv(s) && Run(cfg, s, steps, t)
    ensures OwnerInv(t)
    decreases |steps|
  {
    if steps != [] {
      StepKeepsOwner(cfg, s, steps[0]);
      RunKeepsOwner(cfg, Apply(cfg, s, steps[0]), steps[1..], t);
    }
  }

  /** At most one live worker executes a job, under any run whatever; it is the one recorded in
      `worker_id`, and the job is `running` or `cancelling`. */
  lemma OneOwner(cfg: Config, s: Sys)
    requires Reachable(cfg, s)
    ensures forall m | Executed(s, m) :: s.msgs[m].job in s.jobs && Owner(s.jobs[s.msgs[m].job], s.msgs[m].place.worker)
    ensures forall m, n | Executed(s, m) && Executed(s, n) && s.msgs[m].job == s.msgs[n].job :: m == n
  {
    var steps :| Run(cfg, INIT, steps, s);
    RunKeepsOwner(cfg, INIT, steps, s);
  }
}
