/** The way forward: a message that waits can lead to an execution, also of a job whose worker has died
    (packages/worker-runtime/src/reporter.ts:85-103, packages/worker-runtime/src/runner.ts:140-172). */
module DeliveryRecovery {
  import opened Basics
  import opened Delivery
  import opened DeliveryOwner
  import opened DeliveryFlag

  /** Nobody with a fresh heartbeat has the job, and it is not over or being cancelled. */
  predicate UpForClaim(s: Sys, j: JobId) {
    && j in s.jobs
    && (s.jobs[j].status == Queued || s.jobs[j].status == Retrying
        || (s.jobs[j].status == Running && (s.jobs[j].worker.None? || s.jobs[j].worker.value !in s.beating)))
  }

  /** A waiting message of such a job leads to its execution by any live worker, if its project has a free slot. */
  lemma MessageCanBeExecuted(cfg: Config, s: Sys, from: seq<Step>, t: Sys, n: nat, w: WorkerId) returns (steps: seq<Step>, u: Sys)
    requires Run(cfg, s, from, t) && OwnerInv(t) && n < |t.msgs| && t.msgs[n].place == Ready && UpForClaim(t, t.msgs[n].job)
    requires w in t.alive && Slots(t, t.jobs[t.msgs[n].job].project) < cfg.limit(t.jobs[t.msgs[n].job].project)
    ensures var j := t.msgs[n].job;
      && Run(cfg, s, steps, u) && Executed(u, n) && u.msgs[n].job == j && u.msgs[n].place.worker == w
      && j in u.jobs && u.jobs[j].status == Running && u.jobs[j].worker == Some(w)
      && u.jobs[j].hist.claims == t.jobs[j].hist.claims + 1
  {
    assert w in t.beating;
    steps, u := Act1(cfg, s, from, t, n, Deliver(w));
    steps, u := Act1(cfg, s, steps, u, n, Acquire);
    steps, u := Act1(cfg, s, steps, u, n, Claim);
  }

  /** A worker that died with an unsettled delivery of a running job is replaced: its heartbeat lapses, the broker
      redelivers, and another worker takes the job over. */
  lemma DeadWorkerIsReplaced(cfg: Config, s: Sys, m: nat, w: WorkerId) returns (steps: seq<Step>, t: Sys)
    requires Reachable(cfg, s) && CanAct(s, m, Redeliver) && w in s.alive
    requires s.jobs[s.msgs[m].job].status == Running && s.jobs[s.msgs[m].job].worker == Some(s.msgs[m].place.worker)
    requires Slots(s, s.jobs[s.msgs[m].job].project) < cfg.limit(s.jobs[s.msgs[m].job].project)
    ensures var j := s.msgs[m].job;
      && Run(cfg, s, steps, t) && Executed(t, |s.msgs|) && t.msgs[|s.msgs|].job == j
      && j in t.jobs && t.jobs[j].status == Running && t.jobs[j].worker == Some(w)
  {
    var v := s.msgs[m].place.worker;
    var before :| Run(cfg, INIT, before, s);
    RunKeepsOwner(cfg, INIT, before, s);
    assert Run(cfg, s, [], s);
    RunAppend(cfg, s, [], s, Lapse(v));
    var u := Apply(cfg, s, Lapse(v));
    steps := [] + [Lapse(v)];
    StepKeepsOwner(cfg, s, Lapse(v));
    StepKeepsOwner(cfg, u, Work(m, Redeliver));
    steps, t := Act1(cfg, s, steps, u, m, Redeliver);
    assert t.msgs[|s.msgs|] == Msg(s.msgs[m].job, s.msgs[m].attempt, Ready, false);
    steps, t := MessageCanBeExecuted(cfg, s, steps, t, |s.msgs|, w);
  }
}
