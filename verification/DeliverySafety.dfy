/** The protocol's promises about one job, in every state the imperative services can bring about. */
module DeliverySafety {
  import opened Delivery
  import opened DeliveryOwner
  import opened DeliveryTerminal
  import opened DeliveryOutbox
  import opened DeliveryClaims
  import opened DeliveryCover
  import opened DeliverySlots
  import opened DeliveryWorld

  /** Whatever statements the shells, relays and gateways have made, in whatever order: a job has at most one live
      execution, recorded in `worker_id`; its executions are bounded; it is not lost while it waits; and its project
      is within its limit. */
  lemma WorldIsSafe(w: World, j: JobId)
    requires w.Valid() && j in w.jobs
    ensures var s, job := w.Now(), w.jobs[j];
      && (forall m, n | Executed(s, m) && Executed(s, n) && s.msgs[m].job == j && s.msgs[n].job == j :: m == n)
      && (forall m | Executed(s, m) && s.msgs[m].job == j :: Owner(job, s.msgs[m].place.worker))
      && (job.status == Completed || job.status == Failed || job.status == Cancelled ==>
            forall m | Executed(s, m) :: s.msgs[m].job != j)
      && (Undisturbed(job.hist) ==> job.hist.claims <= job.maxAttempts)
      && (Waits(s, j) ==> Covered(s, j))
      && Slots(s, job.project) <= w.cfg.limit(job.project)
  {
    var s := w.Now();
    assert Reachable(w.cfg, s);
    OneOwner(w.cfg, s);
    if Undisturbed(w.jobs[j].hist) { UndisturbedClaims(w.cfg, s, j); }
    RunKeepsCover(w.cfg, INIT, w.log, s);
    LiveExecutionsWithinLimit(w.cfg, s, w.jobs[j].project, {});
    forall m | Executed(s, m) && s.msgs[m].job == j ensures Owner(w.jobs[j], s.msgs[m].place.worker) { }
  }
}
