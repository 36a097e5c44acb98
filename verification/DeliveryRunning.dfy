/** When a `running` or `cancelling` job keeps a message that can finish it. Unlike a waiting job it can lose its last
    one, and does so exactly when a claim on it is refused (packages/worker-runtime/src/reporter.ts:90-101,
    packages/worker-runtime/src/runner.ts:168-174). */
module DeliveryRunning {
  import opened Basics
  import opened Delivery
  import opened DeliveryOwner
  import opened DeliveryTerminal
  import opened DeliveryCover

  predicate Active(status: Status) { status == Running || status == Cancelling }

  predicate IsActive(s: Sys, j: JobId) { j in s.jobs && Active(s.jobs[j].status) }

  /** A message that is being executed, or waits to be, or will be put back. A delivery that is about to be acked is
      none of these, although its worker's death would still bring it back: the ack makes the loss final. */
  predicate Working(place: Place) {
    Live(place) || (place.Held? && Owns(place.pc))
  }

  ghost predicate HasWork(s: Sys, j: JobId) {
    exists m | 0 <= m < |s.msgs| :: s.msgs[m].job == j && Working(s.msgs[m].place)
  }

  /** A claim that finds the job active and not claimable: its owner is the claimant or still has a fresh heartbeat,
      or the job is `cancelling`. */
  predicate RefusedClaim(s: Sys, step: Step, j: JobId) {
    && step.Work? && step.act == Claim && CanAct(s, step.m, Claim) && s.msgs[step.m].job == j
    && IsActive(s, j) && !Claimable(s.jobs[j], s.msgs[step.m].place.worker, s.beating)
  }

  // ---- one step -------------------------------------------------------------------------------

  /** The act leaves a working message of an active job, and a job that becomes active has one. */
  predicate PassesOn(s: Sys, m: nat, c: Change)
    requires m < |s.msgs| && s.msgs[m].job in s.jobs
  {
    && (Working(s.msgs[m].place) && Active(c.job.status) ==>
          Working(c.msg.place) || (|c.added| == 1 && Working(c.added[0].place)))
    && (Active(c.job.status) && !Active(s.jobs[s.msgs[m].job].status) ==> Working(c.msg.place))
  }

  lemma ActPassesOn(cfg: Config, s: Sys, m: nat, act: Act)
    requires OwnerInv(s) && CanAct(s, m, act) && !RefusedClaim(s, Work(m, act), s.msgs[m].job)
    ensures PassesOn(s, m, Do(cfg, s, m, act))
  {
    if Executed(s, m) {
      assert Owner(s.jobs[s.msgs[m].job], s.msgs[m].place.worker);
    }
  }

  lemma EffectPassesOn(s: Sys, m: nat, c: Change, j: JobId)
    requires m < |s.msgs| && s.msgs[m].job in s.jobs && Framed(s, m, c) && PassesOn(s, m, c)
    requires (IsActive(s, j) ==> HasWork(s, j)) && IsActive(Effect(s, m, c), j)
    ensures HasWork(Effect(s, m, c), j)
  {
    var t := Effect(s, m, c);
    assert t.msgs[m] == c.msg;
    assert |c.added| == 1 ==> t.msgs[|s.msgs|] == c.added[0];
    if IsActive(s, j) {
      var n :| 0 <= n < |s.msgs| && s.msgs[n].job == j && Working(s.msgs[n].place);
      if n != m { Kept(s, m, c, n); }
    }
  }

  lemma OthersPassOn(cfg: Config, s: Sys, step: Step, j: JobId)
    requires Enabled(cfg, s, step) && !step.Work? && IsActive(Apply(cfg, s, step), j)
    ensures IsActive(s, j) && (HasWork(s, j) ==> HasWork(Apply(cfg, s, step), j))
  {
    var t := Apply(cfg, s, step);
    assert s.msgs <= t.msgs;
    if HasWork(s, j) {
      var n :| 0 <= n < |s.msgs| && s.msgs[n].job == j && Working(s.msgs[n].place);
      assert t.msgs[n] == s.msgs[n];
    }
  }

  lemma StepPassesOn(cfg: Config, s: Sys, step: Step, j: JobId)
    requires OwnerInv(s) && Enabled(cfg, s, step) && !RefusedClaim(s, step, j)
    requires IsActive(s, j) ==> HasWork(s, j)
    ensures IsActive(Apply(cfg, s, step), j) ==> HasWork(Apply(cfg, s, step), j)
  {
    if IsActive(Apply(cfg, s, step), j) {
      match step {
        case Work(m, act) =>
          ActIsFramed(cfg, s, m, act);
          if s.msgs[m].job == j {
            ActPassesOn(cfg, s, m, act);
            EffectPassesOn(s, m, Do(cfg, s, m, act), j);
          } else {
            OtherMessagesPassOn(s, m, Do(cfg, s, m, act), j);
          }
        case _ => OthersPassOn(cfg, s, step, j);
      }
    }
  }

  lemma OtherMessagesPassOn(s: Sys, m: nat, c: Change, j: JobId)
    requires m < |s.msgs| && s.msgs[m].job in s.jobs && Framed(s, m, c) && s.msgs[m].job != j
    requires (IsActive(s, j) ==> HasWork(s, j)) && IsActive(Effect(s, m, c), j)
    ensures HasWork(Effect(s, m, c), j)
  {
    var n :| 0 <= n < |s.msgs| && s.msgs[n].job == j && Working(s.msgs[n].place);
    Kept(s, m, c, n);
  }

  predicate OnlyWork(s: Sys, m: nat, j: JobId) {
    forall n | 0 <= n < |s.msgs| && n != m :: s.msgs[n].job == j ==> !Working(s.msgs[n].place)
  }

  lemma RefusalLoses(cfg: Config, s: Sys, m: nat, j: JobId)
    requires Enabled(cfg, s, Work(m, Claim)) && RefusedClaim(s, Work(m, Claim), j)
    ensures IsActive(Apply(cfg, s, Work(m, Claim)), j)
    ensures HasWork(Apply(cfg, s, Work(m, Claim)), j) <==> !OnlyWork(s, m, j)
  {
    var c := Do(cfg, s, m, Claim);
    var t := Effect(s, m, c);
    assert |t.msgs| == |s.msgs| && t.msgs[m] == At(s.msgs[m], AckDue);
    if !OnlyWork(s, m, j) {
      var n :| 0 <= n < |s.msgs| && n != m && s.msgs[n].job == j && Working(s.msgs[n].place);
      assert t.msgs[n] == s.msgs[n];
    }
  }

  /** A step leaves an active job without a message exactly when it is a refused claim by the only message it had. */
  lemma LostExactlyWhen(cfg: Config, s: Sys, step: Step, j: JobId)
    requires OwnerInv(s) && Enabled(cfg, s, step) && (IsActive(s, j) ==> HasWork(s, j))
    ensures IsActive(Apply(cfg, s, step), j) && !HasWork(Apply(cfg, s, step), j) <==>
            RefusedClaim(s, step, j) && OnlyWork(s, step.m, j)
  {
    if RefusedClaim(s, step, j) {
      RefusalLoses(cfg, s, step.m, j);
    } else {
      StepPassesOn(cfg, s, step, j);
    }
  }

  // ---- runs -----------------------------------------------------------------------------------

  /** No claim on the job is refused while it is active. */
  ghost predicate NeverRefused(cfg: Config, s: Sys, steps: seq<Step>, j: JobId)
    decreases |steps|
  {
    steps == [] ||
    (!RefusedClaim(s, steps[0], j) && Enabled(cfg, s, steps[0]) && NeverRefused(cfg, Apply(cfg, s, steps[0]), steps[1..], j))
  }

  lemma {:induction false} RunPassesOn(cfg: Config, s: Sys, steps: seq<Step>, t: Sys, j: JobId)
    requires OwnerInv(s) && Run(cfg, s, steps, t) && NeverRefused(cfg, s, steps, j)
    requires IsActive(s, j) ==> HasWork(s, j)
    ensures IsActive(t, j) ==> HasWork(t, j)
    decreases |steps|
  {
    if steps != [] {
      StepPassesOn(cfg, s, steps[0], j);
      StepKeepsOwner(cfg, s, steps[0]);
      RunPassesOn(cfg, Apply(cfg, s, steps[0]), steps[1..], t, j);
    }
  }

  /** In every run in which no claim on the job is refused while it is active, an active job has a message that is
      executed, waits to be, or will be put back. */
  lemma ActiveJobHasMessage(cfg: Config, steps: seq<Step>, s: Sys, j: JobId)
    requires Run(cfg, INIT, steps, s) && NeverRefused(cfg, INIT, steps, j)
    requires j in s.jobs && (s.jobs[j].status == Running || s.jobs[j].status == Cancelling)
    ensures exists m | 0 <= m < |s.msgs| ::
              s.msgs[m].job == j && (Live(s.msgs[m].place) || (s.msgs[m].place.Held? && Owns(s.msgs[m].place.pc)))
  {
    RunPassesOn(cfg, INIT, steps, s, j);
    var m :| 0 <= m < |s.msgs| && s.msgs[m].job == j && Working(s.msgs[m].place);
  }

  // ---- a cancelling job without an execution --------------------------------------------------

  /** No live worker executes the job. */
  ghost predicate Idle(s: Sys, j: JobId) {
    forall m | Executed(s, m) :: s.msgs[m].job != j
  }

  ghost predicate Orphaned(s: Sys, j: JobId) {
    j in s.jobs && s.jobs[j].status == Cancelling && Idle(s, j)
  }

  lemma ActKeepsOrphan(cfg: Config, s: Sys, m: nat, act: Act, j: JobId)
    requires Orphaned(s, j) && CanAct(s, m, act)
    ensures Orphaned(Apply(cfg, s, Work(m, act)), j)
    ensures Apply(cfg, s, Work(m, act)).jobs[j].hist.claims == s.jobs[j].hist.claims
  {
    var c := Do(cfg, s, m, act);
    var t := Effect(s, m, c);
    ActIsFramed(cfg, s, m, act);
    assert s.msgs[m].job == j ==> !Executed(s, m);
    assert s.msgs[m].job == j ==>
        c.job.status == Cancelling && c.job.hist.claims == s.jobs[j].hist.claims && !ExecutedBy(c.msg, s.alive);
    forall n | Executed(t, n) ensures t.msgs[n].job != j {
      if n < |s.msgs| && n != m { assert t.msgs[n] == s.msgs[n] && (Executed(s, n) <==> Executed(t, n)); }
    }
  }

  lemma StepKeepsOrphan(cfg: Config, s: Sys, step: Step, j: JobId)
    requires OwnerInv(s) && Orphaned(s, j) && Enabled(cfg, s, step)
    ensures Orphaned(Apply(cfg, s, step), j)
    ensures Apply(cfg, s, step).jobs[j].hist.claims == s.jobs[j].hist.claims
  {
    match step
    case Work(m, act) => ActKeepsOrphan(cfg, s, m, act, j);
    case _ =>
      var t := Apply(cfg, s, step);
      assert s.msgs <= t.msgs;
      forall n | Executed(t, n) ensures t.msgs[n].job != j {
        assert n < |s.msgs| && t.msgs[n] == s.msgs[n] && s.msgs[n].place.worker in s.seen;
        assert Executed(s, n);
      }
  }

  lemma {:induction false} RunKeepsOrphan(cfg: Config, s: Sys, steps: seq<Step>, t: Sys, j: JobId)
    requires OwnerInv(s) && Orphaned(s, j) && Run(cfg, s, steps, t)
    ensures Orphaned(t, j) && t.jobs[j].hist.claims == s.jobs[j].hist.claims
    decreases |steps|
  {
    if steps != [] {
      StepKeepsOrphan(cfg, s, steps[0], j);
      StepKeepsOwner(cfg, s, steps[0]);
      RunKeepsOrphan(cfg, Apply(cfg, s, steps[0]), steps[1..], t, j);
    }
  }

  /** A `cancelling` job that no live worker executes stays so for ever: no claim, redelivery, cancel or replay takes
      it out. */
  lemma CancellingOrphanStays(cfg: Config, s: Sys, steps: seq<Step>, t: Sys, j: JobId)
    requires Reachable(cfg, s) && Run(cfg, s, steps, t)
    requires j in s.jobs && s.jobs[j].status == Cancelling && forall m | Executed(s, m) :: s.msgs[m].job != j
    ensures j in t.jobs && t.jobs[j].status == Cancelling && t.jobs[j].hist.claims == s.jobs[j].hist.claims
    ensures forall m | Executed(t, m) :: t.msgs[m].job != j
  {
    var before :| Run(cfg, INIT, before, s);
    RunKeepsOwner(cfg, INIT, before, s);
    RunKeepsOrphan(cfg, s, steps, t, j);
  }

  /** And only its own execution takes a `cancelling` job out of that status. */
  lemma CancellingEndsByItsOwner(cfg: Config, s: Sys, step: Step, j: JobId)
    requires OwnerInv(s) && Enabled(cfg, s, step) && j in s.jobs && s.jobs[j].status == Cancelling
    requires j in Apply(cfg, s, step).jobs && Apply(cfg, s, step).jobs[j].status != Cancelling
    ensures step.Work? && Executed(s, step.m) && s.msgs[step.m].job == j
  {
    if Idle(s, j) {
      StepKeepsOrphan(cfg, s, step, j);
    } else {
      match step {
        case Work(m, act) => ActIsFramed(cfg, s, m, act);
        case _ =>
      }
    }
  }

  lemma OwnExecutionEnds(cfg: Config, s: Sys, j: JobId, m: nat) returns (step: Step)
    requires Reachable(cfg, s) && j in s.jobs && s.jobs[j].status == Cancelling && Executed(s, m) && s.msgs[m].job == j
    ensures Enabled(cfg, s, step) && j in Apply(cfg, s, step).jobs && Apply(cfg, s, step).jobs[j].status != Cancelling
  {
    assert Run(cfg, s, [], s);
    CancelIsObservable(cfg, s, [], s, m);
    var act := if s.msgs[m].place.pc == Executing then CancelSeen else WriteRetrying;
    assert CanAct(s, m, act);
    ActIsFramed(cfg, s, m, act);
    assert Do(cfg, s, m, act).job.status == if act == CancelSeen then Cancelled else Retrying;
    step := Work(m, act);
    var t := Effect(s, m, Do(cfg, s, m, act));
    assert t.jobs[j] == Do(cfg, s, m, act).job && Apply(cfg, s, step) == t;
  }

  /** Some run takes the job out of `cancelling`. */
  ghost predicate CanEnd(cfg: Config, s: Sys, j: JobId) {
    exists steps, t :: Run(cfg, s, steps, t) && j in t.jobs && t.jobs[j].status != Cancelling
  }

  /** A `cancelling` job can still get another status if and only if a live worker executes it. */
  lemma CancellingEndsIff(cfg: Config, s: Sys, j: JobId)
    requires Reachable(cfg, s) && j in s.jobs && s.jobs[j].status == Cancelling
    ensures CanEnd(cfg, s, j) <==> exists m | Executed(s, m) :: s.msgs[m].job == j
  {
    if m :| Executed(s, m) && s.msgs[m].job == j {
      var step := OwnExecutionEnds(cfg, s, j, m);
      var t := Apply(cfg, s, step);
      assert [step][1..] == [] && Run(cfg, t, [], t);
      assert Run(cfg, s, [step], t);
    } else {
      assert forall m | Executed(s, m) :: s.msgs[m].job != j;
      forall steps, t | Run(cfg, s, steps, t) ensures j in t.jobs && t.jobs[j].status == Cancelling {
        CancellingOrphanStays(cfg, s, steps, t, j);
      }
    }
  }

  // ---- no way back ----------------------------------------------------------------------------

  /** Nothing is left that could bring the job to a worker: its messages are settled and its outbox row sent. */
  ghost predicate Stranded(s: Sys, j: JobId) {
    && j in s.jobs
    && (forall m | 0 <= m < |s.msgs| :: s.msgs[m].job == j ==> Settled(s.msgs[m].place))
    && (forall i | 0 <= i < |s.outbox| :: s.outbox[i].job == j ==> s.outbox[i].row.status == Sent && s.outbox[i].lock.None?)
  }

  predicate Settled(place: Place) {
    place == Gone || (place.Held? && (place.pc == Acked || place.pc == BelowZero))
  }

  /** Only a cancel can still touch a stranded job, and it does not help. */
  predicate Stuck(job: Job, after: Job) {
    && after.hist.claims == job.hist.claims
    && (after.status == job.status || (job.status == Running && after.status == Cancelling)
        || ((job.status == Queued || job.status == Retrying) && after.status == Cancelled))
  }

  lemma ActKeepsStranded(cfg: Config, s: Sys, m: nat, act: Act, j: JobId)
    requires Stranded(s, j) && CanAct(s, m, act)
    ensures Stranded(Apply(cfg, s, Work(m, act)), j) && Stuck(s.jobs[j], Apply(cfg, s, Work(m, act)).jobs[j])
  {
    var c := Do(cfg, s, m, act);
    var t := Effect(s, m, c);
    ActIsFramed(cfg, s, m, act);
    assert s.msgs[m].job == j ==> Settled(s.msgs[m].place);
    assert s.msgs[m].job == j ==> Settled(c.msg.place) && c.added == [] && c.job == s.jobs[j];
    forall n | 0 <= n < |t.msgs| ensures t.msgs[n].job == j ==> Settled(t.msgs[n].place) {
      if n < |s.msgs| && n != m { assert t.msgs[n] == s.msgs[n]; }
    }
  }

  lemma StepKeepsStranded(cfg: Config, s: Sys, step: Step, j: JobId)
    requires Stranded(s, j) && Enabled(cfg, s, step)
    ensures Stranded(Apply(cfg, s, step), j) && Stuck(s.jobs[j], Apply(cfg, s, step).jobs[j])
  {
    match step
    case Work(m, act) => ActKeepsStranded(cfg, s, m, act, j);
    case _ =>
  }

  /** A stranded job is never executed again and never gets another status, but for a cancel, which leaves it
      `cancelling` or `cancelled`. */
  lemma {:induction false} StrandedForGood(cfg: Config, s: Sys, steps: seq<Step>, t: Sys, j: JobId)
    requires Stranded(s, j) && Run(cfg, s, steps, t)
    ensures Stranded(t, j) && Stuck(s.jobs[j], t.jobs[j])
    decreases |steps|
  {
    if steps != [] {
      StepKeepsStranded(cfg, s, steps[0], j);
      StrandedForGood(cfg, Apply(cfg, s, steps[0]), steps[1..], t, j);
    }
  }
}
