/** When a waiting job loses its way back, exactly: a `queued` job never does, a `retrying` one only if, before its
    `retrying` was written, a claim by its last message was refused (packages/worker-runtime/src/runner.ts:168-174 and
    228-246, packages/worker-runtime/src/reporter.ts:90-101). */
module DeliveryRetry {
  import opened Basics
  import opened Delivery
  import opened DeliveryOwner
  import opened DeliveryOutbox
  import opened DeliveryCover
  import opened DeliveryRunning

  /** A live worker has published a retry of the job and will write `retrying`. */
  ghost predicate IsAnnounced(s: Sys, j: JobId) {
    exists m: nat :: Announcing(s, m) && s.msgs[m].job == j
  }

  /** The job waits, or is about to. */
  ghost predicate Needs(s: Sys, j: JobId) {
    j in s.jobs && (s.jobs[j].status == Queued || s.jobs[j].status == Retrying || IsAnnounced(s, j))
  }

  /** Message `m` is the only live one of the job. */
  predicate OnlyLive(s: Sys, m: nat, j: JobId) {
    forall n | 0 <= n < |s.msgs| && n != m :: s.msgs[n].job == j ==> !Live(s.msgs[n].place)
  }

  // ---- acts on a message of the job -----------------------------------------------------------

  /** The act leaves a live message of a job that needs one. */
  predicate HandsOn(s: Sys, m: nat, c: Change)
    requires m < |s.msgs| && s.msgs[m].job in s.jobs
  {
    || Live(c.msg.place) || (|c.added| == 1 && Live(c.added[0].place))
    || (!Live(s.msgs[m].place) && (HeldAt(s, c.msg, RetryPublished) ==> HeldAt(s, s.msgs[m], RetryPublished))
        && (c.job.status == s.jobs[s.msgs[m].job].status || HeldAt(s, s.msgs[m], RetryPublished)
            || !(c.job.status == Queued || c.job.status == Retrying)))
  }

  /** Only a claim takes a live message away. */
  lemma ActHandsOn(cfg: Config, s: Sys, m: nat, act: Act)
    requires CanAct(s, m, act) && act != Claim
    ensures HandsOn(s, m, Do(cfg, s, m, act))
  {
  }

  lemma KeptMessage(s: Sys, m: nat, c: Change, j: JobId)
    requires m < |s.msgs| && HasMessage(s, j) && (s.msgs[m].job == j ==> !Live(s.msgs[m].place))
    ensures HasMessage(Effect(s, m, c), j)
  {
    var n :| 0 <= n < |s.msgs| && s.msgs[n].job == j && Live(s.msgs[n].place);
    Kept(s, m, c, n);
  }

  /** A delivery that announces the job after an act did so before it, unless it is the act's own. */
  lemma AnnouncedBefore(s: Sys, m: nat, c: Change, j: JobId)
    requires m < |s.msgs| && s.msgs[m].job in s.jobs && Framed(s, m, c) && IsAnnounced(Effect(s, m, c), j)
    requires HeldAt(s, c.msg, RetryPublished) && s.msgs[m].job == j ==> HeldAt(s, s.msgs[m], RetryPublished)
    ensures IsAnnounced(s, j)
  {
    var t := Effect(s, m, c);
    var n: nat :| Announcing(t, n) && t.msgs[n].job == j;
    assert n < |s.msgs|;
    if n != m { Kept(s, m, c, n); }
    assert Announcing(s, n);
  }

  /** An announced job is running or cancelling. */
  lemma AnnouncedIsActive(s: Sys, j: JobId)
    requires OwnerInv(s) && IsAnnounced(s, j)
    ensures IsActive(s, j)
  {
    var m: nat :| Announcing(s, m) && s.msgs[m].job == j;
    assert Executed(s, m);
    assert Owner(s.jobs[s.msgs[m].job], s.msgs[m].place.worker);
  }

  lemma EffectHandsOn(s: Sys, m: nat, c: Change, j: JobId)
    requires OwnerInv(s) && m < |s.msgs| && s.msgs[m].job == j && j in s.jobs && Framed(s, m, c) && HandsOn(s, m, c)
    requires (Needs(s, j) ==> Covered(s, j)) && Needs(Effect(s, m, c), j)
    ensures Covered(Effect(s, m, c), j)
  {
    var t := Effect(s, m, c);
    assert t.msgs[m] == c.msg;
    assert |c.added| == 1 ==> t.msgs[|s.msgs|] == c.added[0];
    if !(Live(c.msg.place) || (|c.added| == 1 && Live(c.added[0].place))) {
      if IsAnnounced(t, j) { AnnouncedBefore(s, m, c, j); }
      if HeldAt(s, s.msgs[m], RetryPublished) { assert Announcing(s, m); }
      assert Needs(s, j);
      if HasMessage(s, j) {
        KeptMessage(s, m, c, j);
      } else {
        assert !IsActive(s, j);
        if IsAnnounced(s, j) { AnnouncedIsActive(s, j); }
        var i :| 0 <= i < |s.outbox| && s.outbox[i].job == j && Seen(s.outbox[i]).status != Sent;
        assert t.outbox[i] == s.outbox[i];
      }
    }
  }

  // ---- the claim ------------------------------------------------------------------------------

  lemma UnrefusedClaimEndsNeed(cfg: Config, s: Sys, m: nat, j: JobId)
    requires OwnerInv(s) && CanAct(s, m, Claim) && s.msgs[m].job == j && !RefusedClaim(s, Work(m, Claim), j)
    ensures !Needs(Apply(cfg, s, Work(m, Claim)), j)
  {
    var c, w := Do(cfg, s, m, Claim), s.msgs[m].place.worker;
    var t := Effect(s, m, c);
    ActIsFramed(cfg, s, m, Claim);
    if IsAnnounced(t, j) {
      AnnouncedBefore(s, m, c, j);
      AnnouncedIsActive(s, j);
      var n: nat :| Announcing(s, n) && s.msgs[n].job == j;
      assert Executed(s, n);
      ClaimableIsFree(s, j, w);
    }
  }

  lemma RefusedClaimLoses(cfg: Config, s: Sys, m: nat, j: JobId)
    requires OwnerInv(s) && CanAct(s, m, Claim) && RefusedClaim(s, Work(m, Claim), j)
    ensures Needs(Apply(cfg, s, Work(m, Claim)), j) <==> IsAnnounced(s, j)
    ensures Covered(Apply(cfg, s, Work(m, Claim)), j) <==> !OnlyLive(s, m, j)
  {
    var c := Do(cfg, s, m, Claim);
    var t := Effect(s, m, c);
    ActIsFramed(cfg, s, m, Claim);
    assert |t.msgs| == |s.msgs| && t.msgs[m] == At(s.msgs[m], AckDue) && t.jobs[j].status == s.jobs[j].status;
    if IsAnnounced(t, j) { AnnouncedBefore(s, m, c, j); }
    if IsAnnounced(s, j) {
      var n: nat :| Announcing(s, n) && s.msgs[n].job == j;
      Kept(s, m, c, n);
      assert Announcing(t, n);
    }
    if !OnlyLive(s, m, j) {
      var n :| 0 <= n < |s.msgs| && n != m && s.msgs[n].job == j && Live(s.msgs[n].place);
      Kept(s, m, c, n);
    }
  }

  // ---- everything else ------------------------------------------------------------------------

  lemma OtherMessageHandsOn(s: Sys, m: nat, c: Change, j: JobId)
    requires OwnerInv(s) && m < |s.msgs| && s.msgs[m].job in s.jobs && s.msgs[m].job != j && Framed(s, m, c)
    requires (Needs(s, j) ==> Covered(s, j)) && Needs(Effect(s, m, c), j)
    ensures Covered(Effect(s, m, c), j)
  {
    var t := Effect(s, m, c);
    if IsAnnounced(t, j) { AnnouncedBefore(s, m, c, j); }
    if HasMessage(s, j) {
      KeptMessage(s, m, c, j);
    } else {
      var i :| 0 <= i < |s.outbox| && s.outbox[i].job == j && Seen(s.outbox[i]).status != Sent;
      assert t.outbox[i] == s.outbox[i];
    }
  }

  /** No step but an act adds an announcement or makes a known job wait. */
  lemma OthersAddNoNeed(cfg: Config, s: Sys, step: Step, j: JobId)
    requires OwnerInv(s) && Enabled(cfg, s, step) && !step.Work? && Needs(Apply(cfg, s, step), j)
    ensures j in s.jobs ==> Needs(s, j)
    ensures j in s.jobs && s.jobs[j].status == Queued ==> Apply(cfg, s, step).jobs[j].status == Queued
  {
    var t := Apply(cfg, s, step);
    assert s.msgs <= t.msgs;
    if IsAnnounced(t, j) {
      var n: nat :| Announcing(t, n) && t.msgs[n].job == j;
      assert n < |s.msgs| && t.msgs[n] == s.msgs[n] && s.msgs[n].place.worker in s.seen;
      assert Announcing(s, n);
      AnnouncedIsActive(s, j);
    }
  }

  lemma OthersKeepCover(cfg: Config, s: Sys, step: Step, j: JobId)
    requires OwnerInv(s) && OutboxInv(cfg, s) && Enabled(cfg, s, step) && !step.Work?
    requires (Needs(s, j) ==> Covered(s, j)) && Needs(Apply(cfg, s, step), j)
    ensures Covered(Apply(cfg, s, step), j)
  {
    var t := Apply(cfg, s, step);
    OthersAddNoNeed(cfg, s, step, j);
    StepKeepsRows(cfg, s, step);
    if j in s.jobs {
      if HasMessage(s, j) {
        var n :| 0 <= n < |s.msgs| && s.msgs[n].job == j && Live(s.msgs[n].place);
        assert t.msgs[n] == s.msgs[n];
      } else {
        var i :| 0 <= i < |s.outbox| && s.outbox[i].job == j && Seen(s.outbox[i]).status != Sent;
        assert t.outbox[i].job == j;
      }
    } else {
      NewJobHasRow(cfg, s, step, j);
    }
  }

  ghost predicate RowsKept(s: Sys, t: Sys) {
    && s.msgs <= t.msgs && |s.outbox| <= |t.outbox|
    && forall i | 0 <= i < |s.outbox| && Seen(s.outbox[i]).status != Sent ::
         t.outbox[i].job == s.outbox[i].job && (Seen(t.outbox[i]).status != Sent || HasMessage(t, s.outbox[i].job))
  }

  lemma StepKeepsRows(cfg: Config, s: Sys, step: Step)
    requires OutboxInv(cfg, s) && Enabled(cfg, s, step) && !step.Work?
    ensures RowsKept(s, Apply(cfg, s, step))
  {
    match step
    case Enqueue(j, p, key, maxAttempts) => EnqueueIsMilder(s, j, p, key, maxAttempts);
    case Relay(i, pub) => RelayIsMilder(cfg, s, i, pub);
    case Lock(_, _) => TransactionIsMilder(cfg, s, step);
    case Commit(_) => TransactionIsMilder(cfg, s, step);
    case Rollback(_) => TransactionIsMilder(cfg, s, step);
    case Spawn(_) =>
    case _ => OtherIsMilder(cfg, s, step);
  }

  lemma NewJobHasRow(cfg: Config, s: Sys, step: Step, j: JobId)
    requires OwnerInv(s) && Enabled(cfg, s, step) && !step.Work? && j !in s.jobs && j in Apply(cfg, s, step).jobs
    ensures Covered(Apply(cfg, s, step), j)
  {
    var t := Apply(cfg, s, step);
    assert step.Enqueue? && step.job == j;
    assert t.outbox[|s.outbox|].job == j && Seen(t.outbox[|s.outbox|]).status != Sent;
  }

  // ---- results --------------------------------------------------------------------------------

  lemma StepHandsOn(cfg: Config, s: Sys, step: Step, j: JobId)
    requires OwnerInv(s) && OutboxInv(cfg, s) && Enabled(cfg, s, step) && !RefusedClaim(s, step, j)
    requires Needs(s, j) ==> Covered(s, j)
    ensures Needs(Apply(cfg, s, step), j) ==> Covered(Apply(cfg, s, step), j)
  {
    if Needs(Apply(cfg, s, step), j) {
      match step {
        case Work(m, act) =>
          var c := Do(cfg, s, m, act);
          ActIsFramed(cfg, s, m, act);
          if s.msgs[m].job != j {
            OtherMessageHandsOn(s, m, c, j);
          } else if act == Claim {
            UnrefusedClaimEndsNeed(cfg, s, m, j);
          } else {
            ActHandsOn(cfg, s, m, act);
            EffectHandsOn(s, m, c, j);
          }
        case _ => OthersKeepCover(cfg, s, step, j);
      }
    }
  }

  /** A step leaves a job that waits, or is about to, without a way back exactly when it is a refused claim by the only
      live message of a job whose retry is published and whose `retrying` is still to be written. */
  lemma WaitLostExactlyWhen(cfg: Config, s: Sys, step: Step, j: JobId)
    requires OwnerInv(s) && OutboxInv(cfg, s) && Enabled(cfg, s, step) && (Needs(s, j) ==> Covered(s, j))
    ensures Needs(Apply(cfg, s, step), j) && !Covered(Apply(cfg, s, step), j) <==>
            RefusedClaim(s, step, j) && IsAnnounced(s, j) && OnlyLive(s, step.m, j)
  {
    if RefusedClaim(s, step, j) {
      RefusedClaimLoses(cfg, s, step.m, j);
    } else {
      StepHandsOn(cfg, s, step, j);
    }
  }

  lemma {:induction false} RunHandsOn(cfg: Config, s: Sys, steps: seq<Step>, t: Sys, j: JobId)
    requires OwnerInv(s) && OutboxInv(cfg, s) && Run(cfg, s, steps, t) && NeverRefused(cfg, s, steps, j)
    requires Needs(s, j) ==> Covered(s, j)
    ensures Needs(t, j) ==> Covered(t, j)
    decreases |steps|
  {
    if steps != [] {
      StepHandsOn(cfg, s, steps[0], j);
      StepKeepsOwner(cfg, s, steps[0]);
      StepKeepsOutbox(cfg, s, steps[0]);
      RunHandsOn(cfg, Apply(cfg, s, steps[0]), steps[1..], t, j);
    }
  }

  /** In every run in which no claim on the job is refused while it is active, a `retrying` job has a live message,
      however early its retries matured; and so has one whose retry is published but not yet written. */
  lemma RetryingJobHasMessage(cfg: Config, steps: seq<Step>, s: Sys, j: JobId)
    requires Run(cfg, INIT, steps, s) && NeverRefused(cfg, INIT, steps, j)
    requires j in s.jobs && (s.jobs[j].status == Retrying || IsAnnounced(s, j))
    ensures HasMessage(s, j)
  {
    RunHandsOn(cfg, INIT, steps, s, j);
    RunKeepsOwner(cfg, INIT, steps, s);
    if IsAnnounced(s, j) { AnnouncedIsActive(s, j); }
  }
}
