/** No waiting job is lost: a `queued` or `retrying` job always has an outbox row still to be sent, or a message
    that will reach a worker or lies in the dead-letter queue
    (packages/worker-runtime/src/runner.ts:140-160 and 228-246, packages/core/src/enqueue.ts:90-149). */
module DeliveryCover {
  import opened Basics
  import opened Delivery
  import opened DeliveryOwner
  import opened DeliveryOutbox

  /** The job waits to be claimed, and its retry, if it has one, was announced before it matured. */
  predicate Waits(s: Sys, j: JobId) {
    j in s.jobs && (s.jobs[j].status == Queued || (s.jobs[j].status == Retrying && j !in s.early))
  }

  /** The broker keeps this message, or will put it back, until a worker has tried to claim with it. */
  predicate Live(place: Place) {
    match place
    case Delayed(_) | Ready | Dead => true
    case Held(_, pc) => pc == Received || pc == AtLimit || pc == Gated || pc == NackDue
    case Taken(r) => r != Republished
    case Gone => false
  }

  ghost predicate HasMessage(s: Sys, j: JobId) {
    exists m | 0 <= m < |s.msgs| :: s.msgs[m].job == j && Live(s.msgs[m].place)
  }

  ghost predicate HasRow(s: Sys, j: JobId) {
    exists i | 0 <= i < |s.outbox| :: s.outbox[i].job == j && Seen(s.outbox[i]).status != Sent
  }

  ghost predicate Covered(s: Sys, j: JobId) {
    HasMessage(s, j) || (j in s.jobs && s.jobs[j].status == Queued && HasRow(s, j))
  }

  /** A live worker that has published its retry and still has to write `retrying`. */
  predicate Announcing(s: Sys, m: nat) {
    m < |s.msgs| && HeldAt(s, s.msgs[m], RetryPublished)
  }

  ghost predicate HasChild(s: Sys, m: nat) {
    exists k | 0 <= k < |s.msgs| :: m < |s.msgs| && s.msgs[k].job == s.msgs[m].job && s.msgs[k].place == Delayed(Some(m))
  }

  ghost predicate ChildrenWait(s: Sys) {
    forall m: nat | Announcing(s, m) && s.msgs[m].job !in s.early :: HasChild(s, m)
  }

  ghost predicate WaitingCovered(s: Sys) {
    forall j | Waits(s, j) :: Covered(s, j)
  }

  ghost predicate CoverInv(s: Sys) {
    OwnerInv(s) && ChildrenWait(s) && WaitingCovered(s)
  }

  // ---- acts on a message ----------------------------------------------------------------------

  /** The act leaves a live message of the job, or the job waits for none; and a job that starts to wait has one. */
  predicate Handed(s: Sys, m: nat, c: Change)
    requires m < |s.msgs| && s.msgs[m].job in s.jobs
  {
    var job := s.jobs[s.msgs[m].job];
    && (Live(s.msgs[m].place) ==>
          || Live(c.msg.place)
          || (|c.added| == 1 && Live(c.added[0].place))
          || !(c.job.status == Queued || c.job.status == Retrying))
    && (c.job.status == Queued && job.status != Queued ==> Live(c.msg.place))
    && (c.job.status == Retrying && job.status != Retrying ==> Announcing(s, m))
  }

  lemma ActHandsBeforeClaim(cfg: Config, s: Sys, m: nat, act: Act)
    requires BeforeClaim(act)
    requires OwnerInv(s) && CanAct(s, m, act)
    ensures Handed(s, m, Do(cfg, s, m, act))
  {
    if Executed(s, m) {
      assert Owner(s.jobs[s.msgs[m].job], s.msgs[m].place.worker);
    }
  }

  lemma ActHandsAfterHandler(cfg: Config, s: Sys, m: nat, act: Act)
    requires AfterHandler(act)
    requires OwnerInv(s) && CanAct(s, m, act)
    ensures Handed(s, m, Do(cfg, s, m, act))
  {
    if Executed(s, m) {
      assert Owner(s.jobs[s.msgs[m].job], s.msgs[m].place.worker);
    }
  }

  lemma ActHandsElsewhere(cfg: Config, s: Sys, m: nat, act: Act)
    requires !BeforeClaim(act) && !AfterHandler(act)
    requires OwnerInv(s) && CanAct(s, m, act)
    ensures Handed(s, m, Do(cfg, s, m, act))
  {
    if Executed(s, m) {
      assert Owner(s.jobs[s.msgs[m].job], s.msgs[m].place.worker);
    }
  }

  lemma ActHands(cfg: Config, s: Sys, m: nat, act: Act)
    requires OwnerInv(s) && CanAct(s, m, act)
    ensures Handed(s, m, Do(cfg, s, m, act))
  {
    if BeforeClaim(act) {
      ActHandsBeforeClaim(cfg, s, m, act);
    } else if AfterHandler(act) {
      ActHandsAfterHandler(cfg, s, m, act);
    } else {
      ActHandsElsewhere(cfg, s, m, act);
    }
  }

  lemma Kept(s: Sys, m: nat, c: Change, n: nat)
    requires m < |s.msgs| && n < |s.msgs| && n != m
    ensures n < |Effect(s, m, c).msgs| && Effect(s, m, c).msgs[n] == s.msgs[n]
  {
  }

  lemma EffectKeepsCovered(s: Sys, m: nat, c: Change, j: JobId)
    requires m < |s.msgs| && s.msgs[m].job in s.jobs && Framed(s, m, c) && Handed(s, m, c) && ChildrenWait(s)
    requires Waits(Effect(s, m, c), j) && (Waits(s, j) ==> Covered(s, j))
    ensures Covered(Effect(s, m, c), j)
  {
    var t := Effect(s, m, c);
    assert t.msgs[m] == c.msg;
    assert |c.added| == 1 ==> t.msgs[|s.msgs|] == c.added[0];
    if !Waits(s, j) {
      assert j == s.msgs[m].job;
      if !Live(c.msg.place) {
        assert HasChild(s, m);
        var k :| 0 <= k < |s.msgs| && s.msgs[k].job == j && s.msgs[k].place == Delayed(Some(m));
        Kept(s, m, c, k);
        assert HasMessage(t, j);
      }
    } else if !HasMessage(s, j) {
      var i :| 0 <= i < |s.outbox| && s.outbox[i].job == j && Seen(s.outbox[i]).status != Sent;
      assert t.outbox[i] == s.outbox[i];
      assert HasRow(t, j);
    } else {
      var n :| 0 <= n < |s.msgs| && s.msgs[n].job == j && Live(s.msgs[n].place);
      if n != m { Kept(s, m, c, n); }
      assert HasMessage(t, j);
    }
  }

  /** A delivery that starts announcing has just added its child; a child leaves `Delayed` only by maturing,
      and then early. */
  predicate Announced(s: Sys, m: nat, c: Change)
    requires m < |s.msgs|
  {
    && (HeldAt(s, c.msg, RetryPublished) && !Announcing(s, m) ==>
          |c.added| == 1 && c.added[0].place == Delayed(Some(m)))
    && (s.msgs[m].place.Delayed? && c.msg.place != s.msgs[m].place ==> c.early == TooEarly(s, s.msgs[m].place.parent))
  }

  lemma ActAnnounces(cfg: Config, s: Sys, m: nat, act: Act)
    requires CanAct(s, m, act)
    ensures Announced(s, m, Do(cfg, s, m, act))
  {
  }

  lemma EffectKeepsChild(s: Sys, m: nat, c: Change, n: nat)
    requires m < |s.msgs| && s.msgs[m].job in s.jobs && Framed(s, m, c) && Announced(s, m, c) && ChildrenWait(s)
    requires Announcing(Effect(s, m, c), n) && Effect(s, m, c).msgs[n].job !in Effect(s, m, c).early
    ensures HasChild(Effect(s, m, c), n)
  {
    var t := Effect(s, m, c);
    assert t.msgs[m] == c.msg;
    assert |c.added| == 1 ==> t.msgs[|s.msgs|] == c.added[0];
    if n == m && !Announcing(s, m) {
      assert t.msgs[|s.msgs|].place == Delayed(Some(m));
    } else {
      assert n < |s.msgs|;
      if n != m { Kept(s, m, c, n); }
      assert Announcing(s, n) && HasChild(s, n);
      var k :| 0 <= k < |s.msgs| && s.msgs[k].job == s.msgs[n].job && s.msgs[k].place == Delayed(Some(n));
      if k != m { Kept(s, m, c, k); }
      assert t.msgs[k].job == t.msgs[n].job && t.msgs[k].place == Delayed(Some(n));
    }
  }

  lemma ActKeepsCover(cfg: Config, s: Sys, m: nat, act: Act)
    requires CoverInv(s) && CanAct(s, m, act)
    ensures CoverInv(Apply(cfg, s, Work(m, act)))
  {
    var c := Do(cfg, s, m, act);
    var t := Effect(s, m, c);
    StepKeepsOwner(cfg, s, Work(m, act));
    ActIsFramed(cfg, s, m, act);
    ActHands(cfg, s, m, act);
    ActAnnounces(cfg, s, m, act);
    forall j | Waits(t, j) ensures Covered(t, j) {
      EffectKeepsCovered(s, m, c, j);
    }
    forall n: nat | Announcing(t, n) && t.msgs[n].job !in t.early ensures HasChild(t, n) {
      EffectKeepsChild(s, m, c, n);
    }
  }

  // ---- other steps ----------------------------------------------------------------------------

  /** Messages are only added, no job starts waiting, and every row to be sent stays so or has put a message in
      the broker. */
  ghost predicate Milder(s: Sys, t: Sys) {
    && s.msgs <= t.msgs && t.early == s.early && t.alive <= s.alive
    && (forall n | |s.msgs| <= n < |t.msgs| :: t.msgs[n].place == Ready)
    && |s.outbox| <= |t.outbox|
    && (forall i | 0 <= i < |s.outbox| && Seen(s.outbox[i]).status != Sent ::
          t.outbox[i].job == s.outbox[i].job && (Seen(t.outbox[i]).status != Sent || HasMessage(t, s.outbox[i].job)))
    && (forall j | Waits(t, j) ::
          if Waits(s, j) then t.jobs[j].status == s.jobs[j].status else t.jobs[j].status == Queued && HasRow(t, j))
  }

  lemma MilderKeepsCovered(s: Sys, t: Sys)
    requires WaitingCovered(s) && Milder(s, t)
    ensures WaitingCovered(t)
  {
    forall j | Waits(t, j) ensures Covered(t, j) {
      if Waits(s, j) {
        assert Covered(s, j);
        if HasMessage(s, j) {
          var n :| 0 <= n < |s.msgs| && s.msgs[n].job == j && Live(s.msgs[n].place);
          assert t.msgs[n] == s.msgs[n];
        } else {
          var i :| 0 <= i < |s.outbox| && s.outbox[i].job == j && Seen(s.outbox[i]).status != Sent;
          assert t.outbox[i].job == j;
        }
      }
    }
  }

  lemma MilderKeepsChildren(s: Sys, t: Sys)
    requires ChildrenWait(s) && s.msgs <= t.msgs && t.early == s.early
    requires forall n | 0 <= n < |s.msgs| :: HeldAt(t, s.msgs[n], RetryPublished) ==> HeldAt(s, s.msgs[n], RetryPublished)
    requires forall n | |s.msgs| <= n < |t.msgs| :: t.msgs[n].place == Ready
    ensures ChildrenWait(t)
  {
    forall n: nat | Announcing(t, n) && t.msgs[n].job !in t.early ensures HasChild(t, n) {
      assert n < |s.msgs| && Announcing(s, n) && HasChild(s, n);
      var k :| 0 <= k < |s.msgs| && s.msgs[k].job == s.msgs[n].job && s.msgs[k].place == Delayed(Some(n));
      assert t.msgs[k] == s.msgs[k];
    }
  }

  lemma RelayIsMilder(cfg: Config, s: Sys, i: nat, pub: Publish)
    requires Enabled(cfg, s, Relay(i, pub))
    ensures Milder(s, DoRelay(cfg, s, i, pub))
  {
    var t := DoRelay(cfg, s, i, pub);
    if pub == Confirmed {
      assert t.msgs[|s.msgs|].job == s.outbox[i].job && Live(t.msgs[|s.msgs|].place);
      assert HasMessage(t, s.outbox[i].job);
    }
  }

  lemma EnqueueIsMilder(s: Sys, j: JobId, p: ProjectId, key: Option<string>, maxAttempts: nat)
    requires j !in s.jobs
    ensures Milder(s, DoEnqueue(s, j, p, key, maxAttempts))
  {
    var t := DoEnqueue(s, j, p, key, maxAttempts);
    if !KeyTaken(s, key) {
      assert t.outbox[|s.outbox|].job == j && Seen(t.outbox[|s.outbox|]).status != Sent;
      assert HasRow(t, j);
    }
  }

  lemma TransactionIsMilder(cfg: Config, s: Sys, step: Step)
    requires OutboxInv(cfg, s) && Enabled(cfg, s, step) && (step.Lock? || step.Commit? || step.Rollback?)
    ensures Milder(s, Apply(cfg, s, step))
  {
    var t := Apply(cfg, s, step);
    assert |t.outbox| == |s.outbox|;
    forall i | 0 <= i < |s.outbox| && Seen(s.outbox[i]).status != Sent
      ensures t.outbox[i].job == s.outbox[i].job && Seen(t.outbox[i]).status != Sent
    {
      assert RowOk(cfg, s.outbox[i], s.jobs[s.outbox[i].job].hist);
    }
  }

  lemma OtherIsMilder(cfg: Config, s: Sys, step: Step)
    requires Enabled(cfg, s, step)
    requires step.RequestCancel? || step.CancelQueued? || step.CancelRunning? || step.Crash? || step.Lapse? || step.ExpireKey?
    ensures Milder(s, Apply(cfg, s, step))
  {
  }

  lemma StepKeepsCover(cfg: Config, s: Sys, step: Step)
    requires CoverInv(s) && OutboxInv(cfg, s) && Enabled(cfg, s, step)
    ensures CoverInv(Apply(cfg, s, step))
  {
    var t := Apply(cfg, s, step);
    StepKeepsOwner(cfg, s, step);
    match step
    case Work(m, act) => ActKeepsCover(cfg, s, m, act);
    case Spawn(w) => SpawnKeepsCover(cfg, s, w);
    case _ => MilderStepKeepsCover(cfg, s, step);
  }

  lemma SpawnKeepsCover(cfg: Config, s: Sys, w: WorkerId)
    requires CoverInv(s) && w !in s.seen
    ensures WaitingCovered(Apply(cfg, s, Spawn(w))) && ChildrenWait(Apply(cfg, s, Spawn(w)))
  {
    var t := Apply(cfg, s, Spawn(w));
    MilderKeepsChildren(s, t);
    forall j | Waits(t, j) ensures Covered(t, j) {
      assert Covered(s, j);
      assert HasRow(s, j) ==> HasRow(t, j);
      assert HasMessage(s, j) ==> HasMessage(t, j);
    }
  }

  lemma MilderStepKeepsCover(cfg: Config, s: Sys, step: Step)
    requires CoverInv(s) && OutboxInv(cfg, s) && Enabled(cfg, s, step) && !step.Work? && !step.Spawn?
    ensures WaitingCovered(Apply(cfg, s, step)) && ChildrenWait(Apply(cfg, s, step))
  {
    var t := Apply(cfg, s, step);
    match step {
      case Enqueue(j, p, key, maxAttempts) => EnqueueIsMilder(s, j, p, key, maxAttempts);
      case Relay(i, pub) => RelayIsMilder(cfg, s, i, pub);
      case Lock(_, _) => TransactionIsMilder(cfg, s, step);
      case Commit(_) => TransactionIsMilder(cfg, s, step);
      case Rollback(_) => TransactionIsMilder(cfg, s, step);
      case _ => OtherIsMilder(cfg, s, step);
    }
    assert Milder(s, t);
    MilderKeepsCovered(s, t);
    MilderKeepsChildren(s, t);
  }

  lemma {:induction false} RunKeepsCover(cfg: Config, s: Sys, steps: seq<Step>, t: Sys)
    requires CoverInv(s) && OutboxInv(cfg, s) && Run(cfg, s, steps, t)
    ensures CoverInv(t)
    decreases |steps|
  {
    if steps != [] {
      StepKeepsCover(cfg, s, steps[0]);
      StepKeepsOutbox(cfg, s, steps[0]);
      RunKeepsCover(cfg, Apply(cfg, s, steps[0]), steps[1..], t);
    }
  }

  /** A `queued` job has an outbox row that is not `sent`, or a message that is not lost. A `retrying` job has
      such a message, unless a delayed retry of it once matured before the worker that published it had
      written `retrying`. */
  lemma NoWaitingJobIsLost(cfg: Config, s: Sys, j: JobId)
    requires Reachable(cfg, s) && j in s.jobs
    requires s.jobs[j].status == Queued || (s.jobs[j].status == Retrying && j !in s.early)
    ensures HasMessage(s, j) ||
            (s.jobs[j].status == Queued && exists i | 0 <= i < |s.outbox| :: s.outbox[i].job == j && s.outbox[i].row.status != Sent)
  {
    var steps :| Run(cfg, INIT, steps, s);
    RunKeepsCover(cfg, INIT, steps, s);
    RunKeepsOutbox(cfg, INIT, steps, s);
    assert Covered(s, j);
    if !HasMessage(s, j) {
      var i :| 0 <= i < |s.outbox| && s.outbox[i].job == j && Seen(s.outbox[i]).status != Sent;
      assert RowOk(cfg, s.outbox[i], s.jobs[s.outbox[i].job].hist);
    }
  }
}
