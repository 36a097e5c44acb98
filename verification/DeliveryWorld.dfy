/** The shared state as the services see it: tables, queues and counters that single statements update in place,
    with other processes at work in between. Each statement is proved to be the machine's step, so that what holds
    in every reachable state holds for the imperative code built from them. */
module DeliveryWorld {
  import opened Basics
  import opened Delivery

  /** Who is at work, and what only it may touch. */
  datatype Actor = Shell(m: nat, worker: WorkerId) | Transaction(relay: RelayId) | Replayer(m: nat) | Nobody

  /** A step some other process may take. A worker that crashes takes no further step: it is not at work. */
  predicate Foreign(me: Actor, s: Sys, step: Step) {
    match me
    case Shell(m, w) => !(step.Work? && step.m == m) && step != Crash(w)
    case Replayer(m) => !(step.Work? && step.m == m)
    case Transaction(r) =>
      !(step.Lock? && step.relay == r) && step != Commit(r) && step != Rollback(r) &&
      !(step.Relay? && step.row < |s.outbox| && s.outbox[step.row].lock == Some(r))
    case Nobody => true
  }

  /** What the others leave alone: the delivery, message or rows an actor has in hand, jobs' fixed data, and
      messages that are gone. */
  ghost predicate Kept(me: Actor, s: Sys, t: Sys) {
    && |s.msgs| <= |t.msgs| && |s.outbox| <= |t.outbox|
    && (forall j | j in s.jobs :: j in t.jobs && SameIdentity(s.jobs[j], t.jobs[j]))
    && s.flags <= t.flags
    && (forall n | 0 <= n < |s.msgs| && s.msgs[n].place == Gone :: t.msgs[n] == s.msgs[n])
    && match me
       case Shell(m, w) => (m < |s.msgs| ==> t.msgs[m] == s.msgs[m]) && (w in s.alive ==> w in t.alive)
       case Replayer(m) => m < |s.msgs| ==> t.msgs[m] == s.msgs[m]
       case Transaction(r) =>
         forall i | 0 <= i < |t.outbox| ::
           if i < |s.outbox| && s.outbox[i].lock == Some(r) then t.outbox[i] == s.outbox[i] else t.outbox[i].lock != Some(r)
       case Nobody => true
  }

  predicate SameIdentity(a: Job, b: Job) {
    a.project == b.project && a.key == b.key && a.maxAttempts == b.maxAttempts
  }

  lemma KeptIsTransitive(me: Actor, s: Sys, t: Sys, u: Sys)
    requires Kept(me, s, t) && Kept(me, t, u)
    ensures Kept(me, s, u)
  {
  }

  lemma ActKeeps(cfg: Config, me: Actor, s: Sys, m: nat, act: Act)
    requires CanAct(s, m, act) && Foreign(me, s, Work(m, act))
    ensures Kept(me, s, Apply(cfg, s, Work(m, act)))
  {
    ActIsFramed(cfg, s, m, act);
  }

  lemma OthersKeep(cfg: Config, me: Actor, s: Sys, step: Step)
    requires Enabled(cfg, s, step) && Foreign(me, s, step)
    ensures Kept(me, s, Apply(cfg, s, step))
  {
    match step
    case Work(m, act) => ActKeeps(cfg, me, s, m, act);
    case _ =>
  }

  /** The acts on message `m`, in order. */
  function ActsOn(log: seq<Step>, m: nat): seq<Act> {
    if log == [] then []
    else
      var last := log[|log| - 1];
      ActsOn(log[..|log| - 1], m) + (if last.Work? && last.m == m then [last.act] else [])
  }

  lemma ActsPush(log: seq<Step>, step: Step, m: nat)
    ensures ActsOn(log + [step], m) == ActsOn(log, m) + (if step.Work? && step.m == m then [step.act] else [])
  {
    assert (log + [step])[..|log|] == log;
  }

  /** Nobody else is at work. */
  ghost predicate Quiet(w: World) {
    forall t: nat :: w.others(t) == []
  }

  class World {
    const cfg: Config
    const others: nat -> seq<Step> // what the other processes try at each turn
    var turn: nat

    var jobs: map<JobId, Job>
    var outbox: seq<OutboxRow>
    var msgs: seq<Msg>
    var alive: set<WorkerId>
    var beating: set<WorkerId>
    var seen: set<WorkerId>
    var slots: map<ProjectId, int>
    var flags: set<JobId>
    var early: set<JobId>
    var gateFailed: set<ProjectId>
    var expired: set<ProjectId>

    ghost var log: seq<Step>

    constructor (cfg: Config, others: nat -> seq<Step>)
      ensures Valid() && Now() == INIT && log == []
      ensures this.cfg == cfg && this.others == others
    {
      this.cfg, this.others, turn := cfg, others, 0;
      jobs, outbox, msgs, alive, beating, seen := map[], [], [], {}, {}, {};
      slots, flags, early, gateFailed, expired := map[], {}, {}, {}, {};
      log := [];
    }

    function Now(): Sys
      reads this
    {
      Sys(jobs, outbox, msgs, alive, beating, seen, slots, flags, early, gateFailed, expired)
    }

    /** Everything that has happened is a run of the machine. */
    ghost predicate Valid()
      reads this
    {
      Run(cfg, INIT, log, Now())
    }

    method Become(t: Sys)
      modifies this
      ensures Now() == t && log == old(log) && turn == old(turn)
    {
      jobs, outbox, msgs, alive, beating, seen := t.jobs, t.outbox, t.msgs, t.alive, t.beating, t.seen;
      slots, flags, early, gateFailed, expired := t.slots, t.flags, t.early, t.gateFailed, t.expired;
    }

    /** A step of some other process. */
    method Perform(step: Step)
      requires Valid() && Enabled(cfg, Now(), step)
      modifies this
      ensures Valid() && Now() == Apply(cfg, old(Now()), step) && log == old(log) + [step] && turn == old(turn)
    {
      RunAppend(cfg, INIT, log, Now(), step);
      Become(Apply(cfg, Now(), step));
      log := log + [step];
    }

    /** An await: the other processes get their turn. */
    method Yield(me: Actor)
      requires Valid()
      modifies this
      ensures Valid() && Kept(me, old(Now()), Now())
      ensures me.Shell? || me.Replayer? ==> ActsOn(log, me.m) == ActsOn(old(log), me.m)
      ensures old(log) <= log
      ensures old(others(turn)) == [] ==> Now() == old(Now()) && log == old(log)
    {
      var todo, k := others(turn), 0;
      turn := turn + 1;
      while k < |todo|
        invariant 0 <= k <= |todo| && Valid() && Kept(me, old(Now()), Now()) && old(log) <= log
        invariant k == 0 ==> Now() == old(Now()) && log == old(log)
        invariant me.Shell? || me.Replayer? ==> ActsOn(log, me.m) == ActsOn(old(log), me.m)
      {
        ghost var s := Now();
        TryStep(me, todo[k]);
        KeptIsTransitive(me, old(Now()), s, Now());
        k := k + 1;
      }
    }

    /** Some other process takes the step if it may. */
    method TryStep(me: Actor, step: Step)
      requires Valid()
      modifies this
      ensures Valid() && Kept(me, old(Now()), Now()) && old(log) <= log
      ensures me.Shell? || me.Replayer? ==> ActsOn(log, me.m) == ActsOn(old(log), me.m)
    {
      if Foreign(me, Now(), step) && Enabled(cfg, Now(), step) {
        OthersKeep(cfg, me, Now(), step);
        if me.Shell? || me.Replayer? { ActsPush(log, step, me.m); }
        Perform(step);
      }
    }

    // ---- statements -----------------------------------------------------------------------------

    /** `claimJob`. */
    method ClaimJob(m: nat) returns (claimed: bool)
      requires Valid() && CanAct(Now(), m, Claim)
      modifies this
      ensures Valid() && Now() == Apply(cfg, old(Now()), Work(m, Claim)) && log == old(log) + [Work(m, Claim)]
      ensures claimed <==> Claimable(old(jobs[msgs[m].job]), old(msgs[m].place.worker), old(beating))
      ensures msgs[m] == At(old(msgs[m]), if claimed then Executing else AckDue)
      ensures claimed ==> jobs[msgs[m].job].status == Running && jobs[msgs[m].job].worker == Some(msgs[m].place.worker)
      ensures !claimed ==> jobs == old(jobs)
    {
      RunAppend(cfg, INIT, log, Now(), Work(m, Claim));
      var w, j := msgs[m].place.worker, msgs[m].job;
      var job := jobs[j];
      claimed := job.status == Queued || job.status == Retrying;
      if !claimed && job.status == Running && job.worker != Some(w) {
        claimed := match job.worker case None => true case Some(owner) => owner !in beating;
      }
      if claimed {
        jobs := jobs[j := job.(status := Running, worker := Some(w), hist := job.hist.(claims := job.hist.claims + 1))];
      } else {
        assert jobs == jobs[j := jobs[j]];
      }
      msgs := msgs[m := At(msgs[m], if claimed then Executing else AckDue)];
      assert msgs + [] == msgs;
      log := log + [Work(m, Claim)];
    }

    /** `completeJob`, `failJob`, `retryingJob` and the shell's own `cancelled` write: unconditional. */
    method WriteStatus(m: nat, act: Act)
      requires act.Complete? || act.WriteFailed? || act.WriteRetrying? || act.CancelSeen?
      requires Valid() && CanAct(Now(), m, act)
      modifies this
      ensures Valid() && Now() == Apply(cfg, old(Now()), Work(m, act)) && log == old(log) + [Work(m, act)]
      ensures msgs[m] == At(old(msgs[m]), if act.WriteFailed? then DeadDue else AckDue)
      ensures jobs[msgs[m].job].status ==
              match act { case Complete => Completed case WriteFailed => Failed case WriteRetrying => Retrying case _ => Cancelled }
      ensures act.WriteRetrying? ==> jobs[msgs[m].job].attempt == msgs[m].attempt + 1
    {
      RunAppend(cfg, INIT, log, Now(), Work(m, act));
      var j := msgs[m].job;
      match act {
        case Complete => jobs := jobs[j := jobs[j].(status := Completed)];
        case WriteFailed => jobs := jobs[j := jobs[j].(status := Failed)];
        case WriteRetrying => jobs := jobs[j := jobs[j].(status := Retrying, attempt := msgs[m].attempt + 1)];
        case CancelSeen => jobs := jobs[j := jobs[j].(status := Cancelled)];
      }
      msgs := msgs[m := At(msgs[m], if act.WriteFailed? then DeadDue else AckDue)];
      assert msgs + [] == msgs;
      log := log + [Work(m, act)];
    }

    /** `acquireProjectSlot`: one script, so the increment beyond the limit is taken back unseen. */
    method AcquireSlot(m: nat) returns (got: bool)
      requires Valid() && CanAct(Now(), m, Acquire) && !msgs[m].slot
      modifies this
      ensures Valid() && Now() == Apply(cfg, old(Now()), Work(m, Acquire)) && log == old(log) + [Work(m, Acquire)]
      ensures msgs[m] == At(old(msgs[m]), if got then Gated else AtLimit).(slot := got)
      ensures jobs == old(jobs) && beating == old(beating)
      ensures var p := jobs[msgs[m].job].project;
              && (got <==> old(Slots(Now(), jobs[msgs[m].job].project)) < cfg.limit(p))
              && Slots(Now(), p) == old(Slots(Now(), jobs[msgs[m].job].project)) + (if got then 1 else 0)
    {
      RunAppend(cfg, INIT, log, Now(), Work(m, Acquire));
      var p := jobs[msgs[m].job].project;
      var n := (if p in slots then slots[p] else 0) + 1;
      got := n <= cfg.limit(p);
      if got { slots := slots[p := n]; }
      msgs := msgs[m := At(msgs[m], if got then Gated else AtLimit).(slot := got)];
      assert msgs + [] == msgs;
      assert jobs == jobs[msgs[m].job := jobs[msgs[m].job]];
      log := log + [Work(m, Acquire)];
    }

    /** The DECR of `releaseProjectSlot`, for a delivery that holds a slot. */
    method ReleaseSlot(m: nat) returns (negative: bool)
      requires Valid() && CanAct(Now(), m, Release)
      modifies this
      ensures Valid() && Now() == Apply(cfg, old(Now()), Work(m, Release)) && log == old(log) + [Work(m, Release)]
      ensures msgs[m] == old(msgs[m]).(place := if negative then Held(old(msgs[m].place.worker), BelowZero) else Gone, slot := false)
      ensures var n := old(Slots(Now(), jobs[msgs[m].job].project));
              && Slots(Now(), jobs[msgs[m].job].project) == (if old(msgs[m].slot) then n - 1 else n)
              && (negative <==> old(msgs[m].slot) && n < 1)
    {
      RunAppend(cfg, INIT, log, Now(), Work(m, Release));
      var p := jobs[msgs[m].job].project;
      negative := false;
      if msgs[m].slot {
        var n := (if p in slots then slots[p] else 0) - 1;
        slots := slots[p := n];
        negative := n < 0;
      }
      msgs := msgs[m := msgs[m].(place := if negative then Held(msgs[m].place.worker, BelowZero) else Gone, slot := false)];
      assert msgs + [] == msgs;
      assert jobs == jobs[msgs[m].job := jobs[msgs[m].job]];
      log := log + [Work(m, Release)];
    }

    /** Its SET to 0, on a counter that others may have moved since. */
    method FloorSlots(m: nat)
      requires Valid() && CanAct(Now(), m, Floor)
      modifies this
      ensures Valid() && Now() == Apply(cfg, old(Now()), Work(m, Floor)) && log == old(log) + [Work(m, Floor)]
      ensures msgs[m] == old(msgs[m]).(place := Gone) && Slots(Now(), jobs[msgs[m].job].project) == 0
    {
      RunAppend(cfg, INIT, log, Now(), Work(m, Floor));
      var p := jobs[msgs[m].job].project;
      if p in slots && slots[p] != 0 { slots := slots[p := 0]; }
      msgs := msgs[m := msgs[m].(place := Gone)];
      assert msgs + [] == msgs;
      assert jobs == jobs[msgs[m].job := jobs[msgs[m].job]];
      log := log + [Work(m, Floor)];
    }

    /** A publish to the delayed exchange: the retry, with the next attempt number, or the deferred job. */
    method PublishDelayed(m: nat, retry: bool, pub: Publish)
      requires Valid() && CanAct(Now(), m, if retry then PublishRetry(pub) else Defer(pub))
      modifies this
      ensures var act := if retry then PublishRetry(pub) else Defer(pub);
              Valid() && Now() == Apply(cfg, old(Now()), Work(m, act)) && log == old(log) + [Work(m, act)]
      ensures msgs[m] == At(old(msgs[m]), if pub != Confirmed then NackDue else if retry then RetryPublished else AckDue)
      ensures pub == Lost ==> |msgs| == |old(msgs)|
      ensures pub != Lost ==>
                && |msgs| == |old(msgs)| + 1 && msgs[|old(msgs)|].job == msgs[m].job && msgs[|old(msgs)|].place.Delayed?
                && msgs[|old(msgs)|].attempt == msgs[m].attempt + (if retry then 1 else 0)
    {
      var act := if retry then PublishRetry(pub) else Defer(pub);
      RunAppend(cfg, INIT, log, Now(), Work(m, act));
      var msg := msgs[m];
      var attempt := if retry then msg.attempt + 1 else msg.attempt;
      msgs := msgs[m := At(msg, if pub != Confirmed then NackDue else if retry then RetryPublished else AckDue)];
      if pub != Lost {
        msgs := msgs + [Msg(msg.job, attempt, Delayed(if retry && pub == Confirmed then Some(m) else None), false)];
      } else {
        assert msgs + [] == msgs;
      }
      assert jobs == jobs[msg.job := jobs[msg.job]];
      log := log + [Work(m, act)];
    }

    /** ack, and nack to the dead-letter queue. */
    method Settle(m: nat, act: Act)
      requires act.Ack? || act.DeadLetter?
      requires Valid() && CanAct(Now(), m, act)
      modifies this
      ensures Valid() && Now() == Apply(cfg, old(Now()), Work(m, act)) && log == old(log) + [Work(m, act)]
      ensures msgs[m] == At(old(msgs[m]), Acked)
      ensures act.Ack? ==> |msgs| == |old(msgs)|
      ensures act.DeadLetter? ==> |msgs| == |old(msgs)| + 1 && msgs[|old(msgs)|] == Msg(msgs[m].job, msgs[m].attempt, Dead, false)
    {
      RunAppend(cfg, INIT, log, Now(), Work(m, act));
      var msg := msgs[m];
      msgs := msgs[m := At(msg, Acked)] + (if act.DeadLetter? then [Msg(msg.job, msg.attempt, Dead, false)] else []);
      assert jobs == jobs[msg.job := jobs[msg.job]];
      log := log + [Work(m, act)];
    }

    /** nack with requeue. */
    method Requeue(m: nat)
      requires Valid() && CanAct(Now(), m, Nack)
      modifies this
      ensures Valid() && Now() == Apply(cfg, old(Now()), Work(m, Nack)) && log == old(log) + [Work(m, Nack)]
      ensures msgs[m] == At(old(msgs[m]), Acked)
      ensures |msgs| == |old(msgs)| + 1 && msgs[|old(msgs)|] == Msg(msgs[m].job, msgs[m].attempt, Ready, false)
    {
      RunAppend(cfg, INIT, log, Now(), Work(m, Nack));
      var msg := msgs[m];
      msgs := msgs[m := At(msg, Acked)] + [Msg(msg.job, msg.attempt, Ready, false)];
      var h := jobs[msg.job].hist;
      jobs := jobs[msg.job := jobs[msg.job].(hist := h.(requeues := h.requeues + 1))];
      log := log + [Work(m, Nack)];
    }
  }
}
