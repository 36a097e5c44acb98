/** Per-project concurrency: slots held <= counter <= limit, and live executions <= limit, across crashes and
    leaked slots (packages/realtime/src/index.ts:146-166, packages/worker-runtime/src/runner.ts:140-165 and 189-192). */
module DeliverySlots {
  import opened Delivery
  import opened DeliverySum
  import opened DeliveryOwner

  predicate OfProject(jobs: map<JobId, Job>, msg: Msg, p: ProjectId) {
    msg.job in jobs && jobs[msg.job].project == p
  }

  function Holding(jobs: map<JobId, Job>, p: ProjectId): Msg -> nat {
    (msg: Msg) => if msg.slot && OfProject(jobs, msg, p) then 1 else 0
  }

  /** Deliveries of the project that hold a slot, those of dead workers included. */
  function SlotsHeld(s: Sys, p: ProjectId): nat { Sum(s.msgs, Holding(s.jobs, p)) }

  /** A slot is held from the gate to the release, and, unless the gate has failed, from the gate on. */
  predicate SlotShape(s: Sys, msg: Msg) {
    && (msg.slot ==> msg.place.Held? && msg.place.pc != Received && msg.place.pc != AtLimit && msg.place.pc != BelowZero)
    && (msg.place.Held? && msg.place.pc == BelowZero && msg.job in s.jobs ==> s.jobs[msg.job].project in s.expired)
    && ((msg.place.Held? && (msg.place.pc == Gated || Owns(msg.place.pc))
         && msg.job in s.jobs && s.jobs[msg.job].project !in s.gateFailed) ==> msg.slot)
  }

  ghost predicate SlotInv(cfg: Config, s: Sys) {
    && (forall m | 0 <= m < |s.msgs| :: s.msgs[m].job in s.jobs && SlotShape(s, s.msgs[m]))
    && (forall p: ProjectId :: Slots(s, p) <= cfg.limit(p))
    && (forall p: ProjectId | p !in s.expired :: SlotsHeld(s, p) <= Slots(s, p))
  }

  // ---- acts on a message ----------------------------------------------------------------------

  function Bit(msg: Msg): int { if msg.slot then 1 else 0 }

  /** The counter moves by at least what the message's slot does, unless the key has expired, and not above the limit. */
  predicate SlotChange(cfg: Config, s: Sys, m: nat, c: Change)
    requires m < |s.msgs|
  {
    && (c.job.project !in s.expired ==> Bit(c.msg) - Bit(s.msgs[m]) <= c.slots)
    && (c.slots > 0 ==> Slots(s, c.job.project) + c.slots <= cfg.limit(c.job.project))
  }

  /** A slot that is held is counted, unless the key has expired. */
  predicate Counted(s: Sys, msg: Msg) {
    msg.slot && msg.job in s.jobs && s.jobs[msg.job].project !in s.expired ==> Slots(s, s.jobs[msg.job].project) >= 1
  }

  lemma HeldIsCounted(cfg: Config, s: Sys, m: nat)
    requires SlotInv(cfg, s) && m < |s.msgs|
    ensures Counted(s, s.msgs[m])
  {
    if s.msgs[m].slot && s.jobs[s.msgs[m].job].project !in s.expired {
      SumUpdate(s.msgs, m, s.msgs[m], Holding(s.jobs, s.jobs[s.msgs[m].job].project));
    }
  }

  lemma ActMovesSlotsBeforeClaim(cfg: Config, s: Sys, m: nat, act: Act)
    requires BeforeClaim(act)
    requires CanAct(s, m, act) && SlotShape(s, s.msgs[m]) && Counted(s, s.msgs[m])
    ensures SlotChange(cfg, s, m, Do(cfg, s, m, act))
    ensures SlotShape(Apply(cfg, s, Work(m, act)), Do(cfg, s, m, act).msg)
  {
  }

  lemma ActMovesSlotsAfterHandler(cfg: Config, s: Sys, m: nat, act: Act)
    requires AfterHandler(act)
    requires CanAct(s, m, act) && SlotShape(s, s.msgs[m]) && Counted(s, s.msgs[m])
    ensures SlotChange(cfg, s, m, Do(cfg, s, m, act))
    ensures SlotShape(Apply(cfg, s, Work(m, act)), Do(cfg, s, m, act).msg)
  {
  }

  lemma ActMovesSlotsElsewhere(cfg: Config, s: Sys, m: nat, act: Act)
    requires !BeforeClaim(act) && !AfterHandler(act)
    requires CanAct(s, m, act) && SlotShape(s, s.msgs[m]) && Counted(s, s.msgs[m])
    ensures SlotChange(cfg, s, m, Do(cfg, s, m, act))
    ensures SlotShape(Apply(cfg, s, Work(m, act)), Do(cfg, s, m, act).msg)
  {
  }

  lemma ActMovesSlots(cfg: Config, s: Sys, m: nat, act: Act)
    requires CanAct(s, m, act) && SlotShape(s, s.msgs[m]) && Counted(s, s.msgs[m])
    ensures SlotChange(cfg, s, m, Do(cfg, s, m, act))
    ensures SlotShape(Apply(cfg, s, Work(m, act)), Do(cfg, s, m, act).msg)
  {
    if BeforeClaim(act) {
      ActMovesSlotsBeforeClaim(cfg, s, m, act);
    } else if AfterHandler(act) {
      ActMovesSlotsAfterHandler(cfg, s, m, act);
    } else {
      ActMovesSlotsElsewhere(cfg, s, m, act);
    }
  }

  /** The counters of other projects do not move; that of the job's moves by `c.slots`. */
  lemma CountersMove(cfg: Config, s: Sys, m: nat, c: Change, p: ProjectId)
    requires SlotInv(cfg, s) && m < |s.msgs| && Framed(s, m, c) && SlotChange(cfg, s, m, c)
    ensures Slots(Effect(s, m, c), p) <= cfg.limit(p)
    ensures Slots(Effect(s, m, c), p) == Slots(s, p) + (if p == c.job.project then c.slots else 0)
  {
  }

  lemma HeldMoves(s: Sys, m: nat, c: Change, p: ProjectId)
    requires m < |s.msgs| && s.msgs[m].job in s.jobs && Framed(s, m, c)
    requires forall n | 0 <= n < |s.msgs| :: s.msgs[n].job in s.jobs
    ensures SlotsHeld(Effect(s, m, c), p) <= SlotsHeld(s, p) + (if p == c.job.project then Bit(c.msg) - Bit(s.msgs[m]) else 0)
  {
    var t := Effect(s, m, c);
    SumEffect(s, m, c, Holding(s.jobs, p));
    SumAgrees(t.msgs, Holding(t.jobs, p), Holding(s.jobs, p));
  }

  lemma ActKeepsSlots(cfg: Config, s: Sys, m: nat, act: Act)
    requires SlotInv(cfg, s) && CanAct(s, m, act)
    ensures SlotInv(cfg, Apply(cfg, s, Work(m, act)))
  {
    var c := Do(cfg, s, m, act);
    var t := Effect(s, m, c);
    ActIsFramed(cfg, s, m, act);
    HeldIsCounted(cfg, s, m);
    ActMovesSlots(cfg, s, m, act);
    forall p: ProjectId
      ensures Slots(t, p) <= cfg.limit(p)
      ensures p !in t.expired ==> SlotsHeld(t, p) <= Slots(t, p)
    {
      CountersMove(cfg, s, m, c, p);
      HeldMoves(s, m, c, p);
    }
    forall n | 0 <= n < |t.msgs| ensures t.msgs[n].job in t.jobs && SlotShape(t, t.msgs[n]) {
      if n < |s.msgs| && n != m {
        assert t.msgs[n] == s.msgs[n] && SlotShape(s, s.msgs[n]);
      }
    }
  }

  // ---- other steps ----------------------------------------------------------------------------

  /** Messages are only added, without slots; projects and gate failures stay. */
  ghost predicate SlotsUntouched(s: Sys, t: Sys) {
    && s.msgs <= t.msgs
    && (forall n | |s.msgs| <= n < |t.msgs| :: t.msgs[n].place == Ready && !t.msgs[n].slot && t.msgs[n].job in t.jobs)
    && (forall j | j in s.jobs :: j in t.jobs && t.jobs[j].project == s.jobs[j].project)
    && t.gateFailed == s.gateFailed
  }

  lemma {:induction false} SlotlessTail(msgs: seq<Msg>, more: seq<Msg>, f: Msg -> nat)
    requires forall n | 0 <= n < |more| :: f(more[n]) == 0
    ensures Sum(msgs + more, f) == Sum(msgs, f)
    decreases |more|
  {
    if more == [] {
      assert msgs + more == msgs;
    } else {
      var k := |more| - 1;
      assert msgs + more == (msgs + more[..k]) + [more[k]];
      SumPush(msgs + more[..k], more[k], f);
      SlotlessTail(msgs, more[..k], f);
    }
  }

  lemma UntouchedHeld(s: Sys, t: Sys, p: ProjectId)
    requires SlotsUntouched(s, t) && forall m | 0 <= m < |s.msgs| :: s.msgs[m].job in s.jobs
    ensures SlotsHeld(t, p) <= SlotsHeld(s, p)
  {
    var more := t.msgs[|s.msgs|..];
    assert t.msgs == s.msgs + more;
    SlotlessTail(s.msgs, more, Holding(t.jobs, p));
    SumAgrees(s.msgs, Holding(t.jobs, p), Holding(s.jobs, p));
  }

  lemma UntouchedKeepsSlots(cfg: Config, s: Sys, t: Sys)
    requires SlotInv(cfg, s) && SlotsUntouched(s, t) && s.expired <= t.expired
    requires forall p: ProjectId :: if p in t.expired then Slots(t, p) <= cfg.limit(p) else Slots(t, p) == Slots(s, p)
    ensures SlotInv(cfg, t)
  {
    forall p: ProjectId | p !in t.expired ensures SlotsHeld(t, p) <= Slots(t, p) { UntouchedHeld(s, t, p); }
    forall n | 0 <= n < |t.msgs| ensures t.msgs[n].job in t.jobs && SlotShape(t, t.msgs[n]) {
      if n < |s.msgs| { assert t.msgs[n] == s.msgs[n] && SlotShape(s, s.msgs[n]); }
    }
  }

  lemma StepKeepsSlots(cfg: Config, s: Sys, step: Step)
    requires SlotInv(cfg, s) && Enabled(cfg, s, step)
    ensures SlotInv(cfg, Apply(cfg, s, step))
  {
    match step
    case Work(m, act) => ActKeepsSlots(cfg, s, m, act);
    case _ =>
      var t := Apply(cfg, s, step);
      assert SlotsUntouched(s, t);
      UntouchedKeepsSlots(cfg, s, t);
  }

  lemma StartWithoutSlots(cfg: Config)
    ensures SlotInv(cfg, INIT)
  {
    forall p: ProjectId ensures SlotsHeld(INIT, p) == 0 { }
  }

  lemma {:induction false} RunKeepsSlots(cfg: Config, s: Sys, steps: seq<Step>, t: Sys)
    requires SlotInv(cfg, s) && Run(cfg, s, steps, t)
    ensures SlotInv(cfg, t)
    decreases |steps|
  {
    if steps != [] {
      StepKeepsSlots(cfg, s, steps[0]);
      RunKeepsSlots(cfg, Apply(cfg, s, steps[0]), steps[1..], t);
    }
  }

  // ---- results --------------------------------------------------------------------------------

  lemma {:induction false} CountAtMostSum(msgs: seq<Msg>, f: Msg -> nat, ms: set<int>)
    requires forall m | m in ms :: 0 <= m < |msgs| && f(msgs[m]) >= 1
    ensures |ms| <= Sum(msgs, f)
    decreases |msgs|
  {
    if msgs == [] {
      assert forall m :: m !in ms;
      assert ms == {};
    } else {
      var k := |msgs| - 1;
      CountAtMostSum(msgs[..k], f, ms - {k});
      assert ms <= (ms - {k}) + {k};
      if k !in ms { assert ms - {k} == ms; }
    }
  }

  /** The counter never exceeds the limit; it is at least the number of deliveries that hold a slot, unless the
      key has expired; and then live executions keep the limit, unless the gate has failed. */
  lemma LiveExecutionsWithinLimit(cfg: Config, s: Sys, p: ProjectId, ms: set<int>)
    requires Reachable(cfg, s)
    requires forall m | m in ms :: Executed(s, m) && OfProject(s.jobs, s.msgs[m], p)
    ensures Slots(s, p) <= cfg.limit(p)
    ensures p !in s.expired ==> SlotsHeld(s, p) <= Slots(s, p)
    ensures p !in s.expired && p !in s.gateFailed ==> |ms| <= cfg.limit(p)
  {
    var steps :| Run(cfg, INIT, steps, s);
    StartWithoutSlots(cfg);
    RunKeepsSlots(cfg, INIT, steps, s);
    if p !in s.gateFailed {
      forall m | m in ms ensures Holding(s.jobs, p)(s.msgs[m]) >= 1 {
        assert SlotShape(s, s.msgs[m]);
      }
      CountAtMostSum(s.msgs, Holding(s.jobs, p), ms);
    }
  }

  /** The SET to zero runs only for a project whose key has expired: until then a slot that is released finds the
      counter positive, and no delivery ever finds it below zero. */
  lemma FloorUnreachable(cfg: Config, s: Sys, m: nat)
    requires Reachable(cfg, s) && m < |s.msgs|
    ensures CanAct(s, m, Floor) ==> s.jobs[s.msgs[m].job].project in s.expired
    ensures CanAct(s, m, Release) && s.msgs[m].slot && s.jobs[s.msgs[m].job].project !in s.expired ==>
              Slots(s, s.jobs[s.msgs[m].job].project) >= 1
  {
    var steps :| Run(cfg, INIT, steps, s);
    StartWithoutSlots(cfg);
    RunKeepsSlots(cfg, INIT, steps, s);
    HeldIsCounted(cfg, s, m);
    assert SlotShape(s, s.msgs[m]);
  }
}
