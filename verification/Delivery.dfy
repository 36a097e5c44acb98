/** The job delivery protocol as a machine: enqueue, outbox relay, broker, worker shell, retry, dead-letter
    queue, cancel and replay, for any number of workers, relays and jobs. Each SQL statement, Lua call,
    publish and ack is one step, and any other step may come in between.

    Sources: packages/core/src/enqueue.ts, services/scheduler/src/relay.ts, packages/worker-runtime/src/runner.ts,
    packages/worker-runtime/src/reporter.ts, packages/realtime/src/index.ts, services/gateway-api/src/rabbit.ts,
    services/gateway-api/src/routes/jobs.ts. */
module Delivery {
  import opened Basics

  type JobId = nat
  type WorkerId = nat
  type RelayId = nat
  type ProjectId = nat

  // ---------------------------------------------------------------------------------------------
  // Control database

  datatype Status = Queued | Running | Completed | Failed | Cancelled | Cancelling | Retrying

  /** What has happened to a job, counted; no code reads this. */
  datatype History = History(
    publications: nat, // relay publishes that reached the broker
    unconfirmed: nat,  // of these, the ones whose confirm did not arrive
    rollbacks: nat,    // relay ticks that held the job's outbox row and rolled back
    requeues: nat,     // messages put back by nack or returned by a dead worker's connection
    replays: nat,      // publishes from the dead-letter queue that reached the broker
    resets: nat,       // times a replay found the job failed or cancelled and re-queued it
    claims: nat)       // executions begun

  datatype Job = Job(
    project: ProjectId, key: Option<string>, maxAttempts: nat,
    status: Status, attempt: nat, worker: Option<WorkerId>, hist: History)

  datatype OutboxStatus = Pending | Sent | GaveUp
  datatype RowState = RowState(status: OutboxStatus, attempts: nat)

  /** An outbox row; `lock` is the relay transaction holding it FOR UPDATE, `draft` what that transaction
      has written and not committed. */
  datatype OutboxRow = OutboxRow(job: JobId, row: RowState, lock: Option<RelayId>, draft: Option<RowState>)

  // ---------------------------------------------------------------------------------------------
  // Broker and workers

  /** Where `onMessage` stands with a delivery. The message is unacked until `Acked`; `Acked` still has
      to release the project slot, and `BelowZero` found the counter negative then. */
  datatype Pc = Received | AtLimit | Gated | Executing | RetryPublished | AckDue | NackDue | DeadDue | Acked | BelowZero

  datatype ReplayPc = Fetched | WasReset | Republished

  /** A message, then its delivery. A delayed retry remembers the delivery that published it. */
  datatype Place =
    | Delayed(parent: Option<nat>)
    | Ready
    | Held(worker: WorkerId, pc: Pc)
    | Dead
    | Taken(replay: ReplayPc)
    | Gone

  datatype Msg = Msg(job: JobId, attempt: nat, place: Place, slot: bool)

  datatype Sys = Sys(
    jobs: map<JobId, Job>,
    outbox: seq<OutboxRow>,
    msgs: seq<Msg>,
    alive: set<WorkerId>,
    beating: set<WorkerId>,        // heartbeat within the last 45 seconds
    seen: set<WorkerId>,           // every worker id ever used
    slots: map<ProjectId, int>,    // the Redis counters
    flags: set<JobId>,             // Redis cancel flags
    early: set<JobId>,             // a delayed retry matured before its publisher's status write
    gateFailed: set<ProjectId>,    // projects whose gate threw, so that a job ran without a slot
    expired: set<ProjectId>)       // projects whose slot counter has expired

  datatype Config = Config(limit: ProjectId -> nat, maxOutboxAttempts: nat)

  const INIT := Sys(map[], [], [], {}, {}, {}, map[], {}, {}, {}, {})
  const NEW_HISTORY := History(0, 0, 0, 0, 0, 0, 0)

  function Slots(s: Sys, p: ProjectId): int {
    if p in s.slots then s.slots[p] else 0
  }

  // ---------------------------------------------------------------------------------------------
  // Steps

  /** `publishWithConfirm`: confirmed, or an error with the message lost or delivered all the same. */
  datatype Publish = Confirmed | Lost | Unconfirmed

  /** What happens to one message. */
  datatype Act =
    // broker
    | Mature | Deliver(w: WorkerId) | Redeliver
    // the worker shell
    | Refuse | Unread | Acquire | GateError(leaked: bool) | Defer(pub: Publish) | Claim
    | Complete | CancelSeen | PublishRetry(pub: Publish) | WriteRetrying | WriteFailed
    | Ack | Nack | DeadLetter | Release | Floor | ReleaseLost
    // replay of the dead-letter queue
    | Fetch | Reset | Republish(pub: Publish) | AckReplayed | ReplayLost

  /** From the delivery up to the claim. */
  predicate BeforeClaim(act: Act) {
    act.Refuse? || act.Unread? || act.Acquire? || act.GateError? || act.Defer? || act.Claim?
  }

  /** What the handler's outcome leads to. */
  predicate AfterHandler(act: Act) {
    act.Complete? || act.CancelSeen? || act.PublishRetry? || act.WriteRetrying? || act.WriteFailed?
  }

  datatype Step =
    | Work(m: nat, act: Act)
    | Enqueue(job: JobId, project: ProjectId, key: Option<string>, maxAttempts: nat)
    | Lock(relay: RelayId, rows: set<nat>)
    | Relay(row: nat, pub: Publish)
    | Commit(relay: RelayId)
    | Rollback(relay: RelayId)
    | RequestCancel(job: JobId)
    | CancelQueued(job: JobId)
    | CancelRunning(job: JobId)
    | Spawn(worker: WorkerId)
    | Crash(worker: WorkerId)
    | Lapse(worker: WorkerId)
    | ExpireKey(project: ProjectId)

  // ---- one message ----------------------------------------------------------------------------

  predicate HeldAt(s: Sys, msg: Msg, pc: Pc) {
    msg.place.Held? && msg.place.pc == pc && msg.place.worker in s.alive
  }

  predicate CanAct(s: Sys, m: nat, act: Act) {
    m < |s.msgs| && s.msgs[m].job in s.jobs &&
    var msg := s.msgs[m];
    match act
    case Mature => msg.place.Delayed?
    case Deliver(w) => msg.place.Ready? && w in s.alive
    case Redeliver => msg.place.Held? && msg.place.worker !in s.alive && msg.place.pc != Acked && msg.place.pc != BelowZero
    case Refuse | Unread | Acquire | GateError(_) => HeldAt(s, msg, Received)
    case Defer(_) => HeldAt(s, msg, AtLimit)
    case Claim => HeldAt(s, msg, Gated)
    case Complete => HeldAt(s, msg, Executing)
    case CancelSeen => HeldAt(s, msg, Executing) && msg.job in s.flags
    case PublishRetry(_) => HeldAt(s, msg, Executing) && msg.attempt < s.jobs[msg.job].maxAttempts
    case WriteFailed => HeldAt(s, msg, Executing) && msg.attempt >= s.jobs[msg.job].maxAttempts
    case WriteRetrying => HeldAt(s, msg, RetryPublished)
    case Ack => HeldAt(s, msg, AckDue)
    case Nack => HeldAt(s, msg, NackDue)
    case DeadLetter => HeldAt(s, msg, DeadDue)
    case Release | ReleaseLost => HeldAt(s, msg, Acked)
    case Floor => HeldAt(s, msg, BelowZero)
    case Fetch => msg.place.Dead?
    case Reset => msg.place == Taken(Fetched)
    case Republish(_) => msg.place == Taken(WasReset)
    case AckReplayed => msg.place == Taken(Republished)
    case ReplayLost => msg.place.Taken?
  }

  /** The effect of an act: the message and job afterwards, messages added, slots taken or released. */
  datatype Change = Change(msg: Msg, added: seq<Msg>, job: Job, slots: int, early: bool, gateFailed: bool)

  /** `claimJob`'s WHERE clause. */
  predicate Claimable(job: Job, w: WorkerId, beating: set<WorkerId>) {
    || job.status == Queued || job.status == Retrying
    || (job.status == Running && job.worker != Some(w) && (job.worker.Some? ==> job.worker.value !in beating))
  }

  function At(msg: Msg, pc: Pc): Msg
    requires msg.place.Held?
  {
    msg.(place := Held(msg.place.worker, pc))
  }

  function Do(cfg: Config, s: Sys, m: nat, act: Act): (c: Change)
    requires CanAct(s, m, act)
  {
    var msg := s.msgs[m];
    var job := s.jobs[msg.job];
    var h := job.hist;
    var same := Change(msg, [], job, 0, false, false);
    match act
    case Mature => same.(msg := msg.(place := Ready), early := TooEarly(s, msg.place.parent))
    case Deliver(w) => same.(msg := msg.(place := Held(w, Received)))
    case Redeliver =>
      same.(msg := At(msg, Acked), added := [Msg(msg.job, msg.attempt, Ready, false)], job := job.(hist := h.(requeues := h.requeues + 1)))
    case Refuse => same.(msg := At(msg, NackDue))
    case Unread => same.(msg := msg.(place := Dead))
    case Acquire =>
      if Slots(s, job.project) < cfg.limit(job.project) then same.(msg := At(msg, Gated).(slot := true), slots := 1)
      else same.(msg := At(msg, AtLimit))
    case GateError(leaked) =>
      same.(msg := At(msg, Gated), slots := if leaked && Slots(s, job.project) < cfg.limit(job.project) then 1 else 0, gateFailed := true)
    case Defer(pub) =>
      same.(msg := At(msg, if pub == Confirmed then AckDue else NackDue),
            added := if pub == Lost then [] else [Msg(msg.job, msg.attempt, Delayed(None), false)])
    case Claim =>
      if Claimable(job, msg.place.worker, s.beating)
      then same.(msg := At(msg, Executing),
                 job := job.(status := Running, worker := Some(msg.place.worker), hist := h.(claims := h.claims + 1)))
      else same.(msg := At(msg, AckDue))
    case Complete => same.(msg := At(msg, AckDue), job := job.(status := Completed))
    case CancelSeen => same.(msg := At(msg, AckDue), job := job.(status := Cancelled))
    case PublishRetry(pub) =>
      same.(msg := At(msg, if pub == Confirmed then RetryPublished else NackDue),
            added := if pub == Lost then []
                     else [Msg(msg.job, msg.attempt + 1, Delayed(if pub == Confirmed then Some(m) else None), false)])
    case WriteRetrying => same.(msg := At(msg, AckDue), job := job.(status := Retrying, attempt := msg.attempt + 1))
    case WriteFailed => same.(msg := At(msg, DeadDue), job := job.(status := Failed))
    case Ack => same.(msg := At(msg, Acked))
    case Nack =>
      same.(msg := At(msg, Acked), added := [Msg(msg.job, msg.attempt, Ready, false)], job := job.(hist := h.(requeues := h.requeues + 1)))
    case DeadLetter => same.(msg := At(msg, Acked), added := [Msg(msg.job, msg.attempt, Dead, false)])
    case Release =>
      if !msg.slot then same.(msg := msg.(place := Gone))
      else same.(msg := msg.(place := if Slots(s, job.project) < 1 then Held(msg.place.worker, BelowZero) else Gone, slot := false), slots := -1)
    case Floor => same.(msg := msg.(place := Gone), slots := -Slots(s, job.project))
    case ReleaseLost => same.(msg := msg.(place := Gone, slot := false))
    case Fetch => same.(msg := msg.(place := Taken(Fetched)))
    case Reset =>
      same.(msg := msg.(place := Taken(WasReset)),
            job := if job.status == Failed || job.status == Cancelled
                   then job.(status := Queued, attempt := 1, hist := h.(resets := h.resets + 1)) else job)
    case Republish(pub) =>
      same.(msg := msg.(place := if pub == Confirmed then Taken(Republished) else Dead),
            added := if pub == Lost then [] else [Msg(msg.job, 1, Ready, false)],
            job := if pub == Lost then job else job.(hist := h.(replays := h.replays + 1)))
    case AckReplayed => same.(msg := msg.(place := Gone))
    case ReplayLost => same.(msg := msg.(place := Dead))
  }

  /** The delivery that published this retry has not written `retrying` yet, and still will. */
  predicate TooEarly(s: Sys, parent: Option<nat>) {
    parent.Some? && parent.value < |s.msgs| && HeldAt(s, s.msgs[parent.value], RetryPublished)
  }

  function MoveSlots(s: Sys, p: ProjectId, d: int): map<ProjectId, int> {
    if d == 0 then s.slots else s.slots[p := Slots(s, p) + d]
  }

  function Effect(s: Sys, m: nat, c: Change): Sys
    requires m < |s.msgs|
  {
    s.(msgs := s.msgs[m := c.msg] + c.added,
       jobs := s.jobs[c.msg.job := c.job],
       slots := MoveSlots(s, c.job.project, c.slots),
       early := if c.early then s.early + {c.msg.job} else s.early,
       gateFailed := if c.gateFailed then s.gateFailed + {c.job.project} else s.gateFailed)
  }

  // ---- everything else ------------------------------------------------------------------------

  predicate KeyTaken(s: Sys, key: Option<string>) {
    key.Some? && exists j | j in s.jobs :: s.jobs[j].key == key
  }

  predicate Enabled(cfg: Config, s: Sys, step: Step) {
    match step
    case Work(m, act) => CanAct(s, m, act)
    case Enqueue(j, _, key, maxAttempts) => j !in s.jobs && maxAttempts > 0
    case Lock(_, rows) => forall i | i in rows :: i < |s.outbox| && s.outbox[i].lock.None? && s.outbox[i].row.status == Pending
    case Relay(i, _) => i < |s.outbox| && s.outbox[i].lock.Some? && s.outbox[i].draft.None? && s.outbox[i].job in s.jobs
    case Commit(r) => forall i | 0 <= i < |s.outbox| && s.outbox[i].lock == Some(r) :: s.outbox[i].draft.Some?
    case Rollback(_) => true
    case RequestCancel(j) => j in s.jobs
    case CancelQueued(j) => j in s.jobs && j in s.flags
    case CancelRunning(j) => j in s.jobs && j in s.flags
    case Spawn(w) => w !in s.seen
    case Crash(w) => true
    case Lapse(w) => w !in s.alive
    case ExpireKey(_) => true
  }

  /** `enqueueJob`: the job and its outbox row in one transaction, or nothing on a key conflict. */
  function DoEnqueue(s: Sys, j: JobId, p: ProjectId, key: Option<string>, maxAttempts: nat): Sys {
    if KeyTaken(s, key) then s
    else s.(jobs := s.jobs[j := Job(p, key, maxAttempts, Queued, 1, None, NEW_HISTORY)],
            outbox := s.outbox + [OutboxRow(j, RowState(Pending, 0), None, None)])
  }

  /** One turn of the relay's loop over its locked rows. */
  function Attempted(cfg: Config, row: RowState, pub: Publish): RowState {
    var n := row.attempts + 1;
    RowState(if pub == Confirmed then Sent else if n >= cfg.maxOutboxAttempts then GaveUp else Pending, n)
  }

  function DoRelay(cfg: Config, s: Sys, i: nat, pub: Publish): Sys
    requires Enabled(cfg, s, Relay(i, pub))
  {
    var o := s.outbox[i];
    var job := s.jobs[o.job];
    var h := job.hist;
    s.(outbox := s.outbox[i := o.(draft := Some(Attempted(cfg, o.row, pub)))],
       msgs := if pub == Lost then s.msgs else s.msgs + [Msg(o.job, 1, Ready, false)],
       jobs := if pub == Lost then s.jobs
               else s.jobs[o.job := job.(hist := h.(publications := h.publications + 1,
                                                    unconfirmed := h.unconfirmed + if pub == Unconfirmed then 1 else 0))])
  }

  function Committed(o: OutboxRow, r: RelayId): OutboxRow {
    if o.lock == Some(r) && o.draft.Some? then OutboxRow(o.job, o.draft.value, None, None) else o
  }

  function RolledBack(o: OutboxRow, r: RelayId): OutboxRow {
    if o.lock == Some(r) then OutboxRow(o.job, o.row, None, None) else o
  }

  /** Some outbox row of the job is locked by `r`. */
  predicate LockedBy(s: Sys, j: JobId, r: RelayId) {
    exists i | 0 <= i < |s.outbox| :: s.outbox[i].job == j && s.outbox[i].lock == Some(r)
  }

  function Apply(cfg: Config, s: Sys, step: Step): Sys
    requires Enabled(cfg, s, step)
  {
    match step
    case Work(m, act) => Effect(s, m, Do(cfg, s, m, act))
    case Enqueue(j, p, key, maxAttempts) => DoEnqueue(s, j, p, key, maxAttempts)
    case Lock(r, rows) =>
      s.(outbox := seq(|s.outbox|, i requires 0 <= i < |s.outbox| => if i in rows then s.outbox[i].(lock := Some(r)) else s.outbox[i]))
    case Relay(i, pub) => DoRelay(cfg, s, i, pub)
    case Commit(r) => s.(outbox := seq(|s.outbox|, i requires 0 <= i < |s.outbox| => Committed(s.outbox[i], r)))
    case Rollback(r) =>
      s.(outbox := seq(|s.outbox|, i requires 0 <= i < |s.outbox| => RolledBack(s.outbox[i], r)),
         jobs := map j | j in s.jobs ::
           if LockedBy(s, j, r) then s.jobs[j].(hist := s.jobs[j].hist.(rollbacks := s.jobs[j].hist.rollbacks + 1)) else s.jobs[j])
    case RequestCancel(j) => s.(flags := s.flags + {j})
    case CancelQueued(j) =>
      if s.jobs[j].status == Queued || s.jobs[j].status == Retrying then s.(jobs := s.jobs[j := s.jobs[j].(status := Cancelled)]) else s
    case CancelRunning(j) =>
      if s.jobs[j].status == Running then s.(jobs := s.jobs[j := s.jobs[j].(status := Cancelling)]) else s
    case Spawn(w) => s.(alive := s.alive + {w}, beating := s.beating + {w}, seen := s.seen + {w})
    case Crash(w) => s.(alive := s.alive - {w})
    case Lapse(w) => s.(beating := s.beating - {w})
    case ExpireKey(p) => s.(slots := s.slots - {p}, expired := s.expired + {p})
  }

  // ---- runs -----------------------------------------------------------------------------------

  ghost predicate Run(cfg: Config, s: Sys, steps: seq<Step>, t: Sys)
    decreases |steps|
  {
    if steps == [] then s == t
    else Enabled(cfg, s, steps[0]) && Run(cfg, Apply(cfg, s, steps[0]), steps[1..], t)
  }

  ghost predicate Reachable(cfg: Config, s: Sys) {
    exists steps :: Run(cfg, INIT, steps, s)
  }

  lemma {:induction false} RunAppend(cfg: Config, s: Sys, steps: seq<Step>, t: Sys, step: Step)
    requires Run(cfg, s, steps, t) && Enabled(cfg, t, step)
    ensures Run(cfg, s, steps + [step], Apply(cfg, t, step))
    decreases |steps|
  {
    if steps == [] {
      assert (steps + [step])[1..] == [];
    } else {
      RunAppend(cfg, Apply(cfg, s, steps[0]), steps[1..], t, step);
      assert (steps + [step])[1..] == steps[1..] + [step];
    }
  }

  // ---- what an act cannot touch ---------------------------------------------------------------

  /** An act keeps its message's job, adds at most one message, of the same job and not yet delivered, and
      keeps the job's identity. */
  predicate Framed(s: Sys, m: nat, c: Change)
    requires m < |s.msgs| && s.msgs[m].job in s.jobs
  {
    var msg := s.msgs[m];
    var job := s.jobs[msg.job];
    && c.msg.job == msg.job
    && |c.added| <= 1
    && (|c.added| == 1 ==>
          c.added[0].job == msg.job && !c.added[0].slot &&
          (c.added[0].place.Delayed? || c.added[0].place.Ready? || c.added[0].place.Dead?))
    && c.job.project == job.project && c.job.key == job.key && c.job.maxAttempts == job.maxAttempts
    && c.job.hist.publications == job.hist.publications && c.job.hist.unconfirmed == job.hist.unconfirmed
    && c.job.hist.rollbacks == job.hist.rollbacks
  }

  lemma ActIsFramed(cfg: Config, s: Sys, m: nat, act: Act)
    requires CanAct(s, m, act)
    ensures Framed(s, m, Do(cfg, s, m, act))
  {
  }
}
