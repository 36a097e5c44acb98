/** Runs that end with a stranded job (DeliveryRunning.StrandedForGood): `retrying`, because its delayed retry matured
    too early; `running`, because its message came back before the 45 seconds were over, or because the publish of
    its retry was not confirmed; `cancelling`, because its worker died
    (packages/worker-runtime/src/runner.ts:168-174 and 235-246, packages/worker-runtime/src/reporter.ts:90-98). */
module DeliveryLost {
  import opened Basics
  import opened Delivery
  import opened DeliveryCover
  import opened DeliveryOwner
  import opened DeliveryRunning

  const CFG := Config((p: ProjectId) => 4, 10)

  lemma Onward(s: Sys, step: Step, t: Sys)
    requires Reachable(CFG, s) && Enabled(CFG, s, step) && Apply(CFG, s, step) == t
    ensures Reachable(CFG, t)
  {
    var steps :| Run(CFG, INIT, steps, s);
    RunAppend(CFG, INIT, steps, s, step);
  }

  const FRESH := Job(0, None, 5, Queued, 1, None, NEW_HISTORY)
  const PUBLISHED := FRESH.(hist := NEW_HISTORY.(publications := 1))
  const CLAIMED := PUBLISHED.(status := Running, worker := Some(7), hist := NEW_HISTORY.(publications := 1, claims := 1))
  const DONE := OutboxRow(1, RowState(Sent, 1), None, None)

  /** One job 1 of project 0, worker 7, `taken` slots. */
  function Scene(job: Job, msgs: seq<Msg>, alive: set<WorkerId>, taken: nat, early: set<JobId>): Sys {
    Sys(map[1 := job], [DONE], msgs, alive, {7, 8}, {7, 8}, map[0 := taken], {}, early, {}, {})
  }

  function First(place: Place): Msg { Msg(1, 1, place, place.Held? && place.pc != Received) }

  /** One act on one message of a scene. */
  lemma Turn(s: Sys, job: Job, msgs: seq<Msg>, alive: set<WorkerId>, taken: nat, early: set<JobId>, m: nat, act: Act, c: Change)
    requires s == Scene(job, msgs, alive, taken, early) && Reachable(CFG, s)
    requires job.project == 0 && CanAct(s, m, act) && c == Do(CFG, s, m, act) && c.msg.job == 1 && taken + c.slots >= 0 && !c.gateFailed
    ensures Reachable(CFG, Scene(c.job, msgs[m := c.msg] + c.added, alive, taken + c.slots, if c.early then early + {1} else early))
  {
    ActIsFramed(CFG, s, m, act);
    var t := Scene(c.job, msgs[m := c.msg] + c.added, alive, taken + c.slots, if c.early then early + {1} else early);
    assert t.slots == MoveSlots(s, 0, c.slots) && t.jobs == s.jobs[1 := c.job];
    Onward(s, Work(m, act), t);
  }

  /** An act that moves the message and adds none. */
  lemma Move(job: Job, msgs: seq<Msg>, alive: set<WorkerId>, taken: nat, early: set<JobId>, m: nat, act: Act, next: Msg, job': Job, slots: nat)
    requires Reachable(CFG, Scene(job, msgs, alive, taken, early)) && CanAct(Scene(job, msgs, alive, taken, early), m, act)
    requires next.job == 1 && job.project == 0
    requires Do(CFG, Scene(job, msgs, alive, taken, early), m, act) == Change(next, [], job', slots, false, false)
    ensures Reachable(CFG, Scene(job', msgs[m := next], alive, taken + slots, early))
  {
    Turn(Scene(job, msgs, alive, taken, early), job, msgs, alive, taken, early, m, act, Change(next, [], job', slots, false, false));
    assert msgs[m := next] + [] == msgs[m := next];
  }

  lemma Queued1()
    ensures Reachable(CFG, INIT.(alive := {7, 8}, beating := {7, 8}, seen := {7, 8}, jobs := map[1 := FRESH],
                                 outbox := [OutboxRow(1, RowState(Pending, 0), None, None)]))
  {
    assert Run(CFG, INIT, [], INIT);
    var a := INIT.(alive := {7}, beating := {7}, seen := {7});
    var b := INIT.(alive := {7, 8}, beating := {7, 8}, seen := {7, 8});
    Onward(INIT, Spawn(7), a);
    Onward(a, Spawn(8), b);
    Onward(b, Enqueue(1, 0, None, 5), b.(jobs := map[1 := FRESH], outbox := [OutboxRow(1, RowState(Pending, 0), None, None)]));
  }

  lemma Published(c: Sys, row: OutboxRow)
    requires Reachable(CFG, c) && row == OutboxRow(1, RowState(Pending, 0), None, None)
    requires c.outbox == [row] && c.jobs == map[1 := FRESH] && c.msgs == []
    ensures Reachable(CFG, c.(jobs := map[1 := PUBLISHED], outbox := [DONE], msgs := [First(Ready)]))
  {
    var locked := c.(outbox := [row.(lock := Some(3))]);
    Onward(c, Lock(3, {0}), locked);
    var sent := c.(jobs := map[1 := PUBLISHED], msgs := [First(Ready)],
                   outbox := [row.(lock := Some(3), draft := Some(RowState(Sent, 1)))]);
    Onward(locked, Relay(0, Confirmed), sent);
    Onward(sent, Commit(3), sent.(outbox := [DONE]));
  }

  lemma Received1()
    ensures Reachable(CFG, INIT.(alive := {7, 8}, beating := {7, 8}, seen := {7, 8}, jobs := map[1 := PUBLISHED], outbox := [DONE],
                                 msgs := [First(Held(7, Received))]))
  {
    Queued1();
    var row := OutboxRow(1, RowState(Pending, 0), None, None);
    var c := INIT.(alive := {7, 8}, beating := {7, 8}, seen := {7, 8}, jobs := map[1 := FRESH], outbox := [row]);
    Published(c, row);
    var d := c.(jobs := map[1 := PUBLISHED], outbox := [DONE], msgs := [First(Ready)]);
    Onward(d, Work(0, Deliver(7)), d.(msgs := [First(Held(7, Received))]));
  }

  lemma Claimed()
    ensures Reachable(CFG, Scene(CLAIMED, [First(Held(7, Executing))], {7, 8}, 1, {}))
  {
    Received1();
    var e := INIT.(alive := {7, 8}, beating := {7, 8}, seen := {7, 8}, jobs := map[1 := PUBLISHED], outbox := [DONE],
                   msgs := [First(Held(7, Received))]);
    Onward(e, Work(0, Acquire), Scene(PUBLISHED, [First(Held(7, Gated))], {7, 8}, 1, {}));
    Move(PUBLISHED, [First(Held(7, Gated))], {7, 8}, 1, {}, 0, Claim, First(Held(7, Executing)), CLAIMED, 0);
    assert [First(Held(7, Gated))][0 := First(Held(7, Executing))] == [First(Held(7, Executing))];
  }

  /** A second message of the job reaches worker 8, takes a slot, fails to claim and is to be acked. */
  lemma SecondIsDropped(job: Job, first: Msg, attempt: nat, alive: set<WorkerId>, early: set<JobId>)
    requires job.project == 0 && job.status == Running && job.worker == Some(7) && 8 in alive
    requires Reachable(CFG, Scene(job, [first, Msg(1, attempt, Ready, false)], alive, 1, early))
    ensures Reachable(CFG, Scene(job, [first, Msg(1, attempt, Held(8, AckDue), true)], alive, 2, early))
  {
    var a := Msg(1, attempt, Ready, false);
    var b := Msg(1, attempt, Held(8, Received), false);
    var c := Msg(1, attempt, Held(8, Gated), true);
    var d := Msg(1, attempt, Held(8, AckDue), true);
    Move(job, [first, a], alive, 1, early, 1, Deliver(8), b, job, 0);
    assert [first, a][1 := b] == [first, b];
    Move(job, [first, b], alive, 1, early, 1, Acquire, c, job, 1);
    assert [first, b][1 := c] == [first, c];
    Move(job, [first, c], alive, 2, early, 1, Claim, d, job, 0);
    assert [first, c][1 := d] == [first, d];
  }

  /** And then it is acked. */
  lemma SecondIsAcked(job: Job, first: Msg, attempt: nat, alive: set<WorkerId>, early: set<JobId>)
    requires job.project == 0 && job.status == Running && job.worker == Some(7) && 8 in alive
    requires Reachable(CFG, Scene(job, [first, Msg(1, attempt, Ready, false)], alive, 1, early))
    ensures Reachable(CFG, Scene(job, [first, Msg(1, attempt, Held(8, Acked), true)], alive, 2, early))
  {
    SecondIsDropped(job, first, attempt, alive, early);
    var d, e := Msg(1, attempt, Held(8, AckDue), true), Msg(1, attempt, Held(8, Acked), true);
    Move(job, [first, d], alive, 2, early, 1, Ack, e, job, 0);
    assert [first, d][1 := e] == [first, e];
  }

  lemma MaturedEarly(w: set<WorkerId>)
    requires w == {7, 8}
    ensures Reachable(CFG, Scene(CLAIMED, [First(Held(7, RetryPublished)), Msg(1, 2, Ready, false)], w, 1, {1}))
  {
    Claimed();
    var first := First(Held(7, RetryPublished));
    var child := Msg(1, 2, Delayed(Some(0)), false);
    var s := Scene(CLAIMED, [First(Held(7, Executing))], w, 1, {});
    Turn(s, CLAIMED, [First(Held(7, Executing))], w, 1, {}, 0, PublishRetry(Confirmed), Change(first, [child], CLAIMED, 0, false, false));
    assert [First(Held(7, Executing))][0 := first] + [child] == [first, child];
    var a := Scene(CLAIMED, [first, child], w, 1, {});
    Turn(a, CLAIMED, [first, child], w, 1, {}, 1, Mature, Change(Msg(1, 2, Ready, false), [], CLAIMED, 0, true, false));
    assert [first, child][1 := Msg(1, 2, Ready, false)] + [] == [first, Msg(1, 2, Ready, false)];
    assert {} + {1} == {1};
  }

  /** The delayed retry matures, is delivered, finds the job still `running` and is acked, all before the first
      delivery writes `retrying`. */
  lemma RetryingCanBeLost() returns (s: Sys)
    ensures Reachable(CFG, s) && 1 in s.jobs && s.jobs[1].status == Retrying && Stranded(s, 1)
  {
    var w := {7, 8};
    MaturedEarly(w);
    var first, due := First(Held(7, RetryPublished)), First(Held(7, AckDue));
    var second := Msg(1, 2, Held(8, Acked), true);
    SecondIsAcked(CLAIMED, first, 2, w, {1});
    var retrying := CLAIMED.(status := Retrying, attempt := 2);
    Move(CLAIMED, [first, second], w, 2, {1}, 0, WriteRetrying, due, retrying, 0);
    assert [first, second][0 := due] == [due, second];
    Move(retrying, [due, second], w, 2, {1}, 0, Ack, First(Held(7, Acked)), retrying, 0);
    assert [due, second][0 := First(Held(7, Acked))] == [First(Held(7, Acked)), second];
    s := Scene(retrying, [First(Held(7, Acked)), second], w, 2, {1});
  }

  lemma Redelivered(job: Job)
    requires job == CLAIMED.(hist := CLAIMED.hist.(requeues := 1))
    ensures Reachable(CFG, Scene(job, [First(Held(7, Acked)), First(Ready)], {8}, 1, {}))
  {
    Claimed();
    var a := Scene(CLAIMED, [First(Held(7, Executing))], {8}, 1, {});
    Onward(Scene(CLAIMED, [First(Held(7, Executing))], {7, 8}, 1, {}), Crash(7), a);
    Turn(a, CLAIMED, [First(Held(7, Executing))], {8}, 1, {}, 0, Redeliver,
         Change(First(Held(7, Acked)), [First(Ready)], job, 0, false, false));
    assert [First(Held(7, Executing))][0 := First(Held(7, Acked))] + [First(Ready)] == [First(Held(7, Acked)), First(Ready)];
  }

  /** The worker dies while executing; its message is redelivered, finds the job `running` under a heartbeat
      that is not yet stale, and is acked. */
  lemma RunningCanBeLost() returns (s: Sys)
    ensures Reachable(CFG, s) && 1 in s.jobs && s.jobs[1].status == Running && Stranded(s, 1)
    ensures s.jobs[1].worker.Some? && s.jobs[1].worker.value !in s.alive
  {
    var job := CLAIMED.(hist := CLAIMED.hist.(requeues := 1));
    Redelivered(job);
    SecondIsAcked(job, First(Held(7, Acked)), 1, {8}, {});
    s := Scene(job, [First(Held(7, Acked)), Msg(1, 1, Held(8, Acked), true)], {8}, 2, {});
  }

  lemma Requeued(job: Job, w: set<WorkerId>)
    requires job == CLAIMED.(hist := CLAIMED.hist.(requeues := 1)) && w == {7, 8}
    ensures Reachable(CFG, Scene(job, [First(Held(7, Acked)), First(Ready)], w, 1, {}))
  {
    Claimed();
    var a, b, c := First(Held(7, Executing)), First(Held(7, NackDue)), First(Held(7, Acked));
    Move(CLAIMED, [a], w, 1, {}, 0, PublishRetry(Lost), b, CLAIMED, 0);
    assert [a][0 := b] == [b];
    Turn(Scene(CLAIMED, [b], w, 1, {}), CLAIMED, [b], w, 1, {}, 0, Nack, Change(c, [First(Ready)], job, 0, false, false));
    assert [b][0 := c] + [First(Ready)] == [c, First(Ready)];
  }

  /** The publish of the retry is not confirmed; the original is requeued, finds the job `running` under its worker,
      which lives, and is acked. */
  lemma UnpublishedRetryCanBeLost() returns (s: Sys)
    ensures Reachable(CFG, s) && 1 in s.jobs && s.jobs[1].status == Running && Stranded(s, 1)
    ensures s.jobs[1].worker.Some? && s.jobs[1].worker.value in s.alive
  {
    var job := CLAIMED.(hist := CLAIMED.hist.(requeues := 1));
    Requeued(job, {7, 8});
    SecondIsAcked(job, First(Held(7, Acked)), 1, {7, 8}, {});
    s := Scene(job, [First(Held(7, Acked)), Msg(1, 1, Held(8, Acked), true)], {7, 8}, 2, {});
  }

  /** The cancel of a running job is accepted, and its worker dies: CancellingOrphanStays applies. */
  lemma CancellingCanBeOrphaned() returns (s: Sys)
    ensures Reachable(CFG, s) && 1 in s.jobs && s.jobs[1].status == Cancelling
    ensures forall m | Executed(s, m) :: s.msgs[m].job != 1
  {
    Claimed();
    var a := Scene(CLAIMED, [First(Held(7, Executing))], {7, 8}, 1, {});
    var b := a.(flags := {1});
    var c := b.(jobs := map[1 := CLAIMED.(status := Cancelling)]);
    Onward(a, RequestCancel(1), b);
    Onward(b, CancelRunning(1), c);
    s := c.(alive := {8});
    Onward(c, Crash(7), s);
  }
}
