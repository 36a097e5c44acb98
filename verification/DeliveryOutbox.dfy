/** Idempotent enqueue and the outbox relay: one job per key, one outbox row per job, and a bound on how often
    a row is published, for any number of relays
    (packages/core/src/enqueue.ts:90-158, services/scheduler/src/relay.ts:43-85). */
module DeliveryOutbox {
  import opened Basics
  import opened Delivery

  /** The row as its lock holder sees it. */
  function Seen(o: OutboxRow): RowState {
    if o.draft.Some? then o.draft.value else o.row
  }

  /** A pending row has attempts left; a fresh one gets its first attempt whatever the maximum is. */
  predicate Left(cfg: Config, row: RowState) {
    row.attempts == 0 || row.attempts < cfg.maxOutboxAttempts
  }

  /** A row is given up only after the last attempt. */
  predicate UsedUp(cfg: Config, row: RowState) {
    row.status == GaveUp ==> row.attempts >= 1 && row.attempts >= cfg.maxOutboxAttempts
  }

  /** What a row and its job's counters have to do with each other. */
  predicate RowOk(cfg: Config, o: OutboxRow, h: History) {
    && (o.draft.Some? ==> o.lock.Some?) && (o.lock.Some? ==> o.row.status == Pending)
    && (o.row.status == Pending ==> Left(cfg, o.row))
    && (Seen(o).status == Pending ==> Left(cfg, Seen(o)))
    && UsedUp(cfg, o.row) && UsedUp(cfg, Seen(o))
    && (Seen(o).status == Sent ==> h.publications >= 1)
    && h.publications <= (if Seen(o).status == Sent then 1 else 0) + h.rollbacks + h.unconfirmed
  }

  ghost predicate RowsKnown(s: Sys) {
    forall i | 0 <= i < |s.outbox| :: s.outbox[i].job in s.jobs
  }

  ghost predicate RowsOk(cfg: Config, s: Sys)
    requires RowsKnown(s)
  {
    forall i | 0 <= i < |s.outbox| :: RowOk(cfg, s.outbox[i], s.jobs[s.outbox[i].job].hist)
  }

  ghost predicate RowOf(s: Sys, j: JobId) {
    exists i | 0 <= i < |s.outbox| :: s.outbox[i].job == j
  }

  ghost predicate OneRowPerJob(s: Sys) {
    && (forall i, k | 0 <= i < k < |s.outbox| :: s.outbox[i].job != s.outbox[k].job)
    && (forall j | j in s.jobs :: RowOf(s, j))
  }

  ghost predicate KeysUnique(s: Sys) {
    forall j, k | j in s.jobs && k in s.jobs && s.jobs[j].key.Some? && s.jobs[j].key == s.jobs[k].key :: j == k
  }

  ghost predicate OutboxInv(cfg: Config, s: Sys) {
    RowsKnown(s) && RowsOk(cfg, s) && OneRowPerJob(s) && KeysUnique(s)
  }

  /** A step that leaves the rows' jobs, and every job's key and relay counters, as they were. */
  ghost predicate SameRows(s: Sys, t: Sys) {
    && t.jobs.Keys == s.jobs.Keys && |t.outbox| == |s.outbox|
    && (forall i | 0 <= i < |s.outbox| :: t.outbox[i].job == s.outbox[i].job)
    && (forall j | j in s.jobs :: t.jobs[j].key == s.jobs[j].key)
  }

  lemma SameRowsKeep(s: Sys, t: Sys)
    requires RowsKnown(s) && OneRowPerJob(s) && KeysUnique(s) && SameRows(s, t)
    ensures RowsKnown(t) && OneRowPerJob(t) && KeysUnique(t)
  {
    forall j | j in t.jobs ensures RowOf(t, j) {
      assert RowOf(s, j);
      var i :| 0 <= i < |s.outbox| && s.outbox[i].job == j;
      assert t.outbox[i].job == j;
    }
  }

  lemma EffectKeepsOutbox(cfg: Config, s: Sys, m: nat, c: Change)
    requires OutboxInv(cfg, s) && m < |s.msgs| && s.msgs[m].job in s.jobs && Framed(s, m, c)
    ensures OutboxInv(cfg, Effect(s, m, c))
  {
    var t := Effect(s, m, c);
    SameRowsKeep(s, t);
    forall i | 0 <= i < |t.outbox| ensures RowOk(cfg, t.outbox[i], t.jobs[t.outbox[i].job].hist) {
      assert RowOk(cfg, s.outbox[i], s.jobs[s.outbox[i].job].hist);
    }
  }

  lemma ActKeepsOutbox(cfg: Config, s: Sys, m: nat, act: Act)
    requires OutboxInv(cfg, s) && CanAct(s, m, act)
    ensures OutboxInv(cfg, Apply(cfg, s, Work(m, act)))
  {
    ActIsFramed(cfg, s, m, act);
    EffectKeepsOutbox(cfg, s, m, Do(cfg, s, m, act));
  }

  lemma EnqueueKeepsOutbox(cfg: Config, s: Sys, j: JobId, p: ProjectId, key: Option<string>, maxAttempts: nat)
    requires OutboxInv(cfg, s) && j !in s.jobs
    ensures OutboxInv(cfg, DoEnqueue(s, j, p, key, maxAttempts))
  {
    if !KeyTaken(s, key) {
      var t := DoEnqueue(s, j, p, key, maxAttempts);
      NewRowIsOnly(s, t, j);
      forall a, b | a in t.jobs && b in t.jobs && t.jobs[a].key.Some? && t.jobs[a].key == t.jobs[b].key ensures a == b {
        assert a != j ==> t.jobs[a] == s.jobs[a];
        assert b != j ==> t.jobs[b] == s.jobs[b];
      }
      forall k | 0 <= k < |t.outbox| ensures RowOk(cfg, t.outbox[k], t.jobs[t.outbox[k].job].hist) {
        if k < |s.outbox| { assert RowOk(cfg, s.outbox[k], s.jobs[s.outbox[k].job].hist); }
      }
    }
  }

  lemma NewRowIsOnly(s: Sys, t: Sys, j: JobId)
    requires RowsKnown(s) && OneRowPerJob(s) && j !in s.jobs
    requires t.jobs.Keys == s.jobs.Keys + {j} && |t.outbox| == |s.outbox| + 1
    requires t.outbox[..|s.outbox|] == s.outbox && t.outbox[|s.outbox|].job == j
    ensures RowsKnown(t) && OneRowPerJob(t)
  {
    assert forall i | 0 <= i < |s.outbox| :: t.outbox[i] == t.outbox[..|s.outbox|][i] == s.outbox[i];
    forall k | k in t.jobs ensures RowOf(t, k) {
      if k == j {
        assert t.outbox[|s.outbox|].job == k;
      } else {
        assert RowOf(s, k);
        var i :| 0 <= i < |s.outbox| && s.outbox[i].job == k;
        assert t.outbox[i].job == k;
      }
    }
    forall i, k | 0 <= i < k < |t.outbox| ensures t.outbox[i].job != t.outbox[k].job {
      assert t.outbox[i] == s.outbox[i];
    }
  }

  lemma AttemptIsOk(cfg: Config, o: OutboxRow, h: History, pub: Publish, h': History)
    requires RowOk(cfg, o, h) && o.lock.Some? && o.draft.None?
    requires h'.rollbacks == h.rollbacks
    requires h'.publications == h.publications + (if pub == Lost then 0 else 1)
    requires h'.unconfirmed == h.unconfirmed + (if pub == Unconfirmed then 1 else 0)
    ensures RowOk(cfg, o.(draft := Some(Attempted(cfg, o.row, pub))), h')
  {
  }

  lemma RelayKeepsOutbox(cfg: Config, s: Sys, i: nat, pub: Publish)
    requires OutboxInv(cfg, s) && Enabled(cfg, s, Relay(i, pub))
    ensures OutboxInv(cfg, DoRelay(cfg, s, i, pub))
  {
    var t := DoRelay(cfg, s, i, pub);
    var o := s.outbox[i];
    SameRowsKeep(s, t);
    AttemptIsOk(cfg, o, s.jobs[o.job].hist, pub, t.jobs[o.job].hist);
    forall k | 0 <= k < |t.outbox| ensures RowOk(cfg, t.outbox[k], t.jobs[t.outbox[k].job].hist) {
      assert RowOk(cfg, s.outbox[k], s.jobs[s.outbox[k].job].hist);
      if k != i { assert t.outbox[k] == s.outbox[k] && t.outbox[k].job != o.job; }
    }
  }

  lemma LockKeepsOutbox(cfg: Config, s: Sys, r: RelayId, rows: set<nat>)
    requires OutboxInv(cfg, s) && Enabled(cfg, s, Lock(r, rows))
    ensures OutboxInv(cfg, Apply(cfg, s, Lock(r, rows)))
  {
    var t := Apply(cfg, s, Lock(r, rows));
    SameRowsKeep(s, t);
    forall k | 0 <= k < |t.outbox| ensures RowOk(cfg, t.outbox[k], t.jobs[t.outbox[k].job].hist) {
      assert RowOk(cfg, s.outbox[k], s.jobs[s.outbox[k].job].hist);
    }
  }

  lemma CommitKeepsOutbox(cfg: Config, s: Sys, r: RelayId)
    requires OutboxInv(cfg, s) && Enabled(cfg, s, Commit(r))
    ensures OutboxInv(cfg, Apply(cfg, s, Commit(r)))
  {
    var t := Apply(cfg, s, Commit(r));
    SameRowsKeep(s, t);
    forall k | 0 <= k < |t.outbox| ensures RowOk(cfg, t.outbox[k], t.jobs[t.outbox[k].job].hist) {
      assert RowOk(cfg, s.outbox[k], s.jobs[s.outbox[k].job].hist);
    }
  }

  lemma RollbackKeepsOutbox(cfg: Config, s: Sys, r: RelayId)
    requires OutboxInv(cfg, s)
    ensures OutboxInv(cfg, Apply(cfg, s, Rollback(r)))
  {
    var t := Apply(cfg, s, Rollback(r));
    SameRowsKeep(s, t);
    forall k | 0 <= k < |t.outbox| ensures RowOk(cfg, t.outbox[k], t.jobs[t.outbox[k].job].hist) {
      assert RowOk(cfg, s.outbox[k], s.jobs[s.outbox[k].job].hist);
      if s.outbox[k].lock == Some(r) { assert LockedBy(s, s.outbox[k].job, r); }
    }
  }

  lemma CancelKeepsOutbox(cfg: Config, s: Sys, step: Step)
    requires OutboxInv(cfg, s) && Enabled(cfg, s, step)
    requires step.RequestCancel? || step.CancelQueued? || step.CancelRunning? || step.Spawn? || step.Crash? || step.Lapse? || step.ExpireKey?
    ensures OutboxInv(cfg, Apply(cfg, s, step))
  {
    var t := Apply(cfg, s, step);
    assert t.outbox == s.outbox && forall j | j in s.jobs :: t.jobs[j].key == s.jobs[j].key && t.jobs[j].hist == s.jobs[j].hist;
    SameRowsKeep(s, t);
  }

  lemma StepKeepsOutbox(cfg: Config, s: Sys, step: Step)
    requires OutboxInv(cfg, s) && Enabled(cfg, s, step)
    ensures OutboxInv(cfg, Apply(cfg, s, step))
  {
    match step
    case Work(m, act) => ActKeepsOutbox(cfg, s, m, act);
    case Enqueue(j, p, key, maxAttempts) => EnqueueKeepsOutbox(cfg, s, j, p, key, maxAttempts);
    case Lock(r, rows) => LockKeepsOutbox(cfg, s, r, rows);
    case Relay(i, pub) => RelayKeepsOutbox(cfg, s, i, pub);
    case Commit(r) => CommitKeepsOutbox(cfg, s, r);
    case Rollback(r) => RollbackKeepsOutbox(cfg, s, r);
    case _ => CancelKeepsOutbox(cfg, s, step);
  }

  lemma {:induction false} RunKeepsOutbox(cfg: Config, s: Sys, steps: seq<Step>, t: Sys)
    requires OutboxInv(cfg, s) && Run(cfg, s, steps, t)
    ensures OutboxInv(cfg, t)
    decreases |steps|
  {
    if steps != [] {
      StepKeepsOutbox(cfg, s, steps[0]);
      RunKeepsOutbox(cfg, Apply(cfg, s, steps[0]), steps[1..], t);
    }
  }

  /** At most one job per key; every job has exactly one outbox row. */
  lemma EnqueueIsIdempotent(cfg: Config, s: Sys)
    requires Reachable(cfg, s)
    ensures forall j, k | j in s.jobs && k in s.jobs && s.jobs[j].key.Some? && s.jobs[j].key == s.jobs[k].key :: j == k
    ensures forall j | j in s.jobs :: RowOf(s, j)
    ensures forall i, k | 0 <= i < k < |s.outbox| :: s.outbox[i].job != s.outbox[k].job
    ensures forall i | 0 <= i < |s.outbox| :: s.outbox[i].job in s.jobs
  {
    var steps :| Run(cfg, INIT, steps, s);
    RunKeepsOutbox(cfg, INIT, steps, s);
  }

  /** `sent` means published; `pending` means attempts are left, `failed` that none are; and a row is published at most once plus
      once for each rolled-back tick and each publish whose confirm did not arrive. */
  lemma RowsAccountForPublishes(cfg: Config, s: Sys, i: nat)
    requires Reachable(cfg, s) && i < |s.outbox|
    ensures s.outbox[i].job in s.jobs
    ensures var h := s.jobs[s.outbox[i].job].hist;
            && (s.outbox[i].row.status == Sent ==> h.publications >= 1)
            && (s.outbox[i].row.status == Pending ==> s.outbox[i].row.attempts == 0 || s.outbox[i].row.attempts < cfg.maxOutboxAttempts)
            && (s.outbox[i].row.status == GaveUp ==> s.outbox[i].row.attempts >= 1 && s.outbox[i].row.attempts >= cfg.maxOutboxAttempts)
            && h.publications <= 1 + h.rollbacks + h.unconfirmed
            && (s.outbox[i].draft.None? && s.outbox[i].row.status != Sent ==> h.publications <= h.rollbacks + h.unconfirmed)
  {
    var steps :| Run(cfg, INIT, steps, s);
    RunKeepsOutbox(cfg, INIT, steps, s);
    assert RowOk(cfg, s.outbox[i], s.jobs[s.outbox[i].job].hist);
  }
}
