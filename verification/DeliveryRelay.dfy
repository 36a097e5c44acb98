/** Transactional enqueue and one tick of the outbox relay
    (packages/core/src/enqueue.ts:90-158, services/scheduler/src/relay.ts:43-85). */
module DeliveryRelay {
  import opened Basics
  import opened Delivery
  import opened DeliveryOutbox
  import opened DeliveryWorld

  /** The job and its outbox row in one transaction; nothing when a job with the same key exists. */
  method EnqueueJob(w: World, j: JobId, p: ProjectId, key: Option<string>, maxAttempts: nat) returns (enqueued: bool)
    requires w.Valid() && j !in w.jobs && maxAttempts > 0
    modifies w
    ensures w.Valid()
    ensures enqueued <==> (key.Some? ==> forall k | k in old(w.jobs) :: old(w.jobs)[k].key != key)
    ensures enqueued ==>
              && w.jobs == old(w.jobs)[j := Job(p, key, maxAttempts, Queued, 1, None, NEW_HISTORY)]
              && w.outbox == old(w.outbox) + [OutboxRow(j, RowState(Pending, 0), None, None)]
    ensures !enqueued ==> w.Now() == old(w.Now())
    ensures w.msgs == old(w.msgs)
  {
    var step := Enqueue(j, p, key, maxAttempts);
    RunAppend(w.cfg, INIT, w.log, w.Now(), step);
    enqueued := !(key.Some? && exists k | k in w.jobs :: w.jobs[k].key == key);
    if enqueued {
      w.jobs := w.jobs[j := Job(p, key, maxAttempts, Queued, 1, None, NEW_HISTORY)];
      w.outbox := w.outbox + [OutboxRow(j, RowState(Pending, 0), None, None)];
    }
    w.log := w.log + [step];
  }

  predicate Free(o: OutboxRow) { o.lock.None? && o.row.status == Pending }

  /** Rows `rows` are the oldest `batch` free ones, all of them if there are fewer. */
  predicate Oldest(outbox: seq<OutboxRow>, batch: nat, rows: seq<nat>) {
    && |rows| <= batch
    && (forall k | 0 <= k < |rows| :: rows[k] < |outbox| && Free(outbox[rows[k]]))
    && (forall k, l | 0 <= k < l < |rows| :: rows[k] < rows[l])
    && (forall i | 0 <= i < |outbox| && Free(outbox[i]) && i !in rows ::
          |rows| == batch && forall k | 0 <= k < |rows| :: rows[k] < i)
  }

  /** The rows of SELECT .. WHERE status = 'pending' ORDER BY created_at FOR UPDATE SKIP LOCKED LIMIT `batch`. */
  method SelectPending(outbox: seq<OutboxRow>, batch: nat) returns (rows: seq<nat>)
    ensures Oldest(outbox, batch, rows)
  {
    rows := [];
    var i := 0;
    while i < |outbox| && |rows| < batch
      invariant 0 <= i <= |outbox| && |rows| <= batch
      invariant forall k | 0 <= k < |rows| :: rows[k] < i && Free(outbox[rows[k]])
      invariant forall k, l | 0 <= k < l < |rows| :: rows[k] < rows[l]
      invariant forall n | 0 <= n < i && Free(outbox[n]) :: n in rows
    {
      if Free(outbox[i]) { rows := rows + [i]; }
      i := i + 1;
    }
  }

  function Confirms(pub: nat -> Publish, n: nat): nat {
    if n == 0 then 0 else Confirms(pub, n - 1) + (if pub(n - 1) == Confirmed then 1 else 0)
  }

  /** The world's outbox rows belong to known jobs. */
  lemma WorldRows(w: World)
    requires w.Valid()
    ensures RowsKnown(w.Now())
  {
    RunKeepsOutbox(w.cfg, INIT, w.log, w.Now());
  }

  /** How the transaction ends: it commits; it dies before turn `before`; the commit fails; or the commit succeeds
      and the relay does not hear of it. */
  datatype End = Commits | Dies(before: nat) | CommitFails | CommitUnheard

  predicate DiesWithin(end: End, turns: nat) { end.Dies? && end.before < turns }

  class OutboxRelay {
    const id: RelayId

    constructor (id: RelayId)
      ensures this.id == id
    {
      this.id := id;
    }

    /** The transaction holds exactly the picked rows. */
    ghost predicate Holds(w: World, rows: seq<nat>)
      reads w
    {
      && (forall k | 0 <= k < |rows| :: rows[k] < |w.outbox|)
      && (forall i | 0 <= i < |w.outbox| :: w.outbox[i].lock == Some(id) <==> i in rows)
    }

    /** The open transaction: it holds exactly the picked rows, distinct ones, and has written the first `k`. */
    ghost predicate Open(w: World, was: seq<OutboxRow>, rows: seq<nat>, k: nat, pub: nat -> Publish)
      reads w
    {
      && w.Valid() && Holds(w, rows) && (forall l, n | 0 <= l < n < |rows| :: rows[l] < rows[n])
      && forall l {:trigger rows[l]} | 0 <= l < |rows| :: rows[l] < |was| && w.outbox[rows[l]] == InProgress(w.cfg, was[rows[l]], l < k, pub(l))
    }

    function InProgress(cfg: Config, o: OutboxRow, done: bool, pub: Publish): OutboxRow {
      OutboxRow(o.job, o.row, Some(id), if done then Some(Attempted(cfg, o.row, pub)) else None)
    }

    /** The rows after the transaction. */
    ghost predicate Closed(w: World, was: seq<OutboxRow>, rows: seq<nat>, committed: bool, pub: nat -> Publish)
      reads w
    {
      forall l {:trigger rows[l]} | 0 <= l < |rows| ::
        && rows[l] < |was| && rows[l] < |w.outbox|
        && w.outbox[rows[l]].job == was[rows[l]].job && w.outbox[rows[l]].lock.None? && w.outbox[rows[l]].draft.None?
        && if committed then Moved(w.cfg, was[rows[l]].row, w.outbox[rows[l]].row, pub(l)) else w.outbox[rows[l]].row == was[rows[l]].row
    }

    /** One more attempt: `sent` with a confirm; without one still `pending`, or `failed` if it was the last. */
    predicate Moved(cfg: Config, before: RowState, after: RowState, pub: Publish) {
      && after.attempts == before.attempts + 1
      && (after.status == Sent <==> pub == Confirmed)
      && (after.status == GaveUp <==> pub != Confirmed && before.attempts + 1 >= cfg.maxOutboxAttempts)
      && (after.status == Pending <==> pub != Confirmed && before.attempts + 1 < cfg.maxOutboxAttempts)
    }

    /** One turn of the loop: publish, then write the row's new state inside the transaction. */
    method Publish1(w: World, i: nat, pub: Publish)
      requires w.Valid() && Enabled(w.cfg, w.Now(), Relay(i, pub)) && w.outbox[i].lock == Some(id)
      modifies w
      ensures w.Valid() && w.turn == old(w.turn)
      ensures w.outbox == old(w.outbox)[i := old(w.outbox[i]).(draft := Some(Attempted(w.cfg, old(w.outbox[i].row), pub)))]
      ensures w.msgs == old(w.msgs) + (if pub == Lost then [] else [Msg(old(w.outbox[i].job), 1, Ready, false)])
    {
      RunAppend(w.cfg, INIT, w.log, w.Now(), Relay(i, pub));
      var o := w.outbox[i];
      if pub != Lost {
        var h := w.jobs[o.job].hist;
        w.msgs := w.msgs + [Msg(o.job, 1, Ready, false)];
        w.jobs := w.jobs[o.job := w.jobs[o.job].(hist := h.(publications := h.publications + 1,
                                                            unconfirmed := h.unconfirmed + if pub == Unconfirmed then 1 else 0))];
      }
      var attempts := o.row.attempts + 1;
      if pub == Confirmed {
        w.outbox := w.outbox[i := o.(draft := Some(RowState(Sent, attempts)))];
      } else {
        var failed := attempts >= w.cfg.maxOutboxAttempts;
        w.outbox := w.outbox[i := o.(draft := Some(RowState(if failed then GaveUp else Pending, attempts)))];
      }
      w.log := w.log + [Relay(i, pub)];
    }

    /** Locks the oldest pending rows. */
    method Begin(w: World, batch: nat, ghost pub: nat -> Publish) returns (rows: seq<nat>)
      requires w.Valid() && forall i | 0 <= i < |w.outbox| :: w.outbox[i].lock != Some(id)
      modifies w
      ensures Oldest(old(w.outbox), batch, rows) && Open(w, old(w.outbox), rows, 0, pub)
    {
      rows := SelectPending(w.outbox, batch);
      NoDraftWithoutLock(w);
      var chosen := set i | i in rows;
      w.Perform(Lock(id, chosen));
    }

    method Await(w: World, ghost was: seq<OutboxRow>, rows: seq<nat>, k: nat, pub: nat -> Publish)
      requires Open(w, was, rows, k, pub)
      modifies w
      ensures Open(w, was, rows, k, pub) && RowsKnown(w.Now())
    {
      w.Yield(Transaction(id));
      WorldRows(w);
    }

    method Turn(w: World, ghost was: seq<OutboxRow>, rows: seq<nat>, k: nat, pub: nat -> Publish)
      requires Open(w, was, rows, k, pub) && RowsKnown(w.Now()) && k < |rows|
      modifies w
      ensures Open(w, was, rows, k + 1, pub)
    {
      Publish1(w, rows[k], pub(k));
      forall l | 0 <= l < |rows| ensures w.outbox[rows[l]] == InProgress(w.cfg, was[rows[l]], l < k + 1, pub(l)) {
        if l != k { assert rows[l] != rows[k]; }
      }
    }

    method CommitRows(w: World, ghost was: seq<OutboxRow>, rows: seq<nat>, pub: nat -> Publish)
      requires Open(w, was, rows, |rows|, pub)
      modifies w
      ensures w.Valid() && Closed(w, was, rows, true, pub)
    {
      forall i | 0 <= i < |w.outbox| && w.outbox[i].lock == Some(id) ensures w.outbox[i].draft.Some? {
        var l :| 0 <= l < |rows| && rows[l] == i;
      }
      w.Perform(Commit(id));
    }

    method RollBack(w: World, ghost was: seq<OutboxRow>, rows: seq<nat>, k: nat, pub: nat -> Publish)
      requires Open(w, was, rows, k, pub)
      modifies w
      ensures w.Valid() && Closed(w, was, rows, false, pub)
    {
      w.Perform(Rollback(id));
    }

    /** The loop over the locked rows. */
    method PublishRows(w: World, ghost was: seq<OutboxRow>, rows: seq<nat>, pub: nat -> Publish, end: End)
      returns (sent: nat, ok: bool)
      requires Open(w, was, rows, 0, pub)
      modifies w
      ensures ok <==> !DiesWithin(end, |rows|)
      ensures if ok then Open(w, was, rows, |rows|, pub) && sent == Confirms(pub, |rows|)
              else w.Valid() && Closed(w, was, rows, false, pub)
    {
      var k, turns := 0, if DiesWithin(end, |rows|) then end.before else |rows|;
      sent := 0;
      while k < turns
        invariant 0 <= k <= turns && sent == Confirms(pub, k)
        invariant Open(w, was, rows, k, pub)
      {
        Await(w, was, rows, k, pub);
        Turn(w, was, rows, k, pub);
        sent, k := if pub(k) == Confirmed then sent + 1 else sent, k + 1;
      }
      ok := turns == |rows|;
      if !ok { RollBack(w, was, rows, k, pub); }
    }

    /** One tick. If the transaction commits, each picked row has the state its publish calls for; if it dies or its
        commit fails, the rows are as before; and the relay reports success only after a commit it heard of. */
    method Tick(w: World, batch: nat, pub: nat -> Publish, end: End) returns (sent: nat, ok: bool, committed: bool, rows: seq<nat>)
      requires w.Valid() && forall i | 0 <= i < |w.outbox| :: w.outbox[i].lock != Some(id)
      modifies w
      ensures w.Valid() && Oldest(old(w.outbox), batch, rows) && Closed(w, old(w.outbox), rows, committed, pub)
      ensures committed <==> !DiesWithin(end, |rows|) && end != CommitFails
      ensures ok <==> committed && end != CommitUnheard
      ensures ok ==> sent == Confirms(pub, |rows|)
    {
      ghost var was := w.outbox;
      rows := Begin(w, batch, pub);
      sent, ok := PublishRows(w, was, rows, pub, end);
      committed := ok && end != CommitFails;
      if committed {
        CommitRows(w, was, rows, pub);
      } else if ok {
        RollBack(w, was, rows, |rows|, pub);
      }
      ok := committed && end != CommitUnheard;
    }

    lemma NoDraftWithoutLock(w: World)
      requires w.Valid()
      ensures forall i | 0 <= i < |w.outbox| && w.outbox[i].lock.None? :: w.outbox[i].draft.None?
    {
      RunKeepsOutbox(w.cfg, INIT, w.log, w.Now());
      forall i | 0 <= i < |w.outbox| && w.outbox[i].lock.None? ensures w.outbox[i].draft.None? {
        assert RowOk(w.cfg, w.outbox[i], w.jobs[w.outbox[i].job].hist);
      }
    }
  }
}
