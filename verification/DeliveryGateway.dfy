/** The gateway's two interventions: cancelling a job and replaying the dead-letter queue
    (services/gateway-api/src/routes/jobs.ts:164-189, services/gateway-api/src/rabbit.ts:45-81). */
module DeliveryGateway {
  import opened Basics
  import opened Delivery
  import opened DeliveryWorld
  import opened DeliveryOwner

  // ---- cancel -----------------------------------------------------------------------------------

  datatype Reply = NotFound | Accepted | Conflict

  /** UPDATE .. SET status = 'cancelled' WHERE status IN ('queued', 'retrying'). */
  method CancelWaiting(w: World, j: JobId) returns (hit: bool)
    requires w.Valid() && j in w.jobs && j in w.flags
    modifies w
    ensures w.Valid() && w.Now() == Apply(w.cfg, old(w.Now()), CancelQueued(j)) && w.log == old(w.log) + [CancelQueued(j)]
    ensures if hit then w.jobs == old(w.jobs)[j := old(w.jobs)[j].(status := Cancelled)] else w.jobs == old(w.jobs)
    ensures hit <==> old(w.jobs[j].status) == Queued || old(w.jobs[j].status) == Retrying
  {
    RunAppend(w.cfg, INIT, w.log, w.Now(), CancelQueued(j));
    var status := w.jobs[j].status;
    hit := status == Queued || status == Retrying;
    if hit { w.jobs := w.jobs[j := w.jobs[j].(status := Cancelled)]; }
    w.log := w.log + [CancelQueued(j)];
  }

  /** UPDATE .. SET status = 'cancelling' WHERE status = 'running'. */
  method AskToStop(w: World, j: JobId) returns (hit: bool)
    requires w.Valid() && j in w.jobs && j in w.flags
    modifies w
    ensures w.Valid() && w.Now() == Apply(w.cfg, old(w.Now()), CancelRunning(j)) && w.log == old(w.log) + [CancelRunning(j)]
    ensures if hit then w.jobs == old(w.jobs)[j := old(w.jobs)[j].(status := Cancelling)] else w.jobs == old(w.jobs)
    ensures hit <==> old(w.jobs[j].status) == Running
  {
    RunAppend(w.cfg, INIT, w.log, w.Now(), CancelRunning(j));
    hit := w.jobs[j].status == Running;
    if hit { w.jobs := w.jobs[j := w.jobs[j].(status := Cancelling)]; }
    w.log := w.log + [CancelRunning(j)];
  }

  method RaiseFlag(w: World, j: JobId)
    requires w.Valid() && j in w.jobs
    modifies w
    ensures w.Valid() && w.jobs == old(w.jobs) && w.flags == old(w.flags) + {j} && w.log == old(w.log) + [RequestCancel(j)]
  {
    RunAppend(w.cfg, INIT, w.log, w.Now(), RequestCancel(j));
    w.flags := w.flags + {j};
    w.log := w.log + [RequestCancel(j)];
  }

  /** The first update, in its turn; `at` is its place in the log. */
  method FirstUpdate(w: World, j: JobId) returns (hit: bool, ghost at: nat)
    requires w.Valid() && j in w.jobs && j in w.flags
    modifies w
    ensures w.Valid() && j in w.jobs && j in w.flags && old(w.log) <= w.log
    ensures |old(w.log)| <= at < |w.log| && w.log[at] == CancelQueued(j)
    ensures hit ==> w.jobs[j].status == Cancelled
    ensures Quiet(w) ==>
              if old(w.jobs)[j].status == Queued || old(w.jobs)[j].status == Retrying
              then hit && w.jobs == old(w.jobs)[j := old(w.jobs)[j].(status := Cancelled)]
              else !hit && w.jobs == old(w.jobs)
  {
    w.Yield(Nobody);
    at := |w.log|;
    hit := CancelWaiting(w, j);
  }

  method SecondUpdate(w: World, j: JobId) returns (hit: bool, ghost at: nat)
    requires w.Valid() && j in w.jobs && j in w.flags
    modifies w
    ensures w.Valid() && j in w.jobs && j in w.flags && old(w.log) <= w.log
    ensures |old(w.log)| <= at < |w.log| && w.log[at] == CancelRunning(j)
    ensures if hit then w.jobs[j].status == Cancelling else w.jobs[j].status != Running
    ensures Quiet(w) ==>
              if old(w.jobs)[j].status == Running
              then hit && w.jobs == old(w.jobs)[j := old(w.jobs)[j].(status := Cancelling)]
              else !hit && w.jobs == old(w.jobs)
  {
    w.Yield(Nobody);
    at := |w.log|;
    hit := AskToStop(w, j);
  }

  /** From `from` on the flag was set and then the first update tried. */
  ghost predicate Tried(log: seq<Step>, from: nat, j: JobId) {
    exists i, k :: from <= i < k < |log| && log[i] == RequestCancel(j) && log[k] == CancelQueued(j)
  }

  /** And then the second. */
  ghost predicate TriedBoth(log: seq<Step>, from: nat, j: JobId) {
    exists i, k, l :: from <= i < k < l < |log| && log[i] == RequestCancel(j) && log[k] == CancelQueued(j) && log[l] == CancelRunning(j)
  }

  /** What the reply is, and what becomes of the status, when nobody else is at work. */
  function Undisturbed(status: Status): (Reply, Status) {
    match status
    case Queued | Retrying => (Accepted, Cancelled)
    case Running => (Accepted, Cancelling)
    case _ => (Conflict, status)
  }

  /** The flag first, then two conditional updates, with other processes in between. Whatever they do, an accepted
      cancel leaves the job `cancelled` or its one execution asked to stop; a conflict is answered only after the flag
      was set and both updates were tried, in this order. With nobody else at work the status decides. */
  method CancelJob(w: World, j: JobId) returns (reply: Reply)
    requires w.Valid()
    modifies w
    ensures w.Valid() && old(w.log) <= w.log
    ensures reply == NotFound <==> j !in old(w.jobs)
    ensures reply == NotFound ==> w.Now() == old(w.Now()) && w.log == old(w.log)
    ensures reply != NotFound ==> j in w.jobs && j in w.flags && Tried(w.log, |old(w.log)|, j)
    ensures reply == Accepted ==> w.jobs[j].status == Cancelled || w.jobs[j].status == Cancelling
    ensures reply == Conflict ==> w.jobs[j].status != Running && TriedBoth(w.log, |old(w.log)|, j)
    ensures Quiet(w) && reply != NotFound ==>
              && reply == Undisturbed(old(w.jobs)[j].status).0
              && w.jobs == old(w.jobs)[j := old(w.jobs)[j].(status := Undisturbed(old(w.jobs)[j].status).1)]
  {
    if j !in w.jobs { return NotFound; }
    RaiseFlag(w, j);
    var hit, first := FirstUpdate(w, j);
    assert w.log[|old(w.log)|] == RequestCancel(j) && w.log[first] == CancelQueued(j);
    if hit { return Accepted; }
    ghost var second;
    hit, second := SecondUpdate(w, j);
    assert w.log[|old(w.log)|] == RequestCancel(j) && w.log[first] == CancelQueued(j) && w.log[second] == CancelRunning(j);
    reply := if hit then Accepted else Conflict;
  }

  // ---- replay -----------------------------------------------------------------------------------

  /** `ch.get`: the message at the head of the dead-letter queue, if there is one. */
  method HeadOfDlq(msgs: seq<Msg>) returns (head: Option<nat>)
    ensures head.None? ==> forall m | 0 <= m < |msgs| :: msgs[m].place != Dead
    ensures head.Some? ==>
              head.value < |msgs| && msgs[head.value].place == Dead && forall m | 0 <= m < head.value :: msgs[m].place != Dead
  {
    var m := 0;
    while m < |msgs|
      invariant 0 <= m <= |msgs| && forall n | 0 <= n < m :: msgs[n].place != Dead
    {
      if msgs[m].place == Dead { return Some(m); }
      m := m + 1;
    }
    return None;
  }

  /** Everything a replay does to its message. */
  function ReplayScript(readable: bool, pub: Publish): seq<Act> {
    if readable then [Fetch, Reset] + Resending(pub) else [Fetch, ReplayLost]
  }

  function Resending(pub: Publish): seq<Act> {
    if pub == Confirmed then [Republish(pub), AckReplayed] else [Republish(pub)]
  }

  /** The replayed message stands at `place`. */
  predicate Stands(w: World, m: nat, place: Place)
    reads w
  {
    m < |w.msgs| && w.msgs[m].place == place && w.msgs[m].job in w.jobs
  }

  /** UPDATE .. SET status = 'queued', attempt = 1 WHERE status IN ('failed', 'cancelled'). */
  method ResetJob(w: World, m: nat)
    requires w.Valid() && Stands(w, m, Taken(Fetched))
    modifies w
    ensures w.Valid() && w.Now() == Apply(w.cfg, old(w.Now()), Work(m, Reset)) && Stands(w, m, Taken(WasReset))
    ensures w.log == old(w.log) + [Work(m, Reset)]
    ensures var was := old(w.jobs[w.msgs[m].job]);
            if was.status == Failed || was.status == Cancelled
            then w.jobs[w.msgs[m].job].status == Queued && w.jobs[w.msgs[m].job].attempt == 1
            else w.jobs == old(w.jobs)
  {
    RunAppend(w.cfg, INIT, w.log, w.Now(), Work(m, Reset));
    var j := w.msgs[m].job;
    var job := w.jobs[j];
    if job.status == Failed || job.status == Cancelled {
      w.jobs := w.jobs[j := job.(status := Queued, attempt := 1, hist := job.hist.(resets := job.hist.resets + 1))];
    } else {
      assert w.jobs == w.jobs[j := job];
    }
    w.msgs := w.msgs[m := w.msgs[m].(place := Taken(WasReset))];
    assert w.msgs + [] == w.msgs;
    w.log := w.log + [Work(m, Reset)];
  }

  ghost predicate GoneStay(before: seq<Msg>, after: seq<Msg>) {
    |before| <= |after| && forall n | 0 <= n < |before| && before[n].place == Gone :: after[n] == before[n]
  }

  /** The replay stands at `place`, and what was gone at `base` still is. */
  ghost predicate Going(w: World, m: nat, place: Place, base: seq<Msg>)
    reads w
  {
    w.Valid() && Stands(w, m, place) && GoneStay(base, w.msgs)
  }

  /** The publish: the envelope again with attempt 1, and the job as it is. */
  method Republish1(w: World, m: nat, pub: Publish)
    requires w.Valid() && Stands(w, m, Taken(WasReset))
    modifies w
    ensures w.Valid() && w.Now() == Apply(w.cfg, old(w.Now()), Work(m, Republish(pub))) && w.log == old(w.log) + [Work(m, Republish(pub))]
    ensures Stands(w, m, if pub == Confirmed then Taken(Republished) else Dead)
    ensures |w.msgs| == |old(w.msgs)| + (if pub == Lost then 0 else 1)
    ensures pub != Lost ==> w.msgs[|old(w.msgs)|] == Msg(old(w.msgs[m]).job, 1, Ready, false)
    ensures w.jobs[w.msgs[m].job].status == old(w.jobs[w.msgs[m].job].status)
  {
    RunAppend(w.cfg, INIT, w.log, w.Now(), Work(m, Republish(pub)));
    var msg := w.msgs[m];
    w.msgs := w.msgs[m := msg.(place := if pub == Confirmed then Taken(Republished) else Dead)];
    if pub != Lost {
      w.msgs := w.msgs + [Msg(msg.job, 1, Ready, false)];
      var h := w.jobs[msg.job].hist;
      w.jobs := w.jobs[msg.job := w.jobs[msg.job].(hist := h.(replays := h.replays + 1))];
    } else {
      assert w.msgs + [] == w.msgs;
      assert w.jobs == w.jobs[msg.job := w.jobs[msg.job]];
    }
    w.log := w.log + [Work(m, Republish(pub))];
  }

  /** Some act of the replay that is no statement on the control database. */
  method Handle(w: World, m: nat, act: Act, ghost from: Place, ghost to: Place, ghost base: seq<Msg>)
    requires Going(w, m, from, base)
    requires || (act == Fetch && from == Dead && to == Taken(Fetched))
             || (act == ReplayLost && from == Taken(Fetched) && to == Dead)
             || (act == AckReplayed && from == Taken(Republished) && to == Gone)
    modifies w
    ensures Going(w, m, to, base) && ActsOn(w.log, m) == ActsOn(old(w.log), m) + [act]
    ensures w.log == old(w.log) + [Work(m, act)]
  {
    ActKeeps(w.cfg, Nobody, w.Now(), m, act);
    ActsPush(w.log, Work(m, act), m);
    w.Perform(Work(m, act));
  }

  method ResetInTurn(w: World, m: nat, ghost base: seq<Msg>)
    requires Going(w, m, Taken(Fetched), base)
    modifies w
    ensures Going(w, m, Taken(WasReset), base) && ActsOn(w.log, m) == ActsOn(old(w.log), m) + [Reset]
    ensures |w.log| > |old(w.log)|
  {
    w.Yield(Replayer(m));
    ActKeeps(w.cfg, Nobody, w.Now(), m, Reset);
    ActsPush(w.log, Work(m, Reset), m);
    ResetJob(w, m);
  }

  /** The log has grown beyond `from`, last by this act. */
  predicate EndsWith(log: seq<Step>, from: nat, m: nat, act: Act) {
    |log| > from && log[|log| - 1] == Work(m, act)
  }

  /** The publish and, once it is confirmed, the ack; otherwise the message goes back. */
  method Resend(w: World, m: nat, pub: Publish, ghost base: seq<Msg>)
    requires Going(w, m, Taken(WasReset), base)
    modifies w
    ensures Going(w, m, if pub == Confirmed then Gone else Dead, base)
    ensures ActsOn(w.log, m) == ActsOn(old(w.log), m) + Resending(pub)
    ensures |w.log| > |old(w.log)| && (pub != Confirmed ==> EndsWith(w.log, |old(w.log)|, m, Republish(pub)))
  {
    ghost var before := ActsOn(w.log, m);
    w.Yield(Replayer(m));
    ActKeeps(w.cfg, Nobody, w.Now(), m, Republish(pub));
    ActsPush(w.log, Work(m, Republish(pub)), m);
    Republish1(w, m, pub);
    if pub == Confirmed {
      Handle(w, m, AckReplayed, Taken(Republished), Gone, base);
      Joined(before, Republish(pub), AckReplayed);
    }
  }

  lemma Joined(log: seq<Act>, a: Act, b: Act)
    ensures log + [a] + [b] == log + [a, b]
  {
  }

  lemma Chain(log: seq<Act>, more: seq<Act>)
    ensures log + [Fetch] + [Reset] + more == log + ([Fetch, Reset] + more)
  {
  }

  /** One message: taken, its job reset, published again with attempt 1, and acked once that is confirmed;
      otherwise it goes back. */
  method ReplayOne(w: World, m: nat, readable: bool, pub: Publish) returns (ok: bool)
    requires w.Valid() && Stands(w, m, Dead)
    modifies w
    ensures w.Valid() && Stands(w, m, if ok then Gone else Dead)
    ensures ok <==> readable && pub == Confirmed
    ensures ActsOn(w.log, m) == ActsOn(old(w.log), m) + ReplayScript(readable, pub)
    ensures GoneStay(old(w.msgs), w.msgs)
    ensures |w.log| > |old(w.log)|
    ensures !ok ==> EndsWith(w.log, |old(w.log)|, m, if readable then Republish(pub) else ReplayLost)
  {
    ghost var before, base := ActsOn(w.log, m), w.msgs;
    Handle(w, m, Fetch, Dead, Taken(Fetched), base);
    if readable {
      ResetInTurn(w, m, base);
      Resend(w, m, pub, base);
      Chain(before, Resending(pub));
    } else {
      Handle(w, m, ReplayLost, Taken(Fetched), Dead, base);
      Joined(before, Fetch, ReplayLost);
    }
    ok := readable && pub == Confirmed;
  }

  lemma WorldMessages(w: World)
    requires w.Valid()
    ensures forall m | 0 <= m < |w.msgs| :: w.msgs[m].job in w.jobs
  {
    RunKeepsOwner(w.cfg, INIT, w.log, w.Now());
    assert w.Now().msgs == w.msgs;
  }

  /** The messages `done` were on the queue and are gone. */
  ghost predicate TakenOff(done: seq<nat>, before: seq<Msg>, after: seq<Msg>) {
    forall k {:trigger done[k]} | 0 <= k < |done| ::
      && done[k] < |after| && after[done[k]].place == Gone
      && (done[k] < |before| ==> before[done[k]].place != Gone)
  }

  predicate Empty(msgs: seq<Msg>) {
    forall m | 0 <= m < |msgs| :: msgs[m].place != Dead
  }

  /** The last step of all was a replay of some message that failed: it was unreadable or its publish was not confirmed,
      and it is on the queue again. */
  predicate PutBack(log: seq<Step>, from: nat, msgs: seq<Msg>, readable: nat -> bool, pub: nat -> Publish) {
    exists m | 0 <= m < |msgs| ::
      && msgs[m].place == Dead && !(readable(m) && pub(m) == Confirmed)
      && EndsWith(log, from, m, if readable(m) then Republish(pub(m)) else ReplayLost)
  }

  /** Up to `max` messages; stops at an empty queue, an unreadable message or a publish that is not confirmed.
      The count returned is the number of distinct messages taken off the queue for good. */
  method ReplayDlq(w: World, max: nat, readable: nat -> bool, pub: nat -> Publish) returns (replayed: nat, ghost done: seq<nat>)
    requires w.Valid()
    modifies w
    ensures w.Valid() && replayed <= max
    ensures |done| == replayed && Distinct(done) && TakenOff(done, old(w.msgs), w.msgs)
    ensures replayed < max ==> Empty(w.msgs) || PutBack(w.log, |old(w.log)|, w.msgs, readable, pub)
  {
    replayed, done := 0, [];
    ghost var before := w.msgs;
    while replayed < max
      invariant w.Valid() && |done| == replayed <= max && GoneStay(before, w.msgs)
      invariant Distinct(done) && TakenOff(done, before, w.msgs) && |w.log| >= |old(w.log)|
    {
      w.Yield(Nobody);
      WorldMessages(w);
      var head := HeadOfDlq(w.msgs);
      if head.None? { return; }
      var ok := ReplayOne(w, head.value, readable(head.value), pub(head.value));
      if !ok { return; }
      done := done + [head.value];
      replayed := replayed + 1;
    }
  }
}
