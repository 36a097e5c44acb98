/** How often a job is executed. Every message carries the claims it can still lead to; an attempt spends one
    and a retry passes the rest on, so only a relay publish, a requeue or a replay adds any
    (packages/worker-runtime/src/runner.ts:213-255). */
module DeliveryClaims {
  import opened Basics
  import opened Delivery
  import opened DeliverySum
  import opened DeliveryOutbox

  /** Claims a message can still lead to without being requeued or replayed. */
  function Weight(msg: Msg, max: nat): nat {
    var left := if msg.attempt > max then 0 else max - msg.attempt;
    match msg.place
    case Delayed(_) | Ready => left + 1
    case Held(_, pc) =>
      if pc == Received || pc == AtLimit || pc == Gated then left + 1
      else if pc == Executing then left
      else 0
    case _ => 0
  }

  function WeightFor(j: JobId, max: nat): Msg -> nat {
    (msg: Msg) => if msg.job == j then Weight(msg, max) else 0
  }

  /** Times a first-attempt or requeued copy of the job entered the broker. */
  function Entries(h: History): nat { h.publications + h.requeues + h.replays }

  ghost predicate AttemptsOk(s: Sys) {
    forall m | 0 <= m < |s.msgs| ::
      s.msgs[m].job in s.jobs && 1 <= s.msgs[m].attempt <= s.jobs[s.msgs[m].job].maxAttempts
  }

  /** `max * n` by repeated addition, one `max` for each entry. */
  function Times(max: nat, n: nat): nat {
    if n == 0 then 0 else max + Times(max, n - 1)
  }

  lemma {:induction false} TimesIsProduct(max: nat, n: nat)
    ensures Times(max, n) == max * n
  {
    if n > 0 { TimesIsProduct(max, n - 1); }
  }

  predicate Bounded(job: Job, load: nat) {
    job.hist.claims + load <= Times(job.maxAttempts, Entries(job.hist))
  }

  ghost predicate ClaimInv(s: Sys) {
    && AttemptsOk(s)
    && (forall j | j in s.jobs :: JobBounded(s, j))
  }

  predicate JobBounded(s: Sys, j: JobId)
    requires j in s.jobs
  {
    s.jobs[j].maxAttempts > 0 && Bounded(s.jobs[j], Sum(s.msgs, WeightFor(j, s.jobs[j].maxAttempts)))
  }

  /** An act spends weight for claims, and adds weight only with an entry. */
  predicate Paid(s: Sys, m: nat, c: Change)
    requires m < |s.msgs| && s.msgs[m].job in s.jobs && |c.added| <= 1
  {
    var job := s.jobs[s.msgs[m].job];
    var max := job.maxAttempts;
    var before := job.hist.claims + Weight(s.msgs[m], max);
    var after := c.job.hist.claims + Weight(c.msg, max) + (if |c.added| == 1 then Weight(c.added[0], max) else 0);
    && 1 <= c.msg.attempt <= max && (|c.added| == 1 ==> 1 <= c.added[0].attempt <= max)
    && if Entries(c.job.hist) == Entries(job.hist) then after <= before
       else Entries(c.job.hist) == Entries(job.hist) + 1 && after <= before + max
  }

  lemma ActIsPaidBeforeClaim(cfg: Config, s: Sys, m: nat, act: Act)
    requires BeforeClaim(act)
    requires CanAct(s, m, act) && AttemptsOk(s)
    ensures |Do(cfg, s, m, act).added| <= 1 && Paid(s, m, Do(cfg, s, m, act))
  {
  }

  lemma ActIsPaidAfterHandler(cfg: Config, s: Sys, m: nat, act: Act)
    requires AfterHandler(act)
    requires CanAct(s, m, act) && AttemptsOk(s)
    ensures |Do(cfg, s, m, act).added| <= 1 && Paid(s, m, Do(cfg, s, m, act))
  {
  }

  lemma ActIsPaidElsewhere(cfg: Config, s: Sys, m: nat, act: Act)
    requires !BeforeClaim(act) && !AfterHandler(act)
    requires CanAct(s, m, act) && AttemptsOk(s)
    ensures |Do(cfg, s, m, act).added| <= 1 && Paid(s, m, Do(cfg, s, m, act))
  {
  }

  lemma ActIsPaid(cfg: Config, s: Sys, m: nat, act: Act)
    requires CanAct(s, m, act) && AttemptsOk(s)
    ensures |Do(cfg, s, m, act).added| <= 1 && Paid(s, m, Do(cfg, s, m, act))
  {
    if BeforeClaim(act) {
      ActIsPaidBeforeClaim(cfg, s, m, act);
    } else if AfterHandler(act) {
      ActIsPaidAfterHandler(cfg, s, m, act);
    } else {
      ActIsPaidElsewhere(cfg, s, m, act);
    }
  }

  lemma EffectKeepsClaims(s: Sys, m: nat, c: Change)
    requires ClaimInv(s) && m < |s.msgs| && s.msgs[m].job in s.jobs && Framed(s, m, c) && Paid(s, m, c)
    ensures ClaimInv(Effect(s, m, c))
  {
    var t := Effect(s, m, c);
    forall n | 0 <= n < |t.msgs|
      ensures t.msgs[n].job in t.jobs && 1 <= t.msgs[n].attempt <= t.jobs[t.msgs[n].job].maxAttempts
    {
      if n < |s.msgs| && n != m { assert t.msgs[n] == s.msgs[n]; }
    }
    forall j | j in t.jobs ensures JobBounded(t, j) {
      EffectKeepsBound(s, m, c, j);
    }
  }

  lemma EffectKeepsBound(s: Sys, m: nat, c: Change, j: JobId)
    requires m < |s.msgs| && s.msgs[m].job in s.jobs && Framed(s, m, c) && Paid(s, m, c) && j in s.jobs
    requires JobBounded(s, j)
    ensures j in Effect(s, m, c).jobs && JobBounded(Effect(s, m, c), j)
  {
    var max := s.jobs[j].maxAttempts;
    var f := WeightFor(j, max);
    SumEffect(s, m, c, f);
    if j != s.msgs[m].job {
      assert f(c.msg) == 0 && Of(c.added, f) == 0;
    }
  }

  lemma RelayKeepsClaims(cfg: Config, s: Sys, i: nat, pub: Publish)
    requires ClaimInv(s) && Enabled(cfg, s, Relay(i, pub))
    ensures ClaimInv(DoRelay(cfg, s, i, pub))
  {
    var t := DoRelay(cfg, s, i, pub);
    if pub != Lost {
      var msg := Msg(s.outbox[i].job, 1, Ready, false);
      assert t.msgs == s.msgs + [msg];
      forall j | j in t.jobs ensures JobBounded(t, j) {
        var max := s.jobs[j].maxAttempts;
        assert JobBounded(s, j);
        SumPush(s.msgs, msg, WeightFor(j, max));
      }
    }
  }

  lemma {:induction false} StrangersWeighNothing(msgs: seq<Msg>, j: JobId, max: nat)
    requires forall m | 0 <= m < |msgs| :: msgs[m].job != j
    ensures Sum(msgs, WeightFor(j, max)) == 0
    decreases |msgs|
  {
    if msgs != [] { StrangersWeighNothing(msgs[..|msgs| - 1], j, max); }
  }

  lemma NewJobIsBounded(t: Sys, j: JobId)
    requires j in t.jobs && t.jobs[j].maxAttempts > 0 && t.jobs[j].hist == NEW_HISTORY && forall m | 0 <= m < |t.msgs| :: t.msgs[m].job != j
    ensures JobBounded(t, j)
  {
    var max := t.jobs[j].maxAttempts;
    StrangersWeighNothing(t.msgs, j, max);
    assert Sum(t.msgs, WeightFor(j, max)) == 0;
    assert Entries(t.jobs[j].hist) == 0 && t.jobs[j].hist.claims == 0;
  }

  lemma SameJobBounded(s: Sys, t: Sys, j: JobId)
    requires j in s.jobs && JobBounded(s, j) && t.msgs == s.msgs && j in t.jobs && t.jobs[j] == s.jobs[j]
    ensures JobBounded(t, j)
  {
  }

  lemma NewJobKeepsAttempts(s: Sys, t: Sys)
    requires AttemptsOk(s) && t.msgs == s.msgs && forall k | k in s.jobs :: k in t.jobs && t.jobs[k] == s.jobs[k]
    ensures AttemptsOk(t)
  {
    forall m | 0 <= m < |t.msgs|
      ensures t.msgs[m].job in t.jobs && 1 <= t.msgs[m].attempt <= t.jobs[t.msgs[m].job].maxAttempts
    {
      assert t.msgs[m] == s.msgs[m] && s.msgs[m].job in s.jobs;
    }
  }

  lemma NewJobKeepsClaims(s: Sys, t: Sys, j: JobId)
    requires ClaimInv(s) && j !in s.jobs && t.msgs == s.msgs && j in t.jobs
    requires forall k | k in s.jobs :: k in t.jobs && t.jobs[k] == s.jobs[k]
    requires forall k | k in t.jobs && k != j :: k in s.jobs
    requires t.jobs[j].maxAttempts > 0 && t.jobs[j].hist == NEW_HISTORY
    ensures ClaimInv(t)
  {
    NewJobKeepsAttempts(s, t);
    forall k | k in t.jobs ensures JobBounded(t, k) {
      if k == j {
        NewJobIsBounded(t, j);
      } else {
        SameJobBounded(s, t, k);
      }
    }
  }

  lemma EnqueueKeepsClaims(s: Sys, j: JobId, p: ProjectId, key: Option<string>, maxAttempts: nat)
    requires ClaimInv(s) && j !in s.jobs && maxAttempts > 0
    ensures ClaimInv(DoEnqueue(s, j, p, key, maxAttempts))
  {
    if !KeyTaken(s, key) {
      NewJobKeepsClaims(s, DoEnqueue(s, j, p, key, maxAttempts), j);
    }
  }

  /** A step that adds no message, job, claim or entry. */
  lemma QuietKeepsClaims(s: Sys, t: Sys)
    requires ClaimInv(s) && t.msgs == s.msgs && t.jobs.Keys == s.jobs.Keys
    requires forall j | j in s.jobs :: t.jobs[j].maxAttempts == s.jobs[j].maxAttempts
               && t.jobs[j].hist.claims == s.jobs[j].hist.claims && Entries(t.jobs[j].hist) == Entries(s.jobs[j].hist)
    ensures ClaimInv(t)
  {
    forall j | j in t.jobs ensures JobBounded(t, j) {
      assert JobBounded(s, j);
    }
  }

  lemma StepKeepsClaims(cfg: Config, s: Sys, step: Step)
    requires ClaimInv(s) && Enabled(cfg, s, step)
    ensures ClaimInv(Apply(cfg, s, step))
  {
    match step
    case Work(m, act) =>
      ActIsFramed(cfg, s, m, act);
      ActIsPaid(cfg, s, m, act);
      EffectKeepsClaims(s, m, Do(cfg, s, m, act));
    case Enqueue(j, p, key, maxAttempts) => EnqueueKeepsClaims(s, j, p, key, maxAttempts);
    case Relay(i, pub) => RelayKeepsClaims(cfg, s, i, pub);
    case _ => QuietKeepsClaims(s, Apply(cfg, s, step));
  }

  lemma {:induction false} RunKeepsClaims(cfg: Config, s: Sys, steps: seq<Step>, t: Sys)
    requires ClaimInv(s) && Run(cfg, s, steps, t)
    ensures ClaimInv(t)
    decreases |steps|
  {
    if steps != [] {
      StepKeepsClaims(cfg, s, steps[0]);
      RunKeepsClaims(cfg, Apply(cfg, s, steps[0]), steps[1..], t);
    }
  }

  lemma MulLe(max: nat, a: nat, b: nat)
    requires a <= b
    ensures max * a <= max * b
  {
  }

  /** A job is executed at most `max_attempts` times for each relay publish, requeue and replay; counting
      publishes by what causes them, at most `max_attempts` times for its enqueue and for each rolled-back tick,
      unconfirmed publish, requeue and replay. */
  lemma ClaimsBounded(cfg: Config, s: Sys, j: JobId)
    requires Reachable(cfg, s) && j in s.jobs
    ensures var job := s.jobs[j];
            && job.hist.claims <= job.maxAttempts * (job.hist.publications + job.hist.requeues + job.hist.replays)
            && job.hist.claims <= job.maxAttempts *
                 (1 + job.hist.rollbacks + job.hist.unconfirmed + job.hist.requeues + job.hist.replays)
  {
    var steps :| Run(cfg, INIT, steps, s);
    RunKeepsClaims(cfg, INIT, steps, s);
    EnqueueIsIdempotent(cfg, s);
    var i :| 0 <= i < |s.outbox| && s.outbox[i].job == j;
    RowsAccountForPublishes(cfg, s, i);
    var job := s.jobs[j];
    var h := job.hist;
    assert JobBounded(s, j);
    TimesIsProduct(job.maxAttempts, Entries(h));
    MulLe(job.maxAttempts, Entries(h), 1 + h.rollbacks + h.unconfirmed + h.requeues + h.replays);
  }

  /** Nothing was requeued, replayed, rolled back or published without a confirm. */
  predicate Undisturbed(h: History) {
    h.rollbacks == 0 && h.unconfirmed == 0 && h.requeues == 0 && h.replays == 0
  }

  /** Without disturbances a job is executed at most `max_attempts` times. */
  lemma UndisturbedClaims(cfg: Config, s: Sys, j: JobId)
    requires Reachable(cfg, s) && j in s.jobs && Undisturbed(s.jobs[j].hist)
    ensures s.jobs[j].hist.claims <= s.jobs[j].maxAttempts
  {
    ClaimsBounded(cfg, s, j);
  }
}
