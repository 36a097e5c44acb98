/** A cancel that is answered with a conflict still sets the flag, and nothing takes it back: a replay of the job
    within the flag's life runs into it (services/gateway-api/src/routes/jobs.ts:168-183,
    services/gateway-api/src/rabbit.ts:59-75). */
module DeliveryFlag {
  import opened Delivery
  import opened DeliveryOwner
  import opened DeliveryTerminal

  /** Every execution of a failed or cancelled job whose flag is set follows a replay, and finds the flag at its first
      check. */
  lemma ReplayedUnderFlag(cfg: Config, s: Sys, j: JobId, steps: seq<Step>, t: Sys, m: nat)
    requires Reachable(cfg, s) && Run(cfg, s, steps, t)
    requires j in s.jobs && j in s.flags && (s.jobs[j].status == Failed || s.jobs[j].status == Cancelled)
    requires Executed(t, m) && t.msgs[m].job == j
    ensures j in t.jobs && t.jobs[j].hist.resets > s.jobs[j].hist.resets
    ensures t.msgs[m].place.pc == Executing ==> CanAct(t, m, CancelSeen)
  {
    EndedUntilReplay(cfg, s, steps, t, j);
    CancelIsObservable(cfg, s, steps, t, m);
    ReachableOwned(cfg, s);
    RunKeepsOwner(cfg, s, steps, t);
    assert Owner(t.jobs[j], t.msgs[m].place.worker);
  }

  /** The message stands at `place`, its job has `status`. */
  predicate Stands(s: Sys, n: nat, j: JobId, place: Place, status: Status) {
    n < |s.msgs| && s.msgs[n].job == j && s.msgs[n].place == place && j in s.jobs && s.jobs[j].status == status
  }

  /** Nothing but the message, its job's status and history, and the project's counter differs. */
  predicate Near(s: Sys, t: Sys, j: JobId) {
    && t.alive == s.alive && t.flags == s.flags && t.beating == s.beating && j in s.jobs && j in t.jobs
    && t.jobs[j].project == s.jobs[j].project
  }

  lemma Act1(cfg: Config, s: Sys, steps: seq<Step>, t: Sys, n: nat, act: Act) returns (more: seq<Step>, u: Sys)
    requires Run(cfg, s, steps, t) && CanAct(t, n, act)
    ensures u == Apply(cfg, t, Work(n, act)) && Run(cfg, s, more, u)
    ensures Near(t, u, t.msgs[n].job) && u.msgs[n] == Do(cfg, t, n, act).msg && u.jobs[t.msgs[n].job] == Do(cfg, t, n, act).job
  {
    ActIsFramed(cfg, t, n, act);
    RunAppend(cfg, s, steps, t, Work(n, act));
    more, u := steps + [Work(n, act)], Apply(cfg, t, Work(n, act));
  }

  lemma Replays(cfg: Config, s: Sys, m: nat) returns (steps: seq<Step>, t: Sys)
    requires CanAct(s, m, Fetch) && (s.jobs[s.msgs[m].job].status == Failed || s.jobs[s.msgs[m].job].status == Cancelled)
    ensures var j := s.msgs[m].job;
      && Run(cfg, s, steps, t) && Near(s, t, j) && t.slots == s.slots && |t.msgs| == |s.msgs| + 1
      && Stands(t, |s.msgs|, j, Ready, Queued) && t.jobs[j].hist.claims == s.jobs[j].hist.claims
  {
    var j := s.msgs[m].job;
    assert Run(cfg, s, [], s);
    steps, t := Act1(cfg, s, [], s, m, Fetch);
    steps, t := Act1(cfg, s, steps, t, m, Reset);
    steps, t := Act1(cfg, s, steps, t, m, Republish(Confirmed));
    assert t.msgs[|s.msgs|] == Msg(j, 1, Ready, false);
  }

  lemma IsStopped(cfg: Config, s: Sys, from: seq<Step>, t: Sys, n: nat, w: WorkerId) returns (steps: seq<Step>, u: Sys)
    requires Run(cfg, s, from, t) && n < |t.msgs| && Stands(t, n, t.msgs[n].job, Ready, Queued)
    requires w in t.alive && t.msgs[n].job in t.flags
    requires Slots(t, t.jobs[t.msgs[n].job].project) < cfg.limit(t.jobs[t.msgs[n].job].project)
    ensures var j := t.msgs[n].job;
      && Run(cfg, s, steps, u) && j in u.jobs && u.jobs[j].status == Cancelled && u.jobs[j].hist.claims == t.jobs[j].hist.claims + 1
  {
    steps, u := Act1(cfg, s, from, t, n, Deliver(w));
    steps, u := Act1(cfg, s, steps, u, n, Acquire);
    steps, u := Act1(cfg, s, steps, u, n, Claim);
    steps, u := Act1(cfg, s, steps, u, n, CancelSeen);
  }

  /** And it can be cancelled by its first execution: from every state in which the job is failed or cancelled, its
      flag set and its message in the dead-letter queue, with a live worker and a free slot. */
  lemma ReplayCanRunIntoTheFlag(cfg: Config, s: Sys, m: nat, w: WorkerId) returns (steps: seq<Step>, t: Sys)
    requires CanAct(s, m, Fetch) && (s.jobs[s.msgs[m].job].status == Failed || s.jobs[s.msgs[m].job].status == Cancelled)
    requires s.msgs[m].job in s.flags && w in s.alive
    requires Slots(s, s.jobs[s.msgs[m].job].project) < cfg.limit(s.jobs[s.msgs[m].job].project)
    ensures var j := s.msgs[m].job;
      && Run(cfg, s, steps, t) && j in t.jobs && t.jobs[j].status == Cancelled
      && t.jobs[j].hist.claims == s.jobs[j].hist.claims + 1
  {
    var from, u := Replays(cfg, s, m);
    steps, t := IsStopped(cfg, s, from, u, |s.msgs|, w);
  }
}
