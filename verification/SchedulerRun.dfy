/** Schedule evaluation by any number of simultaneous leaders on stale snapshots, each of which may stop anywhere,
    also between the enqueue and the update of `next_run_at` (services/scheduler/src/scheduler.ts:32-91). */
module SchedulerRun {
  import opened Basics
  import opened Scheduler

  type LeaderId = nat

  /** A pass: its clock reading, the rows it read and has not dealt with, and the one of them that it has enqueued
      but not yet advanced. */
  datatype Leader = Leader(now: Time, rows: map<string, Definition>, fired: Option<string>)

  /** A job made for an occurrence, and when. */
  datatype Fire = Fire(id: string, at: Time, made: Time)

  datatype State = State(clock: Time, defs: map<string, Definition>, keys: set<string>, log: seq<Fire>, leaders: map<LeaderId, Leader>)

  datatype Step =
    | Wait(until: Time)
    | Begin(leader: LeaderId)
    | Enqueue(leader: LeaderId, id: string)
    | Update(leader: LeaderId, id: string)
    | Stop(leader: LeaderId)
    | Edit(id: string, def: Definition)

  /** Jobs with other keys may exist from the start. */
  predicate Start(s: State) {
    s.log == [] && s.leaders == map[] && (forall id | id in s.defs :: ':' !in id)
  }

  predicate Enabled(s: State, step: Step) {
    match step
    case Wait(until) => until >= s.clock
    case Begin(l) => true
    case Enqueue(l, id) =>
      && l in s.leaders && id in s.leaders[l].rows && s.leaders[l].fired.None?
      && Due(s.leaders[l].rows[id], s.leaders[l].now)
    case Update(l, id) =>
      && l in s.leaders && id in s.leaders[l].rows
      && (if Due(s.leaders[l].rows[id], s.leaders[l].now) then s.leaders[l].fired == Some(id) else s.leaders[l].fired.None?)
    case Stop(l) => l in s.leaders
    case Edit(id, _) => ':' !in id
  }

  /** The update's SET list, on the row as it is by now. */
  function Write(cal: Calendar, row: Definition, seen: Definition, now: Time): Definition {
    var e := Advanced(cal, seen, now);
    if e == seen then row else row.(enabled := if seen.kind == OneTime && Due(seen, now) then false else row.enabled, nextRun := e.nextRun)
  }

  function Apply(cal: Calendar, s: State, step: Step): State
    requires Enabled(s, step)
  {
    match step
    case Wait(until) => s.(clock := until)
    case Begin(l) =>
      s.(leaders := s.leaders[l := Leader(s.clock, map id | id in s.defs && s.defs[id].enabled :: s.defs[id], None)])
    case Enqueue(l, id) =>
      var at := s.leaders[l].rows[id].nextRun.value;
      var key := cal.Key(id, at);
      var u := s.(leaders := s.leaders[l := s.leaders[l].(fired := Some(id))]);
      if key in s.keys then u else u.(keys := s.keys + {key}, log := s.log + [Fire(id, at, s.clock)])
    case Update(l, id) =>
      var me := s.leaders[l];
      s.(leaders := s.leaders[l := Leader(me.now, me.rows - {id}, None)],
         defs := if id in s.defs then s.defs[id := Write(cal, s.defs[id], me.rows[id], me.now)] else s.defs)
    case Stop(l) => s.(leaders := s.leaders - {l})
    case Edit(id, def) => s.(defs := s.defs[id := def])
  }

  ghost predicate Run(cal: Calendar, s: State, steps: seq<Step>, t: State)
    decreases |steps|
  {
    if steps == [] then s == t else Enabled(s, steps[0]) && Run(cal, Apply(cal, s, steps[0]), steps[1..], t)
  }

  /** A job for this occurrence has been made. */
  predicate Made(log: seq<Fire>, id: string, at: Time) {
    exists i | 0 <= i < |log| :: log[i].id == id && log[i].at == at
  }

  ghost predicate IdsOk(s: State) {
    && (forall id | id in s.defs :: ':' !in id)
    && (forall l, id | l in s.leaders && id in s.leaders[l].rows :: ':' !in id)
    && (forall i | 0 <= i < |s.log| :: ':' !in s.log[i].id)
  }

  ghost predicate HasKey(cal: Calendar, log: seq<Fire>, key: string) {
    exists i | 0 <= i < |log| :: cal.Key(log[i].id, log[i].at) == key
  }

  /** The keys in the jobs table are those of the log and those that were there before. */
  ghost predicate KeysOk(cal: Calendar, s: State, had: set<string>) {
    && had <= s.keys
    && (forall i | 0 <= i < |s.log| :: cal.Key(s.log[i].id, s.log[i].at) in s.keys - had)
    && (forall key | key in s.keys - had :: HasKey(cal, s.log, key))
    && (forall i, k | 0 <= i < k < |s.log| :: cal.Key(s.log[i].id, s.log[i].at) != cal.Key(s.log[k].id, s.log[k].at))
  }

  ghost predicate TimesOk(s: State) {
    && (forall l | l in s.leaders :: s.leaders[l].now <= s.clock)
    && (forall i | 0 <= i < |s.log| :: s.log[i].at <= s.log[i].made <= s.clock)
  }

  /** What a leader has enqueued has a job: its own, another leader's or an older one. */
  ghost predicate FiredOk(cal: Calendar, s: State) {
    forall l | l in s.leaders && s.leaders[l].fired.Some? ::
      var id := s.leaders[l].fired.value;
      id in s.leaders[l].rows && s.leaders[l].rows[id].nextRun.Some? && cal.Key(id, s.leaders[l].rows[id].nextRun.value) in s.keys
  }

  ghost predicate Inv(cal: Calendar, s: State, had: set<string>) {
    IdsOk(s) && KeysOk(cal, s, had) && TimesOk(s) && FiredOk(cal, s)
  }

  lemma NewKey(cal: Calendar, s: State, t: State, had: set<string>, f: Fire)
    requires KeysOk(cal, s, had) && cal.Key(f.id, f.at) !in s.keys
    requires t.keys == s.keys + {cal.Key(f.id, f.at)} && t.log == s.log + [f]
    ensures KeysOk(cal, t, had)
  {
    forall key | key in t.keys - had ensures HasKey(cal, t.log, key) {
      if key in s.keys {
        assert HasKey(cal, s.log, key);
        var i :| 0 <= i < |s.log| && cal.Key(s.log[i].id, s.log[i].at) == key;
        assert t.log[i] == s.log[i];
      } else {
        assert t.log[|s.log|] == f;
      }
    }
  }

  lemma EnqueueKeeps(cal: Calendar, s: State, had: set<string>, l: LeaderId, id: string)
    requires Inv(cal, s, had) && Enabled(s, Enqueue(l, id))
    ensures Inv(cal, Apply(cal, s, Enqueue(l, id)), had)
  {
    var at := s.leaders[l].rows[id].nextRun.value;
    var t := Apply(cal, s, Enqueue(l, id));
    if cal.Key(id, at) !in s.keys { NewKey(cal, s, t, had, Fire(id, at, s.clock)); }
  }

  lemma StepKeeps(cal: Calendar, s: State, had: set<string>, step: Step)
    requires Inv(cal, s, had) && Enabled(s, step)
    ensures Inv(cal, Apply(cal, s, step), had)
  {
    match step
    case Enqueue(l, id) => EnqueueKeeps(cal, s, had, l, id);
    case _ =>
  }

  lemma {:induction false} RunKeeps(cal: Calendar, s: State, had: set<string>, steps: seq<Step>, t: State)
    requires Inv(cal, s, had) && Run(cal, s, steps, t)
    ensures Inv(cal, t, had)
    decreases |steps|
  {
    if steps != [] {
      StepKeeps(cal, s, had, steps[0]);
      RunKeeps(cal, Apply(cal, s, steps[0]), had, steps[1..], t);
    }
  }

  /** No occurrence gets two jobs, none gets one early, and one that a leader has enqueued has its job, unless its key
      was in use from the start. */
  lemma EachOccurrenceOnce(cal: Calendar, s: State, steps: seq<Step>, t: State)
    requires cal.Lawful() && Start(s) && Run(cal, s, steps, t)
    ensures forall i, k | 0 <= i < k < |t.log| :: !(t.log[i].id == t.log[k].id && t.log[i].at == t.log[k].at)
    ensures forall i | 0 <= i < |t.log| :: t.log[i].at <= t.log[i].made <= t.clock
    ensures forall l | l in t.leaders && t.leaders[l].fired.Some? ::
              var id := t.leaders[l].fired.value;
              id in t.leaders[l].rows && t.leaders[l].rows[id].nextRun.Some? &&
              var at := t.leaders[l].rows[id].nextRun.value;
              Made(t.log, id, at) || cal.Key(id, at) in s.keys
  {
    RunKeeps(cal, s, s.keys, steps, t);
    forall l | l in t.leaders && t.leaders[l].fired.Some?
      ensures var id := t.leaders[l].fired.value;
              var at := t.leaders[l].rows[id].nextRun.value;
              Made(t.log, id, at) || cal.Key(id, at) in s.keys
    {
      var id := t.leaders[l].fired.value;
      FiredIsMade(cal, s.keys, t, id, t.leaders[l].rows[id].nextRun.value);
    }
  }

  lemma {:induction false} LogGrows(cal: Calendar, s: State, steps: seq<Step>, t: State)
    requires Run(cal, s, steps, t)
    ensures s.log <= t.log
    decreases |steps|
  {
    if steps != [] {
      assert s.log <= Apply(cal, s, steps[0]).log;
      LogGrows(cal, Apply(cal, s, steps[0]), steps[1..], t);
    }
  }

  /** Every occurrence that some leader has dealt with, however long ago, has its job: its update comes after the
      enqueue, its own or another leader's. */
  lemma PassedMeansMade(cal: Calendar, s: State, before: seq<Step>, u: State, l: LeaderId, id: string, after: seq<Step>, t: State)
    requires cal.Lawful() && Start(s) && Run(cal, s, before, u) && Enabled(u, Update(l, id))
    requires Due(u.leaders[l].rows[id], u.leaders[l].now) && Run(cal, Apply(cal, u, Update(l, id)), after, t)
    ensures var at := u.leaders[l].rows[id].nextRun.value;
      Made(t.log, id, at) || cal.Key(id, at) in s.keys
  {
    var at := u.leaders[l].rows[id].nextRun.value;
    RunKeeps(cal, s, s.keys, before, u);
    FiredIsMade(cal, s.keys, u, id, at);
    LogGrows(cal, Apply(cal, u, Update(l, id)), after, t);
    if Made(u.log, id, at) {
      var i :| 0 <= i < |u.log| && u.log[i].id == id && u.log[i].at == at;
      assert t.log[i] == u.log[i];
    }
  }

  lemma FiredIsMade(cal: Calendar, had: set<string>, t: State, id: string, at: Time)
    requires cal.Lawful() && IdsOk(t) && KeysOk(cal, t, had) && ':' !in id && cal.Key(id, at) in t.keys
    ensures Made(t.log, id, at) || cal.Key(id, at) in had
  {
    if cal.Key(id, at) !in had {
      assert HasKey(cal, t.log, cal.Key(id, at));
      var i :| 0 <= i < |t.log| && cal.Key(t.log[i].id, t.log[i].at) == cal.Key(id, at);
      KeysTellOccurrencesApart(cal, t.log[i].id, t.log[i].at, id, at);
    }
  }

  // ---- a leader alone -------------------------------------------------------------------------

  lemma WriteAdvances(cal: Calendar, row: Definition, now: Time)
    requires cal.Lawful()
    ensures Write(cal, row, row, now) == Advanced(cal, row, now)
  {
  }

  /** Only leader `l` acts, and time may pass. */
  predicate Alone(steps: seq<Step>, l: LeaderId) {
    forall i | 0 <= i < |steps| ::
      steps[i].Wait? || (steps[i].Enqueue? && steps[i].leader == l) || (steps[i].Update? && steps[i].leader == l)
  }

  ghost function Fired(cal: Calendar, was: map<string, Definition>, me: Leader): set<string> {
    if me.fired.Some? && me.fired.value in was && was[me.fired.value].nextRun.Some?
    then {cal.Key(me.fired.value, was[me.fired.value].nextRun.value)} else {}
  }

  /** The pass so far: the rows dealt with are advanced, and their due occurrences have their keys. */
  ghost predicate Solo(cal: Calendar, was: State, s: State, l: LeaderId) {
    && l in s.leaders && s.leaders[l].now == was.clock
    && var me := s.leaders[l];
       var done := was.defs.Keys - me.rows.Keys;
       && Snapshot(was.defs, me.rows)
       && (me.fired.Some? ==> me.fired.value in me.rows && Due(me.rows[me.fired.value], me.now))
       && Passed(was.defs, s.defs, done, cal, me.now)
       && s.keys == was.keys + KeysOf(was.defs, done, cal, me.now) + Fired(cal, was.defs, me)
  }

  lemma SoloBegins(cal: Calendar, was: State, l: LeaderId)
    ensures Solo(cal, was, Apply(cal, was, Begin(l)), l)
  {
    var s := Apply(cal, was, Begin(l));
    var done := was.defs.Keys - s.leaders[l].rows.Keys;
    assert forall id | id in done :: id in was.defs && !was.defs[id].enabled;
    assert KeysOf(was.defs, done, cal, was.clock) == {};
  }

  lemma SoloUpdates(cal: Calendar, was: State, s: State, l: LeaderId, id: string)
    requires cal.Lawful() && Solo(cal, was, s, l) && Enabled(s, Update(l, id))
    ensures Solo(cal, was, Apply(cal, s, Update(l, id)), l)
  {
    var me := s.leaders[l];
    var done := was.defs.Keys - me.rows.Keys;
    OneLess(was.defs, me.rows, id);
    PassedOneMore(was.defs, s.defs, done, id, cal, me.now);
    KeysOfOneMore(was.keys, was.defs, done, id, cal, me.now);
    WriteAdvances(cal, was.defs[id], me.now);
    assert Fired(cal, was.defs, me) == if Due(was.defs[id], me.now) then {cal.Key(id, was.defs[id].nextRun.value)} else {};
  }

  lemma SoloSteps(cal: Calendar, was: State, s: State, l: LeaderId, step: Step)
    requires cal.Lawful() && Solo(cal, was, s, l) && Enabled(s, step) && Alone([step], l)
    ensures Solo(cal, was, Apply(cal, s, step), l)
  {
    assert [step][0] == step;
    match step
    case Update(_, id) => SoloUpdates(cal, was, s, l, id);
    case Enqueue(_, id) =>
      assert s.leaders[l].rows[id] == was.defs[id] && Fired(cal, was.defs, s.leaders[l]) == {};
    case Wait(_) =>
  }

  lemma {:induction false} SoloRuns(cal: Calendar, was: State, s: State, l: LeaderId, steps: seq<Step>, t: State)
    requires cal.Lawful() && Solo(cal, was, s, l) && Run(cal, s, steps, t) && Alone(steps, l)
    ensures Solo(cal, was, t, l)
    decreases |steps|
  {
    if steps != [] {
      assert [steps[0]][0] == steps[0];
      SoloSteps(cal, was, s, l, steps[0]);
      assert forall i | 0 <= i < |steps[1..]| :: steps[1..][i] == steps[i + 1];
      SoloRuns(cal, was, Apply(cal, s, steps[0]), l, steps[1..], t);
    }
  }

  /** A leader that works alone and gets through its rows does what one pass of `EvaluateSchedules` does, at the time it
      began, in whatever order it takes them. */
  lemma AloneIsOnePass(cal: Calendar, was: State, l: LeaderId, steps: seq<Step>, t: State)
    requires cal.Lawful() && Run(cal, Apply(cal, was, Begin(l)), steps, t) && Alone(steps, l)
    requires l in t.leaders && t.leaders[l].rows == map[]
    ensures Passed(was.defs, t.defs, t.defs.Keys, cal, was.clock)
    ensures t.keys == was.keys + KeysOf(was.defs, was.defs.Keys, cal, was.clock)
  {
    SoloBegins(cal, was, l);
    SoloRuns(cal, was, Apply(cal, was, Begin(l)), l, steps, t);
    assert was.defs.Keys - t.leaders[l].rows.Keys == was.defs.Keys;
  }
}
