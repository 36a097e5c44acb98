/** One pass of the schedule evaluation (services/scheduler/src/scheduler.ts:27-91). */
module Scheduler {
  import opened Basics

  type Time = int

  datatype Kind = Cron | OneTime | Recurring

  datatype Definition = Definition(kind: Kind, cron: Option<string>, timezone: string, enabled: bool, nextRun: Option<Time>)

  /** The cron library and the date format: when an expression occurs, in a timezone, and its first occurrence after a
      time. */
  datatype Calendar = Calendar(occurs: (string, string, Time) -> bool, next: (string, string, Time) -> Time, iso: Time -> string)
  {
    ghost predicate Lawful() {
      && (forall c, z, t :: First(c, z, t, next(c, z, t)))
      && (forall t, u :: iso(t) == iso(u) ==> t == u)
    }

    /** `u` is the first occurrence after `t`. */
    ghost predicate First(c: string, z: string, t: Time, u: Time) {
      t < u && occurs(c, z, u) && forall v | t < v < u :: !occurs(c, z, v)
    }

    function After(d: Definition, now: Time): Time
      requires d.cron.Some?
    {
      next(d.cron.value, d.timezone, now)
    }

    /** The idempotency key of an occurrence. */
    function Key(id: string, at: Time): string {
      "sched:" + id + ":" + iso(at)
    }
  }

  lemma {:induction false} SplitAtColon(a: string, b: string, x: string, y: string)
    requires ':' !in a && ':' !in b && a + ":" + x == b + ":" + y
    ensures a == b && x == y
    decreases |a|
  {
    Head(a, x);
    Head(b, y);
    if a == "" || b == "" {
      assert a == "" && b == "";
      assert x == ("" + ":" + x)[1..] && y == ("" + ":" + y)[1..];
    } else {
      assert a[1..] + ":" + x == (a + ":" + x)[1..] && b[1..] + ":" + y == (b + ":" + y)[1..];
      SplitAtColon(a[1..], b[1..], x, y);
      assert a == [a[0]] + a[1..] && b == [b[0]] + b[1..];
    }
  }

  lemma Head(a: string, x: string)
    ensures (a + ":" + x)[0] == if a == "" then ':' else a[0]
  {
  }

  /** Different occurrences have different keys, as ids contain no colon. */
  lemma KeysTellOccurrencesApart(cal: Calendar, a: string, s: Time, b: string, t: Time)
    requires cal.Lawful() && ':' !in a && ':' !in b
    ensures cal.Key(a, s) == cal.Key(b, t) <==> a == b && s == t
  {
    if cal.Key(a, s) == cal.Key(b, t) {
      assert cal.Key(a, s)[6..] == a + ":" + cal.iso(s);
      assert cal.Key(b, t)[6..] == b + ":" + cal.iso(t);
      SplitAtColon(a, b, cal.iso(s), cal.iso(t));
    }
  }

  predicate Due(d: Definition, now: Time) {
    d.enabled && d.nextRun.Some? && d.nextRun.value <= now
  }

  /** What the pass leaves in a row. */
  function Advanced(cal: Calendar, d: Definition, now: Time): Definition {
    if !d.enabled then d
    else if d.nextRun.None? then (if d.cron.Some? then d.(nextRun := Some(cal.After(d, now))) else d)
    else if d.nextRun.value > now then d
    else if d.kind == OneTime then d.(enabled := false, nextRun := None)
    else if d.cron.Some? then d.(nextRun := Some(cal.After(d, now)))
    else d
  }

  /** The definition's run time is its first occurrence after `t`: none is passed over. */
  ghost predicate NextAfter(cal: Calendar, d: Definition, t: Time) {
    d.cron.Some? && d.nextRun.Some? && cal.First(d.cron.value, d.timezone, t, d.nextRun.value)
  }

  /** After a pass every enabled definition with a cron expression is due strictly later; a due one, and one that had no
      run time, at its first occurrence after the pass; a due one-time definition is off; the others are untouched. */
  lemma PassMovesForward(cal: Calendar, d: Definition, now: Time)
    requires cal.Lawful()
    ensures var e := Advanced(cal, d, now);
      && (e.enabled && e.cron.Some? ==> e.nextRun.Some? && e.nextRun.value > now)
      && (d.enabled && d.cron.Some? && (d.nextRun.None? || (Due(d, now) && d.kind != OneTime)) ==> e.enabled && NextAfter(cal, e, now))
      && (d.enabled && d.kind == OneTime && d.nextRun.Some? ==> if d.nextRun.value <= now then !e.enabled && e.nextRun.None? else e == d)
      && (!d.enabled || (d.nextRun.Some? && d.nextRun.value > now) ==> e == d)
      && (d.nextRun.Some? && e.nextRun.Some? && e != d ==> d.nextRun.value <= now < e.nextRun.value)
      && (e.enabled != d.enabled <==> d.kind == OneTime && Due(d, now))
      && (e.nextRun.None? && d.nextRun.Some? ==> !e.enabled)
      && e == d.(enabled := e.enabled, nextRun := e.nextRun)
  {
  }

  /** A second pass at the same time changes nothing; a definition is still due after a pass if and only if it was due,
      and is neither one-time nor has a cron expression. */
  lemma SecondPassIsIdle(cal: Calendar, d: Definition, now: Time)
    requires cal.Lawful()
    ensures var e := Advanced(cal, d, now);
      Advanced(cal, e, now) == e && (Due(e, now) <==> Due(d, now) && d.kind != OneTime && d.cron.None?)
  {
  }

  /** Passes at the given times, one after the other. */
  function Passes(cal: Calendar, d: Definition, times: seq<Time>): Definition
    decreases |times|
  {
    if times == [] then d else Advanced(cal, Passes(cal, d, times[..|times| - 1]), times[|times| - 1])
  }

  /** A definition as it stands after some passes: the run time only moves forward, and a definition that has lost it is
      off. */
  predicate Moved(d: Definition, e: Definition) {
    && e == d.(enabled := e.enabled, nextRun := e.nextRun)
    && (e.enabled ==> d.enabled)
    && (d.nextRun.Some? ==>
          if e.nextRun.None? then !e.enabled else d.nextRun.value < e.nextRun.value || e == d)
  }

  lemma {:induction false} PassesMoveForward(cal: Calendar, d: Definition, times: seq<Time>)
    requires cal.Lawful()
    ensures Moved(d, Passes(cal, d, times))
    ensures var e := Passes(cal, d, times);
      times != [] && e.enabled && e.cron.Some? ==> e.nextRun.Some? && e.nextRun.value > times[|times| - 1]
    decreases |times|
  {
    if times != [] {
      PassesMoveForward(cal, d, times[..|times| - 1]);
      PassMovesForward(cal, Passes(cal, d, times[..|times| - 1]), times[|times| - 1]);
    }
  }

  /** Whatever run time a cron definition has been given, it is its first occurrence after some pass, and no later pass
      came up to it: no pass skips an occurrence that is still to come. */
  lemma {:induction false} NoneSkipped(cal: Calendar, d: Definition, times: seq<Time>)
    requires cal.Lawful() && d.cron.Some?
    ensures var e := Passes(cal, d, times);
      e.enabled && e != d ==>
        exists k | 0 <= k < |times| :: NextAfter(cal, e, times[k]) && forall l | k < l < |times| :: times[l] < e.nextRun.value
    decreases |times|
  {
    var e := Passes(cal, d, times);
    if times != [] && e.enabled && e != d {
      var n := |times| - 1;
      var before := Passes(cal, d, times[..n]);
      PassesMoveForward(cal, d, times[..n]);
      PassMovesForward(cal, before, times[n]);
      if e == before {
        NoneSkipped(cal, d, times[..n]);
        var k :| 0 <= k < n && NextAfter(cal, e, times[..n][k]) && forall l | k < l < n :: times[..n][l] < e.nextRun.value;
        assert times[..n][k] == times[k];
        forall l | k < l < |times| ensures times[l] < e.nextRun.value {
          if l < n { assert times[..n][l] == times[l]; }
        }
      } else {
        assert NextAfter(cal, e, times[n]);
      }
    }
  }

  lemma {:induction false} PassesLeaveAlone(cal: Calendar, d: Definition, times: seq<Time>)
    requires d.kind != OneTime && d.cron.None?
    ensures Passes(cal, d, times) == d
    decreases |times|
  {
    if times != [] { PassesLeaveAlone(cal, d, times[..|times| - 1]); }
  }

  /** However many passes there have been, a definition is due again right after the last one if and only if it was due
      to begin with, and is neither one-time nor has a cron expression: such a one stays due for ever. */
  lemma DueForEverIff(cal: Calendar, d: Definition, times: seq<Time>, last: Time)
    requires cal.Lawful()
    ensures Due(Passes(cal, d, times + [last]), last) <==> Due(d, last) && d.kind != OneTime && d.cron.None?
  {
    assert (times + [last])[..|times|] == times;
    PassesMoveForward(cal, d, times);
    SecondPassIsIdle(cal, Passes(cal, d, times), last);
    if d.kind != OneTime && d.cron.None? { PassesLeaveAlone(cal, d, times); }
  }

  /** The keys of the due occurrences among the definitions `ids`. */
  ghost function KeysOf(defs: map<string, Definition>, ids: set<string>, cal: Calendar, now: Time): set<string> {
    set id | id in ids && id in defs && Due(defs[id], now) :: cal.Key(id, defs[id].nextRun.value)
  }

  lemma KeysOfOneMore(had: set<string>, defs: map<string, Definition>, ids: set<string>, id: string, cal: Calendar, now: Time)
    requires id in defs
    ensures had + KeysOf(defs, ids + {id}, cal, now) ==
            had + KeysOf(defs, ids, cal, now) + (if Due(defs[id], now) then {cal.Key(id, defs[id].nextRun.value)} else {})
  {
  }

  /** The rows `ids` have been through the pass, the others not yet. */
  ghost predicate Passed(was: map<string, Definition>, defs: map<string, Definition>, ids: set<string>, cal: Calendar, now: Time) {
    && defs.Keys == was.Keys
    && forall id | id in defs :: defs[id] == if id in ids then Advanced(cal, was[id], now) else was[id]
  }

  lemma PassedOneMore(was: map<string, Definition>, defs: map<string, Definition>, ids: set<string>, id: string,
                      cal: Calendar, now: Time)
    requires Passed(was, defs, ids, cal, now) && id in was && id !in ids
    ensures Passed(was, defs[id := Advanced(cal, was[id], now)], ids + {id}, cal, now) && defs[id] == was[id]
  {
  }

  lemma OneLess(was: map<string, Definition>, rows: map<string, Definition>, id: string)
    requires Snapshot(was, rows) && id in rows
    ensures Snapshot(was, rows - {id}) && (rows - {id}).Keys < rows.Keys
    ensures was.Keys - (rows - {id}).Keys == (was.Keys - rows.Keys) + {id}
  {
    assert (rows - {id}).Keys == rows.Keys - {id};
  }

  ghost predicate Snapshot(was: map<string, Definition>, rows: map<string, Definition>) {
    forall id | id in rows :: id in was && rows[id] == was[id] && rows[id].enabled
  }

  class ScheduleDb {
    var defs: map<string, Definition>
    var keys: set<string> // idempotency keys in the jobs table

    constructor (defs: map<string, Definition>, keys: set<string>)
      ensures this.defs == defs && this.keys == keys
    {
      this.defs, this.keys := defs, keys;
    }

    /** `enqueueJob` with a key: nothing happens when the key is taken. */
    method Enqueue(key: string) returns (enqueued: bool)
      modifies `keys
      ensures enqueued <==> key !in old(keys)
      ensures keys == old(keys) + {key}
    {
      enqueued := key !in keys;
      if enqueued { keys := keys + {key}; }
    }

    /** The pass with `rows` still to come. */
    ghost predicate InPass(was: map<string, Definition>, had: set<string>, rows: map<string, Definition>, fired: nat,
                           cal: Calendar, now: Time)
      reads this
    {
      && Snapshot(was, rows)
      && Passed(was, defs, was.Keys - rows.Keys, cal, now)
      && keys == had + KeysOf(was, was.Keys - rows.Keys, cal, now)
      && fired == |keys| - |had|
    }

    method Begin(ghost was: map<string, Definition>, ghost had: set<string>, ghost cal: Calendar, ghost now: Time)
      returns (rows: map<string, Definition>)
      requires was == defs && had == keys
      ensures InPass(was, had, rows, 0, cal, now)
    {
      rows := map id | id in defs && defs[id].enabled :: defs[id];
      ghost var handled := was.Keys - rows.Keys;
      assert forall id | id in handled :: id in was && !was[id].enabled;
      assert KeysOf(was, handled, cal, now) == {};
    }

    method Turn(ghost was: map<string, Definition>, ghost had: set<string>, rows: map<string, Definition>, fired: nat,
                cal: Calendar, now: Time) returns (rest: map<string, Definition>, count: nat)
      requires InPass(was, had, rows, fired, cal, now) && rows != map[]
      modifies this
      ensures InPass(was, had, rest, count, cal, now) && rest.Keys < rows.Keys
    {
      ghost var handled := was.Keys - rows.Keys;
      var id :| id in rows;
      KeysOfOneMore(had, was, handled, id, cal, now);
      PassedOneMore(was, defs, handled, id, cal, now);
      var hit := Evaluate(id, rows[id], cal, now);
      count := if hit then fired + 1 else fired;
      rest := rows - {id};
      OneLess(was, rows, id);
    }

    /** One pass with nobody else at work: every row advances, exactly the due occurrences have a job afterwards
        besides those that had one before, and the count is the number of new jobs. */
    method EvaluateSchedules(cal: Calendar, now: Time) returns (fired: nat)
      modifies this
      ensures Passed(old(defs), defs, defs.Keys, cal, now)
      ensures keys == old(keys) + KeysOf(old(defs), old(defs).Keys, cal, now)
      ensures fired == |keys| - |old(keys)|
      ensures cal.Lawful() ==> forall id | id in defs && Due(old(defs)[id], now) && old(defs)[id].kind != OneTime && defs[id].cron.Some? ::
                NextAfter(cal, defs[id], now)
    {
      ghost var was, had := defs, keys;
      var rows := Begin(was, had, cal, now);
      fired := 0;
      while rows != map[]
        invariant InPass(was, had, rows, fired, cal, now)
        decreases rows.Keys
      {
        rows, fired := Turn(was, had, rows, fired, cal, now);
      }
      assert was.Keys - rows.Keys == was.Keys;
      if cal.Lawful() {
        forall id | id in defs ensures defs[id] == Advanced(cal, was[id], now) {
          PassMovesForward(cal, was[id], now);
        }
        forall id | id in defs && Due(was[id], now) && was[id].kind != OneTime && defs[id].cron.Some? ensures NextAfter(cal, defs[id], now) {
          PassMovesForward(cal, was[id], now);
        }
      }
    }

    /** One turn of the loop. */
    method Evaluate(id: string, def: Definition, cal: Calendar, now: Time) returns (fired: bool)
      requires id in defs && defs[id] == def && def.enabled
      modifies this
      ensures defs == old(defs)[id := Advanced(cal, def, now)]
      ensures keys == old(keys) + (if Due(def, now) then {cal.Key(id, def.nextRun.value)} else {})
      ensures |keys| == |old(keys)| + (if fired then 1 else 0)
    {
      fired := false;
      match def.nextRun {
        case None =>
          if def.cron.Some? { defs := defs[id := def.(nextRun := Some(cal.After(def, now)))]; }
        case Some(at) =>
          if at > now { return; }
          fired := Enqueue(cal.Key(id, at));
          if def.kind == OneTime {
            defs := defs[id := def.(enabled := false, nextRun := None)];
          } else if def.cron.Some? {
            defs := defs[id := def.(nextRun := Some(cal.After(def, now)))];
          }
      }
      assert defs[id] == Advanced(cal, def, now);
    }
  }
}
