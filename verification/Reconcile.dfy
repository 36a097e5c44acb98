/** What one reconcile tick does to one project, under failures of any call: the specification of the loops in
    ReconcileLoop (services/provisioner/src/reconcile.ts:31-80, services/provisioner/src/docker.ts). */
module Reconcile {
  import opened Basics

  type ProjectId = string
  type ContainerId = nat

  datatype Health = Running | Created | Exited

  /** `container_state` in the control database. */
  datatype Recorded = Provisioning | Up | Stopping | Stopped | Failed

  /** Docker creates and then starts; it stops and then removes. */
  datatype CreateLuck = Started | NotStarted | NotCreated
  datatype RemoveLuck = Removed | OnlyStopped | Untouched

  /** How the calls made for one project go. `first` is the write before the work, `last` the one after it,
      `error` the one in the catch block. */
  datatype Luck = Luck(remove: RemoveLuck, first: bool, ready: bool, create: CreateLuck, last: bool, error: bool)

  const GOOD := Luck(Removed, true, true, Started, true, true)

  /** A project as the provisioner can see it. */
  datatype View = View(container: Option<Health>, recorded: Option<Recorded>)

  datatype Verdict = Nothing | Provisioned | TornDown | Errored

  /** The calls a tick makes for a project, those that fail included. */
  datatype Call = Remove | Record(state: Recorded) | MakeReady | Create

  datatype Outcome = Outcome(view: View, verdict: Verdict, calls: seq<Call>)

  function Caught(v: View, luck: Luck, calls: seq<Call>): Outcome {
    Outcome(Write(v, luck.error, Failed), Errored, calls + [Record(Failed)])
  }

  /** `orchestrator.remove`. */
  function AfterRemove(v: View, luck: RemoveLuck): View {
    match luck
    case Removed => v.(container := None)
    case OnlyStopped => if v.container.Some? then v.(container := Some(Exited)) else v
    case Untouched => v
  }

  function AfterCreate(v: View, luck: CreateLuck): View {
    match luck
    case Started => v.(container := Some(Running))
    case NotStarted => v.(container := Some(Created))
    case NotCreated => v
  }

  function Write(v: View, ok: bool, state: Recorded): View {
    if ok then v.(recorded := Some(state)) else v
  }

  /** A project that should have a worker. */
  function Ensure(v: View, luck: Luck): Outcome {
    if v.container == Some(Running) then Outcome(v, Nothing, [])
    else if v.container.Some? && luck.remove != Removed then Caught(AfterRemove(v, luck.remove), luck, [Remove])
    else Provision(v.(container := None), luck, if v.container.Some? then [Remove] else [])
  }

  /** From the `provisioning` write on, after the calls `done`. */
  function Provision(v: View, luck: Luck, done: seq<Call>): Outcome {
    var bare := Write(v, luck.first, Provisioning);
    if !luck.first then Caught(bare, luck, done + [Record(Provisioning)])
    else if !luck.ready then Caught(bare, luck, done + [Record(Provisioning), MakeReady])
    else
      var made := AfterCreate(bare, luck.create);
      if luck.create != Started then Caught(made, luck, done + [Record(Provisioning), MakeReady, Create])
      else if !luck.last then Caught(made, luck, done + [Record(Provisioning), MakeReady, Create, Record(Up)])
      else Outcome(made.(recorded := Some(Up)), Provisioned, done + [Record(Provisioning), MakeReady, Create, Record(Up)])
  }

  /** A project that should have none. */
  function TearDown(v: View, luck: Luck): Outcome {
    if v.container.None? then Outcome(v, Nothing, [])
    else if !luck.first then Caught(v, luck, [Record(Stopping)])
    else
      var gone := AfterRemove(v.(recorded := Some(Stopping)), luck.remove);
      if luck.remove != Removed then Caught(gone, luck, [Record(Stopping), Remove])
      else if !luck.last then Caught(gone, luck, [Record(Stopping), Remove, Record(Stopped)])
      else Outcome(gone.(recorded := Some(Stopped)), TornDown, [Record(Stopping), Remove, Record(Stopped)])
  }

  function Tick(desired: bool, v: View, luck: Luck): Outcome {
    if desired then Ensure(v, luck) else TearDown(v, luck)
  }

  predicate Converged(desired: bool, v: View) {
    v.container == if desired then Some(Running) else None
  }

  /** Calls are made exactly for a project that is not as it should be; a good tick makes it so. */
  lemma GoodTickConverges(desired: bool, v: View, luck: Luck)
    ensures Converged(desired, Tick(desired, v, GOOD).view)
    ensures Converged(desired, v) <==> Tick(desired, v, luck).calls == []
    ensures Converged(desired, v) ==> Tick(desired, v, luck) == Outcome(v, Nothing, [])
  {
  }

  /** A tick reports success exactly when it changed the project to what it should be; and it never undoes that. */
  lemma VerdictIsTruthful(desired: bool, v: View, luck: Luck)
    ensures var o := Tick(desired, v, luck);
      && (o.verdict == Provisioned || o.verdict == TornDown ==> Converged(desired, o.view) && !Converged(desired, v))
      && (o.verdict == Provisioned ==> desired && o.view.recorded == Some(Up))
      && (o.verdict == TornDown ==> !desired && o.view.recorded == Some(Stopped))
      && (Converged(desired, v) ==> Converged(desired, o.view))
      && (o.verdict == Errored <==>
          (!Converged(desired, v) && ((v.container.Some? && luck.remove != Removed) || !luck.first || !luck.last
                                      || (desired && (!luck.ready || luck.create != Started)))))
  {
  }

  /** A container is created only right after readiness, and only once an old one is removed. */
  predicate CreatesLast(calls: seq<Call>, desired: bool, v: View, luck: Luck) {
    && (forall i | 0 <= i < |calls| && calls[i] == Create :: i > 0 && calls[i - 1] == MakeReady && luck.ready)
    && (Create in calls ==> desired && (v.container.None? || (calls[0] == Remove && luck.remove == Removed)))
  }

  /** The calls from the `provisioning` write on, after `done`. */
  lemma ProvisionCreatesLast(v: View, luck: Luck, done: seq<Call>)
    requires Create !in done
    ensures var calls := Provision(v, luck, done).calls;
      && |done| < |calls| && calls[..|done|] == done
      && forall i | 0 <= i < |calls| && calls[i] == Create :: i > 0 && calls[i - 1] == MakeReady && luck.ready
  {
    var calls := Provision(v, luck, done).calls;
    var n := |done|;
    assert calls[n] == Record(Provisioning);
    if luck.first {
      assert calls[n + 1] == MakeReady;
    }
    assert forall i | 0 <= i < n :: calls[i] == done[i] && done[i] != Create;
  }

  lemma CreateComesLast(desired: bool, v: View, luck: Luck)
    ensures CreatesLast(Tick(desired, v, luck).calls, desired, v, luck)
  {
    if desired && !Converged(true, v) && !(v.container.Some? && luck.remove != Removed) {
      ProvisionCreatesLast(v.(container := None), luck, if v.container.Some? then [Remove] else []);
    }
  }

  /** The last state written before an error: `provisioning`, once an old container is gone, or `stopping`, before the
      removal is tried. */
  function Interim(desired: bool, v: View, luck: Luck): Option<Recorded> {
    if !luck.first || (desired && v.container.Some? && luck.remove != Removed) then v.recorded
    else Some(if desired then Provisioning else Stopping)
  }

  /** What the record says after an error: `error`, or, when that write fails too, the state before it. */
  lemma ErrorIsRecorded(desired: bool, v: View, luck: Luck)
    ensures var o := Tick(desired, v, luck);
      o.verdict == Errored ==> o.view.recorded == if luck.error then Some(Failed) else Interim(desired, v, luck)
  {
  }

  /** A worker that is not wanted any more is recorded as `stopping` before it is removed. */
  lemma StoppingComesFirst(v: View, luck: Luck)
    ensures var calls := TearDown(v, luck).calls;
      forall i | 0 <= i < |calls| && calls[i] == Remove :: i > 0 && calls[i - 1] == Record(Stopping)
  {
  }

  // ---- many ticks -----------------------------------------------------------------------------

  /** The ticks of one project: the desired state and the luck of each. */
  function Ticks(v: View, runs: seq<(bool, Luck)>): View
    decreases |runs|
  {
    if runs == [] then v else Tick(runs[|runs| - 1].0, Ticks(v, runs[..|runs| - 1]), runs[|runs| - 1].1).view
  }

  /** Ticks during which the desired state stays the same. */
  function Under(desired: bool, lucks: seq<Luck>): seq<(bool, Luck)> {
    seq(|lucks|, i requires 0 <= i < |lucks| => (desired, lucks[i]))
  }

  lemma TickMore(v: View, runs: seq<(bool, Luck)>, desired: bool, luck: Luck)
    ensures Ticks(v, runs + [(desired, luck)]) == Tick(desired, Ticks(v, runs), luck).view
  {
    assert (runs + [(desired, luck)])[..|runs|] == runs;
  }

  lemma {:induction false} TicksJoin(v: View, a: seq<(bool, Luck)>, b: seq<(bool, Luck)>)
    ensures Ticks(v, a + b) == Ticks(Ticks(v, a), b)
    decreases |b|
  {
    if b == [] {
      assert a + b == a;
    } else {
      var k := |b| - 1;
      TicksJoin(v, a, b[..k]);
      assert a + b == (a + b[..k]) + [b[k]] && b == b[..k] + [b[k]];
      TickMore(v, a + b[..k], b[k].0, b[k].1);
      TickMore(Ticks(v, a), b[..k], b[k].0, b[k].1);
    }
  }

  /** A project that is as it should be stays exactly as it is. */
  lemma {:induction false} ConvergedStays(desired: bool, v: View, lucks: seq<Luck>)
    requires Converged(desired, v)
    ensures Ticks(v, Under(desired, lucks)) == v
    decreases |lucks|
  {
    if lucks != [] {
      var k := |lucks| - 1;
      ConvergedStays(desired, v, lucks[..k]);
      assert Under(desired, lucks) == Under(desired, lucks[..k]) + [(desired, lucks[k])];
      TickMore(v, Under(desired, lucks[..k]), desired, lucks[k]);
      GoodTickConverges(desired, v, lucks[k]);
    }
  }

  /** However the earlier ticks failed, one good tick is enough, and after it nothing happens while the desired state
      stays the same. */
  lemma OneGoodTickIsEnough(v: View, earlier: seq<(bool, Luck)>, desired: bool, later: seq<Luck>, luck: Luck)
    ensures var u := Ticks(v, earlier + [(desired, GOOD)]);
      && Converged(desired, u) && Ticks(v, earlier + [(desired, GOOD)] + Under(desired, later)) == u
      && Tick(desired, u, luck).calls == []
  {
    var good := earlier + [(desired, GOOD)];
    TickMore(v, earlier, desired, GOOD);
    GoodTickConverges(desired, Ticks(v, earlier), luck);
    TicksJoin(v, good, Under(desired, later));
    ConvergedStays(desired, Ticks(v, good), later);
    GoodTickConverges(desired, Ticks(v, good), luck);
  }

  // ---- the recorded state ---------------------------------------------------------------------

  function Right(desired: bool): Recorded { if desired then Up else Stopped }

  /** The project is as it should be, and the record does not say so. */
  predicate Stale(desired: bool, v: View) {
    Converged(desired, v) && v.recorded != Some(Right(desired))
  }

  /** Even a good tick leaves the record right if and only if it did not start from a stale one. */
  lemma GoodTickRecords(desired: bool, v: View)
    ensures Tick(desired, v, GOOD).view.recorded == Some(Right(desired)) <==> !Stale(desired, v)
  {
  }

  /** A record becomes stale exactly when everything needed was done and only the write after it failed. */
  lemma StaleArises(desired: bool, v: View, luck: Luck)
    ensures Stale(desired, Tick(desired, v, luck).view) && !Stale(desired, v) <==>
            && !Converged(desired, v) && (v.container.Some? ==> luck.remove == Removed) && luck.first && !luck.last
            && (desired ==> luck.ready && luck.create == Started)
  {
  }

  /** The record is wrong after every possible continuation of the ticks so far if and only if at some point up to now
      it was stale. */
  lemma WrongForEverIff(desired: bool, v: View, lucks: seq<Luck>)
    ensures (forall later | later != [] :: Ticks(v, Under(desired, lucks + later)).recorded != Some(Right(desired))) <==>
            (exists k | 0 <= k <= |lucks| :: Stale(desired, Ticks(v, Under(desired, lucks[..k]))))
  {
    var u := Ticks(v, Under(desired, lucks));
    if k :| 0 <= k <= |lucks| && Stale(desired, Ticks(v, Under(desired, lucks[..k]))) {
      forall later | later != [] ensures Ticks(v, Under(desired, lucks + later)).recorded != Some(Right(desired)) {
        assert lucks + later == lucks[..k] + (lucks[k..] + later);
        StaysStale(desired, v, lucks[..k], lucks[k..] + later);
      }
    } else {
      assert lucks[..|lucks|] == lucks && !Stale(desired, u);
      assert Under(desired, lucks + [GOOD]) == Under(desired, lucks) + [(desired, GOOD)];
      TickMore(v, Under(desired, lucks), desired, GOOD);
      GoodTickRecords(desired, u);
    }
  }

  lemma StaysStale(desired: bool, v: View, a: seq<Luck>, b: seq<Luck>)
    requires Stale(desired, Ticks(v, Under(desired, a)))
    ensures Stale(desired, Ticks(v, Under(desired, a + b)))
  {
    assert Under(desired, a + b) == Under(desired, a) + Under(desired, b);
    TicksJoin(v, Under(desired, a), Under(desired, b));
    ConvergedStays(desired, Ticks(v, Under(desired, a)), b);
  }

  /** For instance: only the write after a successful start fails; the worker runs, and `container_state` says `error`
      from then on. */
  lemma RecordedErrorCanStick(later: seq<Luck>)
    ensures Ticks(View(None, None), Under(true, [GOOD.(last := false)] + later)) == View(Some(Running), Some(Failed))
  {
    var first := [GOOD.(last := false)];
    var u := View(Some(Running), Some(Failed));
    assert Under(true, first) == [] + [(true, first[0])];
    TickMore(View(None, None), [], true, first[0]);
    assert Under(true, first + later) == Under(true, first) + Under(true, later);
    TicksJoin(View(None, None), Under(true, first), Under(true, later));
    ConvergedStays(true, u, later);
  }
}
