/** Handing out chunks under any interleaving (services/worker-core/src/handlers/bulkImport.ts:61-78). */
module ImportHandout {
  import opened ImportPlan
  import opened ImportRun

  function Overruns(workers: seq<Pc>): nat {
    if workers == [] then 0 else (if workers[0] == Overrun then 1 else 0) + Overruns(workers[1..])
  }

  lemma {:induction false} OverrunsUpdate(workers: seq<Pc>, w: nat, pc: Pc)
    requires w < |workers|
    ensures Overruns(workers[w := pc]) ==
      Overruns(workers) - (if workers[w] == Overrun then 1 else 0) + (if pc == Overrun then 1 else 0)
  {
    if w == 0 {
      assert workers[w := pc][1..] == workers[1..];
    } else {
      assert workers[w := pc][1..] == workers[1..][w - 1 := pc];
      OverrunsUpdate(workers[1..], w - 1, pc);
    }
  }

  lemma {:induction false} OverrunsBelow(workers: seq<Pc>, w: nat)
    requires w < |workers| && workers[w] != Overrun
    ensures Overruns(workers) < |workers|
  {
    OverrunsAtMost(workers[1..]);
    if w > 0 { OverrunsBelow(workers[1..], w - 1); }
  }

  lemma {:induction false} OverrunsAtMost(workers: seq<Pc>)
    ensures Overruns(workers) <= |workers|
  {
    if workers != [] { OverrunsAtMost(workers[1..]); }
  }

  /** A worker that holds or has held a chunk and has not asked again since. */
  predicate PastAsking(pc: Pc) {
    pc.Working? || pc == Guard || pc == Returned || pc.Failed?
  }

  /** Chunks are started in order, and every take beyond the last one cost its worker its life. */
  ghost predicate CursorInv(cfg: Config, s: State)
    requires cfg.WellFormed()
  {
    var n := cfg.ChunkCount();
    && Shaped(cfg, s)
    && |s.starts| == Min(s.cursor, n)
    && (forall i | 0 <= i < |s.starts| :: s.starts[i].chunk == i && s.starts[i].worker < |s.workers|)
    && s.cursor == |s.starts| + Overruns(s.workers)
    // whoever started the last chunk finds the cursor at the end ever after
    && (|s.starts| == n ==> PastAsking(s.workers[s.starts[n - 1].worker]))
  }

  predicate Holds(pc: Pc) { pc.Working? || pc.Failed? }

  /** The chunk being worked on is active, started by this worker, and in no other worker's hands. */
  ghost predicate HolderInv(s: State) {
    && (forall w | 0 <= w < |s.workers| && Holds(s.workers[w]) :: HolderOk(s, w, s.workers[w].chunk))
    && (forall c | 0 <= c < |s.chunks| :: s.chunks[c].Untaken? <==> c >= |s.starts|)
    && (forall c | 0 <= c < |s.chunks| && s.chunks[c].Active? :: c < |s.starts| && ActiveOk(s, c, s.starts[c].worker))
  }

  ghost predicate HolderOk(s: State, w: nat, c: nat) {
    c < |s.starts| && s.starts[c].worker == w && c < |s.chunks| && s.chunks[c].Active?
  }

  ghost predicate ActiveOk(s: State, c: nat, w: nat) {
    w < |s.workers| && Holds(s.workers[w]) && s.workers[w].chunk == c
  }

  /** Once the flag is up a worker starts at most the chunk it had already been cleared for. */
  ghost predicate LateInv(s: State) {
    && |s.late| == |s.workers|
    && (forall w | 0 <= w < |s.workers| :: LateOk(s.flag, s.workers[w], s.late[w]))
  }

  predicate LateOk(flag: bool, pc: Pc, late: nat) {
    late <= 1 && (late == 1 ==> flag && pc != Answered(false))
  }

  ghost predicate Inv(cfg: Config, s: State)
    requires cfg.WellFormed()
  {
    CursorInv(cfg, s) && HolderInv(s) && LateInv(s)
  }

  lemma InitInv(cfg: Config, s: State)
    requires cfg.WellFormed() && Init(cfg, s)
    ensures Inv(cfg, s)
  {
    NoOverruns(s.workers);
  }

  lemma {:induction false} NoOverruns(workers: seq<Pc>)
    requires forall w | 0 <= w < |workers| :: workers[w] != Overrun
    ensures Overruns(workers) == 0
  {
    if workers != [] { NoOverruns(workers[1..]); }
  }

  lemma StepInv(cfg: Config, s: State, step: Step)
    requires cfg.WellFormed() && Inv(cfg, s) && Enabled(s, step)
    ensures Inv(cfg, Apply(cfg, s, step))
  {
    StepCursor(cfg, s, step);
    StepHolder(cfg, s, step);
    StepLate(cfg, s, step);
  }

  lemma StepCursor(cfg: Config, s: State, step: Step)
    requires cfg.WellFormed() && CursorInv(cfg, s) && Enabled(s, step)
    ensures CursorInv(cfg, Apply(cfg, s, step))
  {
    var t := Apply(cfg, s, step);
    match step
    case RequestCancel =>
    case Loop(w) => MoveCursor(cfg, s, t, w, t.workers[w]);
    case Reply(w) => MoveCursor(cfg, s, t, w, t.workers[w]);
    case Fail(w) => MoveCursor(cfg, s, t, w, t.workers[w]);
    case Resume(w) =>
      if s.workers[w].cancel { MoveCursor(cfg, s, t, w, Returned); } else { TakeCursor(cfg, s, w); }
    case Act(w) =>
      assert t.workers == s.workers[w := t.workers[w]];
      MoveCursor(cfg, s, t, w, t.workers[w]);
  }

  lemma MoveCursor(cfg: Config, s: State, t: State, w: nat, pc: Pc)
    requires cfg.WellFormed() && CursorInv(cfg, s)
    requires w < |s.workers| && s.workers[w] != Overrun && pc != Overrun
    requires t.workers == s.workers[w := pc] && t.cursor == s.cursor && t.starts == s.starts
    requires |t.chunks| == |s.chunks| && |t.late| == |s.late|
    requires PastAsking(s.workers[w]) ==> PastAsking(pc) || s.cursor < cfg.ChunkCount()
    ensures CursorInv(cfg, t)
  {
    OverrunsUpdate(s.workers, w, pc);
  }

  lemma TakeCursor(cfg: Config, s: State, w: nat)
    requires cfg.WellFormed() && CursorInv(cfg, s) && w < |s.workers| && s.workers[w] == Answered(false)
    ensures CursorInv(cfg, Take(cfg, s, w))
  {
    OverrunsUpdate(s.workers, w, Take(cfg, s, w).workers[w]);
  }

  lemma StepHolder(cfg: Config, s: State, step: Step)
    requires cfg.WellFormed() && CursorInv(cfg, s) && HolderInv(s) && Enabled(s, step)
    ensures HolderInv(Apply(cfg, s, step))
  {
    var t := Apply(cfg, s, step);
    match step
    case RequestCancel => MoveHolder(s, t, |s.workers|);
    case Loop(w) => MoveHolder(s, t, w);
    case Reply(w) => MoveHolder(s, t, w);
    case Fail(w) => MoveHolder(s, t, w);
    case Resume(w) =>
      if s.workers[w].cancel { MoveHolder(s, t, w); } else { TakeHolder(cfg, s, w); }
    case Act(w) =>
      if s.chunks[s.workers[w].chunk].todo[0].Finish? { FinishHolder(cfg, s, w); }
      else { PerformHolder(cfg, s, w); }
  }

  /** A move of worker `w` that neither takes nor gives up a chunk. */
  lemma MoveHolder(s: State, t: State, w: nat)
    requires HolderInv(s) && t.chunks == s.chunks && t.starts == s.starts && |t.workers| == |s.workers|
    requires forall v | 0 <= v < |s.workers| && v != w :: t.workers[v] == s.workers[v]
    requires w < |s.workers| ==>
      if Holds(s.workers[w]) then Holds(t.workers[w]) && t.workers[w].chunk == s.workers[w].chunk else !Holds(t.workers[w])
    ensures HolderInv(t)
  {
    forall v | 0 <= v < |t.workers| && Holds(t.workers[v]) ensures HolderOk(t, v, t.workers[v].chunk) {
      assert HolderOk(s, v, s.workers[v].chunk);
    }
    forall c | 0 <= c < |t.chunks| && t.chunks[c].Active? ensures c < |t.starts| && ActiveOk(t, c, t.starts[c].worker) {
      assert ActiveOk(s, c, s.starts[c].worker);
    }
  }

  lemma TakeHolder(cfg: Config, s: State, w: nat)
    requires cfg.WellFormed() && CursorInv(cfg, s) && HolderInv(s) && w < |s.workers| && s.workers[w] == Answered(false)
    ensures HolderInv(Take(cfg, s, w))
  {
    var t := Take(cfg, s, w);
    if s.cursor < cfg.ChunkCount() {
      assert |s.starts| == s.cursor;
      forall v | 0 <= v < |t.workers| && Holds(t.workers[v]) ensures HolderOk(t, v, t.workers[v].chunk) {
        if v != w { assert HolderOk(s, v, s.workers[v].chunk); }
      }
      forall c | 0 <= c < |t.chunks| && t.chunks[c].Active? ensures c < |t.starts| && ActiveOk(t, c, t.starts[c].worker) {
        if c != s.cursor { assert ActiveOk(s, c, s.starts[c].worker); }
      }
    } else {
      forall c | 0 <= c < |t.chunks| && t.chunks[c].Active? ensures c < |t.starts| && ActiveOk(t, c, t.starts[c].worker) {
        assert ActiveOk(s, c, s.starts[c].worker);
      }
    }
  }

  lemma FinishHolder(cfg: Config, s: State, w: nat)
    requires cfg.WellFormed() && CursorInv(cfg, s) && HolderInv(s) && Enabled(s, Act(w))
    requires s.chunks[s.workers[w].chunk].todo[0].Finish?
    ensures HolderInv(Apply(cfg, s, Act(w)))
  {
    var t, d := Apply(cfg, s, Act(w)), s.workers[w].chunk;
    assert HolderOk(s, w, d);
    forall v | 0 <= v < |t.workers| && Holds(t.workers[v]) ensures HolderOk(t, v, t.workers[v].chunk) {
      assert HolderOk(s, v, s.workers[v].chunk);
    }
    forall c | 0 <= c < |t.chunks| && t.chunks[c].Active? ensures c < |t.starts| && ActiveOk(t, c, t.starts[c].worker) {
      assert ActiveOk(s, c, s.starts[c].worker);
    }
  }

  lemma PerformHolder(cfg: Config, s: State, w: nat)
    requires cfg.WellFormed() && CursorInv(cfg, s) && HolderInv(s) && Enabled(s, Act(w))
    requires !s.chunks[s.workers[w].chunk].todo[0].Finish?
    ensures HolderInv(Apply(cfg, s, Act(w)))
  {
    var t := Apply(cfg, s, Act(w));
    forall v | 0 <= v < |t.workers| && Holds(t.workers[v]) ensures HolderOk(t, v, t.workers[v].chunk) {
      assert HolderOk(s, v, s.workers[v].chunk);
    }
    forall c | 0 <= c < |t.chunks| && t.chunks[c].Active? ensures c < |t.starts| && ActiveOk(t, c, t.starts[c].worker) {
      assert ActiveOk(s, c, s.starts[c].worker);
    }
  }

  lemma StepLate(cfg: Config, s: State, step: Step)
    requires cfg.WellFormed() && Shaped(cfg, s) && LateInv(s) && Enabled(s, step)
    ensures LateInv(Apply(cfg, s, step))
  {
  }

  lemma {:induction false} RunInv(cfg: Config, t: State, steps: seq<Step>, s: State)
    requires cfg.WellFormed() && Inv(cfg, t) && Run(cfg, t, steps, s)
    ensures Inv(cfg, s)
    decreases |steps|
  {
    if steps != [] {
      StepInv(cfg, t, steps[0]);
      RunInv(cfg, Apply(cfg, t, steps[0]), steps[1..], s);
    }
  }

  lemma ReachableInv(cfg: Config, s: State)
    requires cfg.WellFormed() && Reachable(cfg, s)
    ensures Inv(cfg, s)
  {
    var t, steps :| Init(cfg, t) && Run(cfg, t, steps, s);
    InitInv(cfg, t);
    RunInv(cfg, t, steps, s);
  }

  // ---------------------------------------------------------------------------------------------
  // Results

  /** No chunk is started twice, and the cursor never gets W past the last chunk. */
  lemma HandoutSafe(cfg: Config, s: State)
    requires cfg.WellFormed() && Reachable(cfg, s)
    ensures forall i, j | 0 <= i < j < |s.starts| :: s.starts[i].chunk != s.starts[j].chunk
    ensures forall i | 0 <= i < |s.starts| :: s.starts[i].chunk < cfg.ChunkCount()
    ensures s.cursor <= cfg.ChunkCount() + cfg.Workers() - 1
  {
    ReachableInv(cfg, s);
    var n := cfg.ChunkCount();
    if s.cursor > n { OverrunsBelow(s.workers, s.starts[n - 1].worker); }
  }

  /** When every worker returned and none saw the cancel flag, every chunk was started exactly once and
      is done. */
  lemma HandoutComplete(cfg: Config, s: State)
    requires cfg.WellFormed() && Reachable(cfg, s) && Proceeds(s)
    ensures |s.starts| == cfg.ChunkCount() && forall c | 0 <= c < |s.starts| :: s.starts[c].chunk == c
    ensures forall c | 0 <= c < |s.chunks| :: s.chunks[c].Done?
  {
    ReachableInv(cfg, s);
    var t, steps :| Init(cfg, t) && Run(cfg, t, steps, s);
    assert t.workers[0] == Asking;
    RunReturnedAtEnd(cfg, t, steps, s);
    forall c | 0 <= c < |s.chunks| ensures s.chunks[c].Done? {
      assert s.chunks[c].Active? ==> ActiveOk(s, c, s.starts[c].worker);
    }
  }

  /** A worker that has returned saw the end of the chunks or a cancellation. */
  ghost predicate ReturnOk(cfg: Config, s: State)
    requires cfg.WellFormed()
  {
    forall w | 0 <= w < |s.workers| && s.workers[w] == Returned :: s.cancelled || s.cursor >= cfg.ChunkCount()
  }

  lemma {:induction false} RunReturnedAtEnd(cfg: Config, t: State, steps: seq<Step>, s: State)
    requires cfg.WellFormed() && ReturnOk(cfg, t) && Run(cfg, t, steps, s)
    ensures ReturnOk(cfg, s)
    decreases |steps|
  {
    if steps != [] { RunReturnedAtEnd(cfg, Apply(cfg, t, steps[0]), steps[1..], s); }
  }

  function Sum(xs: seq<nat>): nat {
    if xs == [] then 0 else xs[0] + Sum(xs[1..])
  }

  lemma {:induction false} SumAtMost(xs: seq<nat>)
    requires forall i | 0 <= i < |xs| :: xs[i] <= 1
    ensures Sum(xs) <= |xs|
  {
    if xs != [] { SumAtMost(xs[1..]); }
  }

  /** After the cancel flag is set at most W more chunks start, one per worker. */
  lemma LateStartsBounded(cfg: Config, s: State)
    requires cfg.WellFormed() && Reachable(cfg, s)
    ensures Sum(s.late) <= cfg.Workers() && forall w | 0 <= w < |s.late| :: s.late[w] <= 1
  {
    ReachableInv(cfg, s);
    forall w | 0 <= w < |s.late| ensures s.late[w] <= 1 {
      assert LateOk(s.flag, s.workers[w], s.late[w]);
    }
    SumAtMost(s.late);
  }

  /** Some worker has seen the cancel flag. */
  ghost predicate Observed(s: State) {
    s.cancelled || exists w | 0 <= w < |s.workers| :: s.workers[w] == Answered(true)
  }

  /** Once a worker has seen the flag no continuation of the run reaches lookups and promote. */
  lemma {:induction false} ObservedNeverProceeds(cfg: Config, t: State, steps: seq<Step>, s: State)
    requires cfg.WellFormed() && Observed(t) && Run(cfg, t, steps, s)
    ensures Observed(s) && !Proceeds(s)
    decreases |steps|
  {
    if steps != [] {
      ObservedStep(cfg, t, steps[0]);
      ObservedNeverProceeds(cfg, Apply(cfg, t, steps[0]), steps[1..], s);
    }
  }

  lemma ObservedStep(cfg: Config, s: State, step: Step)
    requires cfg.WellFormed() && Shaped(cfg, s) && Observed(s) && Enabled(s, step)
    ensures Observed(Apply(cfg, s, step))
  {
    var t := Apply(cfg, s, step);
    if !s.cancelled {
      var w :| 0 <= w < |s.workers| && s.workers[w] == Answered(true);
      if step != Resume(w) { assert t.workers[w] == Answered(true); }
    }
  }
}
