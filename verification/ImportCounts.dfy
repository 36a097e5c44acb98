/** The batch row's counters under any interleaving (packages/worker-runtime/src/reporter.ts:122-157). */
module ImportCounts {
  import opened Staging
  import opened ImportPlan
  import opened ImportRun
  import opened ImportHandout

  function Open(chunks: seq<Chunk>): nat {
    if chunks == [] then 0 else (if chunks[0].Done? then 0 else 1) + Open(chunks[1..])
  }

  /** Error records written by chunks that have not yet reported them to the batch row. */
  function Unreported(chunks: seq<Chunk>): nat {
    if chunks == [] then 0 else (if chunks[0].Active? then chunks[0].errors else 0) + Unreported(chunks[1..])
  }

  /** Rows the chunks have counted as staged. */
  function StagedIn(chunks: seq<Chunk>): nat {
    if chunks == [] then 0 else StagedOf(chunks[0]) + StagedIn(chunks[1..])
  }

  function StagedOf(chunk: Chunk): nat {
    match chunk
    case Untaken => 0
    case Active(_, staged, _) => staged
    case Done(staged, _) => staged
  }

  lemma {:induction false} Update(chunks: seq<Chunk>, c: nat, x: Chunk)
    requires c < |chunks|
    ensures Open(chunks[c := x]) == Open(chunks) - (if chunks[c].Done? then 0 else 1) + (if x.Done? then 0 else 1)
    ensures Unreported(chunks[c := x]) ==
      Unreported(chunks) - (if chunks[c].Active? then chunks[c].errors else 0) + (if x.Active? then x.errors else 0)
    ensures StagedIn(chunks[c := x]) == StagedIn(chunks) - StagedOf(chunks[c]) + StagedOf(x)
  {
    if c == 0 {
      assert chunks[c := x][1..] == chunks[1..];
    } else {
      assert chunks[c := x][1..] == chunks[1..][c - 1 := x];
      Update(chunks[1..], c - 1, x);
    }
  }

  ghost predicate CountInv(cfg: Config, s: State)
    requires cfg.WellFormed()
  {
    && Shaped(cfg, s)
    && s.remaining == Open(s.chunks)
    && |s.errors| == s.errorCount + Unreported(s.chunks)
    && |s.table| == StagedIn(s.chunks)
  }

  lemma {:induction false} AllUntaken(chunks: seq<Chunk>)
    requires forall c | 0 <= c < |chunks| :: chunks[c].Untaken?
    ensures Open(chunks) == |chunks| && Unreported(chunks) == 0 && StagedIn(chunks) == 0
  {
    if chunks != [] { AllUntaken(chunks[1..]); }
  }

  lemma {:induction false} AllDone(chunks: seq<Chunk>)
    requires forall c | 0 <= c < |chunks| :: chunks[c].Done?
    ensures Open(chunks) == 0 && Unreported(chunks) == 0
  {
    if chunks != [] { AllDone(chunks[1..]); }
  }

  lemma FinishCount(cfg: Config, s: State, w: nat)
    requires cfg.WellFormed() && CountInv(cfg, s) && Enabled(s, Act(w)) && s.chunks[s.workers[w].chunk].todo[0].Finish?
    ensures CountInv(cfg, Apply(cfg, s, Act(w)))
  {
    var c := s.workers[w].chunk;
    Update(s.chunks, c, Apply(cfg, s, Act(w)).chunks[c]);
  }

  lemma PerformCount(cfg: Config, s: State, w: nat)
    requires cfg.WellFormed() && CountInv(cfg, s) && Enabled(s, Act(w)) && !s.chunks[s.workers[w].chunk].todo[0].Finish?
    ensures CountInv(cfg, Apply(cfg, s, Act(w)))
  {
    var c := s.workers[w].chunk;
    var t, e := Apply(cfg, s, Act(w)), Perform(cfg.schema, s.table, s.chunks[c].todo);
    assert |e.table| == |s.table| + e.staged;
    Update(s.chunks, c, t.chunks[c]);
  }

  lemma StepCount(cfg: Config, s: State, step: Step)
    requires cfg.WellFormed() && Inv(cfg, s) && CountInv(cfg, s) && Enabled(s, step)
    ensures CountInv(cfg, Apply(cfg, s, step))
  {
    var t := Apply(cfg, s, step);
    match step
    case Resume(w) =>
      if !s.workers[w].cancel && s.cursor < cfg.ChunkCount() { Update(s.chunks, s.cursor, t.chunks[s.cursor]); }
    case Act(w) => if s.chunks[s.workers[w].chunk].todo[0].Finish? { FinishCount(cfg, s, w); } else { PerformCount(cfg, s, w); }
    case _ =>
  }

  lemma {:induction false} RunCount(cfg: Config, t: State, steps: seq<Step>, s: State)
    requires cfg.WellFormed() && Inv(cfg, t) && CountInv(cfg, t) && Run(cfg, t, steps, s)
    ensures CountInv(cfg, s)
    decreases |steps|
  {
    if steps != [] {
      StepInv(cfg, t, steps[0]);
      StepCount(cfg, t, steps[0]);
      RunCount(cfg, Apply(cfg, t, steps[0]), steps[1..], s);
    }
  }

  lemma ReachableCount(cfg: Config, s: State)
    requires cfg.WellFormed() && Reachable(cfg, s)
    ensures CountInv(cfg, s)
  {
    var t, steps :| Init(cfg, t) && Run(cfg, t, steps, s);
    InitInv(cfg, t);
    AllUntaken(t.chunks);
    RunCount(cfg, t, steps, s);
  }

  /** When the attempt goes on to promote, the batch row has no chunks remaining and counts every error
      record the chunks wrote, and the chunks' `processed_count`s add up to the rows staged. */
  lemma BatchCounters(cfg: Config, s: State)
    requires cfg.WellFormed() && Reachable(cfg, s) && Proceeds(s)
    ensures s.remaining == 0 && s.errorCount == |s.errors| && StagedIn(s.chunks) == |s.table|
  {
    ReachableCount(cfg, s);
    HandoutComplete(cfg, s);
    AllDone(s.chunks);
  }
}
