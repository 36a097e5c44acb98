/** `chunks[cursor++]!` can be undefined: between the loop guard and the increment the worker awaits
    `isCancelled`, and meanwhile the others may take the remaining chunks
    (services/worker-core/src/handlers/bulkImport.ts:64-69). The import then fails although nothing is
    wrong with it. This can happen exactly when two or more chunk workers run. */
module ImportOverrun {
  import opened Staging
  import opened ImportPlan
  import opened ImportRun
  import opened ImportHandout

  // ---------------------------------------------------------------------------------------------
  // A chunk that is left alone finishes

  lemma {:induction false} RunAppend(cfg: Config, a: State, x: seq<Step>, b: State, y: seq<Step>, c: State)
    requires cfg.WellFormed() && Run(cfg, a, x, b) && Run(cfg, b, y, c)
    ensures Run(cfg, a, x + y, c)
    decreases |x|
  {
    if x == [] {
      assert x + y == y;
    } else {
      assert (x + y)[1..] == x[1..] + y;
      RunAppend(cfg, Apply(cfg, a, x[0]), x[1..], b, y, c);
    }
  }

  lemma RunOne(cfg: Config, a: State, step: Step)
    requires cfg.WellFormed() && Shaped(cfg, a) && Enabled(a, step)
    ensures Run(cfg, a, [step], Apply(cfg, a, step))
  {
    assert [step][1..] == [];
  }

  /** Only worker `w` moved, and no chunk was handed out. */
  predicate Alike(s: State, t: State, w: nat) {
    && w < |s.workers| && |t.workers| == |s.workers| && |t.chunks| == |s.chunks| && |t.late| == |s.late|
    && t.cursor == s.cursor && t.flag == s.flag && t.cancelled == s.cancelled
    && forall v | 0 <= v < |s.workers| && v != w :: t.workers[v] == s.workers[v]
  }

  lemma {:induction false} ChunkFinishes(cfg: Config, s: State, w: nat) returns (steps: seq<Step>, t: State)
    requires cfg.WellFormed() && Shaped(cfg, s) && Acts(s, w) && EndsInFinish(s.chunks[s.workers[w].chunk].todo)
    ensures Run(cfg, s, steps, t) && Alike(s, t, w) && t.workers[w] == Guard
    decreases TotalCost(s.chunks[s.workers[w].chunk].todo)
  {
    var todo, u := s.chunks[s.workers[w].chunk].todo, Apply(cfg, s, Act(w));
    RunOne(cfg, s, Act(w));
    if todo[0].Finish? {
      steps, t := [Act(w)], u;
    } else {
      PerformCheaper(cfg.schema, s.table, todo);
      var more;
      more, t := ChunkFinishes(cfg, u, w);
      steps := [Act(w)] + more;
      RunAppend(cfg, s, [Act(w)], u, more, t);
    }
  }

  // ---------------------------------------------------------------------------------------------
  // The overrun

  /** Worker 0, alone at work, processes one chunk and is back at the guard. */
  lemma OneChunk(cfg: Config, s: State) returns (steps: seq<Step>, t: State)
    requires cfg.WellFormed() && Shaped(cfg, s) && s.workers[0] == Asking && !s.flag && s.cursor < cfg.ChunkCount()
    ensures Run(cfg, s, steps, t) && Alike(s.(cursor := s.cursor + 1), t, 0) && t.workers[0] == Guard
  {
    var a := Apply(cfg, s, Reply(0));
    RunOne(cfg, s, Reply(0));
    var b := Apply(cfg, a, Resume(0));
    RunOne(cfg, a, Resume(0));
    ProgramEnds(cfg, s.cursor);
    steps, t := ChunkFinishes(cfg, b, 0);
    RunAppend(cfg, s, [Reply(0)], a, [Resume(0)], b);
    RunAppend(cfg, s, [Reply(0)] + [Resume(0)], b, steps, t);
    steps := [Reply(0)] + [Resume(0)] + steps;
  }

  /** Worker 0 takes every remaining chunk. */
  lemma {:induction false} AllChunks(cfg: Config, s: State) returns (steps: seq<Step>, t: State)
    requires cfg.WellFormed() && Shaped(cfg, s) && s.workers[0] == Asking && !s.flag && !s.cancelled
    requires s.cursor < cfg.ChunkCount()
    ensures Run(cfg, s, steps, t) && Alike(s.(cursor := cfg.ChunkCount()), t, 0)
    decreases cfg.ChunkCount() - s.cursor
  {
    steps, t := OneChunk(cfg, s);
    if t.cursor < cfg.ChunkCount() {
      var u := Apply(cfg, t, Loop(0));
      RunOne(cfg, t, Loop(0));
      RunAppend(cfg, s, steps, t, [Loop(0)], u);
      var more, end := AllChunks(cfg, u);
      RunAppend(cfg, s, steps + [Loop(0)], u, more, end);
      steps, t := steps + [Loop(0)] + more, end;
    }
  }

  ghost predicate SomeOverrun(s: State) {
    exists w | 0 <= w < |s.workers| :: s.workers[w] == Overrun
  }

  /** Worker 1 is cleared to take a chunk; before it resumes, worker 0 takes them all. */
  lemma OverrunHappens(cfg: Config) returns (s: State)
    requires cfg.WellFormed() && cfg.Workers() >= 2
    ensures Reachable(cfg, s) && SomeOverrun(s) && !s.flag
  {
    var init := State(0, false, seq(cfg.Workers(), _ => Asking), false, [], [], cfg.ChunkCount(), 0,
                      seq(cfg.ChunkCount(), _ => Untaken), [], seq(cfg.Workers(), _ => 0));
    var a := Apply(cfg, init, Reply(1));
    RunOne(cfg, init, Reply(1));
    var steps, b := AllChunks(cfg, a);
    RunAppend(cfg, init, [Reply(1)], a, steps, b);
    s := Apply(cfg, b, Resume(1));
    RunOne(cfg, b, Resume(1));
    RunAppend(cfg, init, [Reply(1)] + steps, b, [Resume(1)], s);
    assert Init(cfg, init) && s.workers[1] == Overrun;
  }

  lemma {:induction false} OverrunCounted(workers: seq<Pc>, w: nat)
    requires w < |workers| && workers[w] == Overrun
    ensures Overruns(workers) > 0
  {
    if w > 0 { OverrunCounted(workers[1..], w - 1); }
  }

  /** An uncancelled import can die of the cursor race iff it runs at least two chunk workers, that is,
      iff both the configured concurrency and the number of chunks exceed one. */
  lemma OverrunIff(cfg: Config)
    requires cfg.WellFormed()
    ensures (exists s :: Reachable(cfg, s) && SomeOverrun(s)) <==> cfg.concurrency >= 2 && cfg.ChunkCount() >= 2
  {
    if cfg.Workers() >= 2 {
      var s := OverrunHappens(cfg);
    }
    forall s | Reachable(cfg, s) && SomeOverrun(s) ensures cfg.Workers() >= 2 {
      var w :| 0 <= w < |s.workers| && s.workers[w] == Overrun;
      ReachableInv(cfg, s);
      OverrunCounted(s.workers, w);
      OverrunsBelow(s.workers, s.starts[cfg.ChunkCount() - 1].worker);
    }
  }
}
