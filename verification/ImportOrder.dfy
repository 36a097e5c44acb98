/** When the schedule decides what is staged: the number of staged rows is the same in every run of every import if
    and only if there is at most one unique column (services/worker-core/src/handlers/bulkImport.ts:61-73,
    packages/targetdb/src/postgres.ts:104-111). */
module ImportOrder {
  import opened Staging
  import opened ImportPlan
  import opened ImportRun
  import opened ImportHandout
  import opened ImportOverrun
  import opened ImportChunk
  import opened ImportKeys

  // ---------------------------------------------------------------------------------------------
  // A chunk run without interference

  lemma {:induction false} ChunkRuns(cfg: Config, s: State, w: nat) returns (steps: seq<Step>, t: State)
    requires cfg.WellFormed() && Shaped(cfg, s) && Acts(s, w) && EndsInFinish(s.chunks[s.workers[w].chunk].todo)
    ensures Run(cfg, s, steps, t) && Alike(s, t, w) && t.workers[w] == Guard
    ensures t.table == Execute(cfg.schema, s.table, s.chunks[s.workers[w].chunk].todo).table
    ensures forall d | 0 <= d < |s.chunks| && d != s.workers[w].chunk :: t.chunks[d] == s.chunks[d]
    decreases TotalCost(s.chunks[s.workers[w].chunk].todo)
  {
    var todo, u := s.chunks[s.workers[w].chunk].todo, Apply(cfg, s, Act(w));
    RunOne(cfg, s, Act(w));
    if todo[0].Finish? {
      steps, t := [Act(w)], u;
    } else {
      PerformCheaper(cfg.schema, s.table, todo);
      ExecuteStep(cfg.schema, s.table, todo);
      var more: seq<Step>;
      more, t := ChunkRuns(cfg, u, w);
      steps := [Act(w)] + more;
      RunAppend(cfg, s, [Act(w)], u, more, t);
    }
  }

  /** Worker `w` holds chunk `c` with its whole program still to do. */
  predicate Holds(cfg: Config, s: State, w: nat, c: nat)
    requires cfg.WellFormed() && c < cfg.ChunkCount()
  {
    && Shaped(cfg, s) && w < |s.workers| && s.workers[w] == Working(c)
    && s.chunks[c] == Active(Program(cfg, c), 0, 0)
  }

  /** The chunk is inserted, row by row in effect, into the table as it stands. */
  lemma HeldChunkRuns(cfg: Config, s: State, w: nat, c: nat) returns (steps: seq<Step>, t: State)
    requires cfg.WellFormed() && c < cfg.ChunkCount() && Holds(cfg, s, w, c)
    ensures Run(cfg, s, steps, t) && Alike(s, t, w) && t.workers[w] == Guard
    ensures cfg.Start(c) <= cfg.End(c) <= cfg.Total()
    ensures t.table == InsertEach(s.table, ValidRows(cfg, cfg.Start(c), cfg.End(c)), cfg.schema).table
    ensures forall d | 0 <= d < |s.chunks| && d != c :: t.chunks[d] == s.chunks[d]
  {
    FallbackIsRowByRow(cfg, c, s.table);
    ProgramEnds(cfg, c);
    steps, t := ChunkRuns(cfg, s, w);
  }

  // ---------------------------------------------------------------------------------------------
  // The import that shows it: two chunks, two workers

  /** A row clashing with neither, then the other; and in the second chunk the row that clashes with both. */
  function Witness(unique: set<nat>, a: nat, b: nat): Config {
    Config([Valid(Left(1, a, b).cells), Valid(Right(2, a, b).cells), Valid(Both(3, a, b).cells)],
           2, 2, 100, 1, Schema(unique, (row: Row) => false))
  }

  lemma WitnessShape(unique: set<nat>, a: nat, b: nat)
    ensures var cfg := Witness(unique, a, b);
      && cfg.WellFormed() && cfg.ChunkCount() == 2 && cfg.Workers() == 2 && cfg.Total() == 3
      && cfg.Start(0) == 0 && cfg.End(0) == 2 && cfg.Start(1) == 2 && cfg.End(1) == 3
      && ValidRows(cfg, 0, 2) == [Left(1, a, b), Right(2, a, b)] && ValidRows(cfg, 2, 3) == [Both(3, a, b)]
  {
    var cfg := Witness(unique, a, b);
    assert CeilDiv(3, 2) == 2;
    assert ValidRows(cfg, 2, 2) == [] && ValidRows(cfg, 3, 3) == [];
    assert ValidRows(cfg, 1, 2) == [Right(2, a, b)];
  }

  function Begin(cfg: Config): State
    requires cfg.WellFormed()
  {
    State(0, false, seq(cfg.Workers(), _ => Asking), false, [], [], cfg.ChunkCount(), 0,
          seq(cfg.ChunkCount(), _ => Untaken), [], seq(cfg.Workers(), _ => 0))
  }

  /** Worker `w` is told it may go on and takes the next chunk. */
  lemma Takes(cfg: Config, s: State, w: nat) returns (steps: seq<Step>, t: State)
    requires cfg.WellFormed() && Shaped(cfg, s) && w < |s.workers| && s.workers[w] == Asking && !s.flag
    requires s.cursor < cfg.ChunkCount()
    ensures Run(cfg, s, steps, t) && Alike(s.(cursor := s.cursor + 1), t, w) && Holds(cfg, t, w, s.cursor)
    ensures t.table == s.table && forall d | 0 <= d < |s.chunks| && d != s.cursor :: t.chunks[d] == s.chunks[d]
  {
    var a := Apply(cfg, s, Reply(w));
    RunOne(cfg, s, Reply(w));
    t := Apply(cfg, a, Resume(w));
    RunOne(cfg, a, Resume(w));
    steps := [Reply(w)] + [Resume(w)];
    RunAppend(cfg, s, [Reply(w)], a, [Resume(w)], t);
  }

  /** Both workers have taken a chunk each. */
  lemma BothTake(cfg: Config) returns (steps: seq<Step>, t: State)
    requires cfg.WellFormed() && cfg.ChunkCount() == 2 && cfg.Workers() == 2
    ensures Init(cfg, Begin(cfg)) && Run(cfg, Begin(cfg), steps, t) && t.cursor == 2 && !t.cancelled && t.table == []
    ensures Holds(cfg, t, 0, 0) && Holds(cfg, t, 1, 1)
  {
    var a: State;
    steps, a := Takes(cfg, Begin(cfg), 0);
    var more: seq<Step>;
    more, t := Takes(cfg, a, 1);
    RunAppend(cfg, Begin(cfg), steps, a, more, t);
    steps := steps + more;
  }

  /** Both workers find no chunk left, and the import goes on. */
  lemma BothReturn(cfg: Config, s: State) returns (steps: seq<Step>, t: State)
    requires cfg.WellFormed() && Shaped(cfg, s) && cfg.ChunkCount() == 2 && |s.workers| == 2
    requires s.cursor == 2 && !s.cancelled && s.workers[0] == Guard && s.workers[1] == Guard
    ensures Run(cfg, s, steps, t) && Proceeds(t) && t.table == s.table
  {
    var a := Apply(cfg, s, Loop(0));
    RunOne(cfg, s, Loop(0));
    t := Apply(cfg, a, Loop(1));
    RunOne(cfg, a, Loop(1));
    steps := [Loop(0)] + [Loop(1)];
    RunAppend(cfg, s, [Loop(0)], a, [Loop(1)], t);
  }

  /** Worker `v` finishes its chunk `d` first, then worker `w` its chunk `c`. */
  lemma Finishes(cfg: Config, v: nat, w: nat) returns (s: State)
    requires cfg.WellFormed() && cfg.ChunkCount() == 2 && cfg.Workers() == 2 && v < 2 && w == 1 - v
    ensures Reachable(cfg, s) && Proceeds(s)
    ensures cfg.Start(0) <= cfg.End(0) <= cfg.Total() && cfg.Start(1) <= cfg.End(1) <= cfg.Total()
    ensures var first := InsertEach([], ValidRows(cfg, cfg.Start(v), cfg.End(v)), cfg.schema).table;
            s.table == InsertEach(first, ValidRows(cfg, cfg.Start(w), cfg.End(w)), cfg.schema).table
  {
    var init := Begin(cfg);
    var steps, a := BothTake(cfg);
    var more, b := HeldChunkRuns(cfg, a, v, v);
    RunAppend(cfg, init, steps, a, more, b);
    steps := steps + more;
    var c: State;
    more, c := HeldChunkRuns(cfg, b, w, w);
    RunAppend(cfg, init, steps, b, more, c);
    steps := steps + more;
    more, s := BothReturn(cfg, c);
    RunAppend(cfg, init, steps, c, more, s);
  }

  /** Two finished runs of the same import that stage two rows and one. */
  lemma ScheduleDecides(unique: set<nat>, a: nat, b: nat) returns (s: State, t: State)
    requires a in unique && b in unique && a != b
    ensures var cfg := Witness(unique, a, b);
      && cfg.WellFormed() && Reachable(cfg, s) && Proceeds(s) && Reachable(cfg, t) && Proceeds(t)
      && |s.table| == 2 && |t.table| == 1
  {
    var cfg := Witness(unique, a, b);
    WitnessShape(unique, a, b);
    TwoKeysDependOnOrder(cfg.schema, a, b, 1, 2, 3);
    s := Finishes(cfg, 0, 1);
    t := Finishes(cfg, 1, 0);
  }

  // ---------------------------------------------------------------------------------------------

  ghost predicate SameStaged(cfg: Config, s: State, t: State) {
    && cfg.WellFormed()
    && (Reachable(cfg, s) && Proceeds(s) && Reachable(cfg, t) && Proceeds(t) ==> |s.table| == |t.table|)
  }

  /** Whatever the import and its schedules, as many rows are staged, if and only if at most one column is unique. */
  lemma StagedCountIffOneKey(unique: set<nat>)
    ensures (forall cfg: Config, s, t | cfg.WellFormed() && cfg.schema.unique == unique :: SameStaged(cfg, s, t)) <==> |unique| <= 1
  {
    if |unique| <= 1 {
      forall cfg: Config, s, t | cfg.WellFormed() && cfg.schema.unique == unique ensures SameStaged(cfg, s, t) {
        if Reachable(cfg, s) && Proceeds(s) && Reachable(cfg, t) && Proceeds(t) { ScheduleIndependent(cfg, s, t); }
      }
    } else {
      var a :| a in unique;
      assert |unique - {a}| >= 1;
      var b :| b in unique - {a};
      var s, t := ScheduleDecides(unique, a, b);
      assert !SameStaged(Witness(unique, a, b), s, t);
    }
  }
}
