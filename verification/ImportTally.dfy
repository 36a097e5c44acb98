/** How many error records an import writes: those of the faulty rows, one for each data error, and one for each
    acceptable row that is not staged (services/worker-core/src/handlers/bulkImport.ts:162-212). */
module ImportTally {
  import opened Staging
  import opened ImportPlan
  import opened ImportRun
  import opened ImportHandout
  import opened ImportRows

  datatype Kind = OfField | OfData | OfKey | OfLookup

  function KindOf(rule: Rule): Kind {
    match rule
    case InvalidField(_) => OfField
    case DataError => OfData
    case DuplicateKey => OfKey
    case Lookup(_) => OfLookup
  }

  function Count(errors: seq<ErrorRecord>, k: Kind): nat {
    if errors == [] then 0
    else Count(errors[..|errors| - 1], k) + (if KindOf(errors[|errors| - 1].rule) == k then 1 else 0)
  }

  lemma {:induction false} CountAppend(a: seq<ErrorRecord>, b: seq<ErrorRecord>, k: Kind)
    ensures Count(a + b, k) == Count(a, k) + Count(b, k)
    decreases |b|
  {
    if b == [] {
      assert a + b == a;
    } else {
      assert (a + b)[..|a + b| - 1] == a + b[..|b| - 1];
      CountAppend(a, b[..|b| - 1], k);
    }
  }

  lemma {:induction false} CountAll(errors: seq<ErrorRecord>)
    ensures |errors| == Count(errors, OfField) + Count(errors, OfData) + Count(errors, OfKey) + Count(errors, OfLookup)
    decreases |errors|
  {
    if errors != [] { CountAll(errors[..|errors| - 1]); }
  }

  // ---------------------------------------------------------------------------------------------
  // Records of faulty rows: what is written and what is still to be written stay the same in sum

  function Faults(rules: seq<Rule>): nat {
    if rules == [] then 0 else (if rules[0].InvalidField? then 1 else 0) + Faults(rules[1..])
  }

  function Due(todo: seq<Action>): nat {
    if todo == [] then 0 else (if todo[0].Log? then Faults(todo[0].rules) else 0) + Due(todo[1..])
  }

  lemma {:induction false} DueAppend(a: seq<Action>, b: seq<Action>)
    ensures Due(a + b) == Due(a) + Due(b)
    decreases |a|
  {
    if a == [] {
      assert a + b == b;
    } else {
      assert (a + b)[1..] == a[1..] + b;
      DueAppend(a[1..], b);
    }
  }

  lemma {:induction false} NothingDue(todo: seq<Action>)
    requires forall i | 0 <= i < |todo| :: !todo[i].Log?
    ensures Due(todo) == 0
    decreases |todo|
  {
    if todo != [] { NothingDue(todo[1..]); }
  }

  function DueOf(cfg: Config, chunk: Chunk, c: nat): nat
    requires cfg.WellFormed() && c < cfg.ChunkCount()
  {
    match chunk
    case Untaken => Due(Program(cfg, c))
    case Active(todo, _, _) => Due(todo)
    case Done(_, _) => 0
  }

  /** Over the first `n` chunks. */
  function DueIn(cfg: Config, chunks: seq<Chunk>, n: nat): nat
    requires cfg.WellFormed() && n <= |chunks| == cfg.ChunkCount()
  {
    if n == 0 then 0 else DueIn(cfg, chunks, n - 1) + DueOf(cfg, chunks[n - 1], n - 1)
  }

  lemma {:induction false} DueUpdate(cfg: Config, chunks: seq<Chunk>, c: nat, x: Chunk, n: nat)
    requires cfg.WellFormed() && n <= |chunks| == cfg.ChunkCount() && c < |chunks|
    ensures DueIn(cfg, chunks[c := x], n) ==
            DueIn(cfg, chunks, n) + (if c < n then DueOf(cfg, x, c) - DueOf(cfg, chunks[c], c) else 0)
    decreases n
  {
    if n > 0 { DueUpdate(cfg, chunks, c, x, n - 1); }
  }

  /** What the chunks' programs have to write for rows `lo + 1 .. hi`. */
  function FaultsOf(cfg: Config, lo: nat, hi: nat): nat
    requires lo <= hi <= cfg.Total()
    decreases hi - lo
  {
    if lo == hi then 0
    else FaultsOf(cfg, lo, hi - 1) + (if cfg.records[hi - 1].Faulty? then |cfg.records[hi - 1].rules| else 0)
  }

  lemma {:induction false} FaultsJoin(cfg: Config, lo: nat, mid: nat, hi: nat)
    requires lo <= mid <= hi <= cfg.Total()
    ensures FaultsOf(cfg, lo, hi) == FaultsOf(cfg, lo, mid) + FaultsOf(cfg, mid, hi)
    decreases hi - mid
  {
    if mid < hi { FaultsJoin(cfg, lo, mid, hi - 1); }
  }

  lemma {:induction false} InvalidsAreFaults(rules: seq<string>)
    ensures Faults(Invalids(rules)) == |rules|
    decreases |rules|
  {
    if rules != [] {
      assert Invalids(rules)[1..] == Invalids(rules[1..]);
      InvalidsAreFaults(rules[1..]);
    }
  }

  lemma {:induction false} LogsDue(cfg: Config, lo: nat, hi: nat)
    requires lo <= hi <= cfg.Total()
    ensures Due(FaultyLogs(cfg, lo, hi)) == FaultsOf(cfg, lo, hi)
    decreases hi - lo
  {
    if lo < hi {
      LogsDue(cfg, lo + 1, hi);
      FaultsJoin(cfg, lo, lo + 1, hi);
      assert FaultsOf(cfg, lo, lo) == 0;
      match cfg.records[lo]
      case Valid(_) =>
      case Faulty(rules) =>
        InvalidsAreFaults(rules);
        assert FaultyLogs(cfg, lo, hi)[1..] == FaultyLogs(cfg, lo + 1, hi);
    }
  }

  lemma {:induction false} SubBatchesNoLog(rows: seq<Row>, sub: nat)
    requires sub > 0
    ensures forall i | 0 <= i < |SubBatches(rows, sub)| :: SubBatches(rows, sub)[i].InsertMany?
    decreases |rows|
  {
    if |rows| > sub { SubBatchesNoLog(rows[sub..], sub); }
  }

  lemma ProgramDue(cfg: Config, c: nat)
    requires cfg.WellFormed() && c < cfg.ChunkCount()
    ensures cfg.Start(c) <= cfg.End(c) <= cfg.Total() && Due(Program(cfg, c)) == FaultsOf(cfg, cfg.Start(c), cfg.End(c))
  {
    ChunkStartWithin(cfg, c);
    var lo, hi := cfg.Start(c), cfg.End(c);
    var logs, inserts := FaultyLogs(cfg, lo, hi), SubBatches(ValidRows(cfg, lo, hi), cfg.SubBatch());
    LogsDue(cfg, lo, hi);
    SubBatchesNoLog(ValidRows(cfg, lo, hi), cfg.SubBatch());
    NothingDue(inserts);
    NothingDue([Finish]);
    DueAppend(logs, inserts);
    DueAppend(logs + inserts, [Finish]);
  }

  lemma {:induction false} UntakenDue(cfg: Config, chunks: seq<Chunk>, n: nat)
    requires cfg.WellFormed() && n <= |chunks| == cfg.ChunkCount() && forall c | 0 <= c < |chunks| :: chunks[c].Untaken?
    ensures n > 0 ==> cfg.End(n - 1) <= cfg.Total()
    ensures DueIn(cfg, chunks, n) == if n == 0 then 0 else FaultsOf(cfg, 0, cfg.End(n - 1))
    decreases n
  {
    if n > 0 {
      UntakenDue(cfg, chunks, n - 1);
      ProgramDue(cfg, n - 1);
      ChunkStartWithin(cfg, n - 1);
      if n > 1 {
        ChunkStartWithin(cfg, n - 2);
        FaultsJoin(cfg, 0, cfg.Start(n - 1), cfg.End(n - 1));
      }
    }
  }

  lemma {:induction false} DoneDue(cfg: Config, chunks: seq<Chunk>, n: nat)
    requires cfg.WellFormed() && n <= |chunks| == cfg.ChunkCount() && forall c | 0 <= c < |chunks| :: chunks[c].Done?
    ensures DueIn(cfg, chunks, n) == 0
    decreases n
  {
    if n > 0 { DoneDue(cfg, chunks, n - 1); }
  }

  // ---------------------------------------------------------------------------------------------
  // The other records: one per row

  /** No row has two records but for its faults. */
  predicate OnePerRow(errors: seq<ErrorRecord>) {
    forall i, j | 0 <= i < j < |errors| && !errors[i].rule.InvalidField? && !errors[j].rule.InvalidField? ::
      errors[i].number != errors[j].number
  }

  /** A report is of a faulty row's errors, or has a single cause. */
  predicate LogShape(a: Action) {
    a.Log? ==> (forall i | 0 <= i < |a.rules| :: a.rules[i].InvalidField?) || (|a.rules| == 1 && !a.rules[0].InvalidField?)
  }

  predicate LogShapes(todo: seq<Action>) {
    forall i | 0 <= i < |todo| :: LogShape(todo[i])
  }

  ghost predicate TallyInv(cfg: Config, s: State)
    requires cfg.WellFormed()
  {
    && Shaped(cfg, s)
    && Count(s.errors, OfField) + DueIn(cfg, s.chunks, |s.chunks|) == FaultsOf(cfg, 0, cfg.Total())
    && OnePerRow(s.errors)
    && forall c | 0 <= c < |s.chunks| && s.chunks[c].Active? :: LogShapes(s.chunks[c].todo)
  }

  lemma {:induction false} LoggedFaults(n: nat, rules: seq<Rule>)
    ensures Count(seq(|rules|, i requires 0 <= i < |rules| => ErrorRecord(n, rules[i])), OfField) == Faults(rules)
    decreases |rules|
  {
    if rules != [] {
      var log := seq(|rules|, i requires 0 <= i < |rules| => ErrorRecord(n, rules[i]));
      var tail := seq(|rules[1..]|, i requires 0 <= i < |rules[1..]| => ErrorRecord(n, rules[1..][i]));
      assert log == [log[0]] + tail;
      CountAppend([log[0]], tail, OfField);
      LoggedFaults(n, rules[1..]);
    }
  }

  lemma ReportDue(n: nat, rule: Rule, rest: seq<Action>)
    requires !rule.InvalidField?
    ensures Due([Log(n, [rule])] + rest) == Due(rest)
  {
    var one: seq<Action>, rules := [Log(n, [rule])], [rule];
    assert rules[0] == rule && rules[1..] == [];
    assert Faults(rules) == Faults([]) == 0;
    assert ([Log(n, [rule])] + rest)[0] == Log(n, rules) && (one + rest)[1..] == rest;
  }

  lemma PerformDue(schema: Schema, table: seq<Row>, todo: seq<Action>)
    requires todo != [] && !todo[0].Finish?
    ensures var e := Perform(schema, table, todo); Due(e.todo) + Count(e.log, OfField) == Due(todo)
  {
    match todo[0]
    case Log(n, rules) => LoggedFaults(n, rules);
    case InsertMany(rows) =>
      NothingDue(Singles(rows));
      DueAppend(Singles(rows), todo[1..]);
    case InsertOne(row) =>
      match Try(table, row, schema)
      case Stored =>
      case Rejected(rule) => ReportDue(row.number, rule, todo[1..]);
  }

  lemma PerformShapes(schema: Schema, table: seq<Row>, todo: seq<Action>)
    requires todo != [] && !todo[0].Finish? && LogShapes(todo)
    ensures LogShapes(Perform(schema, table, todo).todo)
  {
    PerformPutsBack(schema, table, todo);
    var back, rest := PutBack(schema, table, todo[0]), todo[1..];
    forall i | 0 <= i < |back + rest| ensures LogShape((back + rest)[i]) {
      if i >= |back| { assert (back + rest)[i] == todo[i - |back| + 1]; }
    }
  }

  lemma LogKeepsOnePerRow(errors: seq<ErrorRecord>, a: Action)
    requires a.Log? && LogShape(a) && OnePerRow(errors) && !Logged(errors, a.number)
    ensures OnePerRow(errors + seq(|a.rules|, i requires 0 <= i < |a.rules| => ErrorRecord(a.number, a.rules[i])))
  {
    var log := seq(|a.rules|, i requires 0 <= i < |a.rules| => ErrorRecord(a.number, a.rules[i]));
    var all := errors + log;
    assert |log| > 1 ==> forall k | 0 <= k < |log| :: log[k].rule.InvalidField?;
    forall i, j | 0 <= i < j < |all| && !all[i].rule.InvalidField? && !all[j].rule.InvalidField?
      ensures all[i].number != all[j].number
    {
      if i < |errors| && j < |errors| {
        assert all[i] == errors[i] && all[j] == errors[j];
      } else if i < |errors| {
        assert all[i] == errors[i] && all[j].number == a.number;
      }
    }
  }

  lemma PerformTally(cfg: Config, s: State, w: nat)
    requires cfg.WellFormed() && RowsInv(cfg, s) && TallyInv(cfg, s) && Enabled(s, Act(w))
    requires !s.chunks[s.workers[w].chunk].todo[0].Finish?
    ensures TallyInv(cfg, Apply(cfg, s, Act(w)))
  {
    var t, c := Apply(cfg, s, Act(w)), s.workers[w].chunk;
    var todo := s.chunks[c].todo;
    var e := Perform(cfg.schema, s.table, todo);
    PerformDue(cfg.schema, s.table, todo);
    PerformShapes(cfg.schema, s.table, todo);
    DueUpdate(cfg, s.chunks, c, t.chunks[c], |s.chunks|);
    CountAppend(s.errors, e.log, OfField);
    assert t.chunks == s.chunks[c := t.chunks[c]] && DueOf(cfg, t.chunks[c], c) == Due(e.todo);
    if todo[0].Log? {
      NotYetLogged(cfg, s, c);
      LogKeepsOnePerRow(s.errors, todo[0]);
    } else {
      assert s.errors + e.log == s.errors;
    }
  }

  lemma NotYetLogged(cfg: Config, s: State, c: nat)
    requires cfg.WellFormed() && RowsInv(cfg, s) && c < |s.chunks| && s.chunks[c].Active?
    requires s.chunks[c].todo != [] && s.chunks[c].todo[0].Log?
    ensures !Logged(s.errors, s.chunks[c].todo[0].number)
  {
    var todo := s.chunks[c].todo;
    var n := todo[0].number;
    assert TodoOk(cfg, s.table, c, todo) && ActionOk(cfg, s.table, c, todo[0]);
    assert n in Numbers(todo);
    ChunksPartition(cfg, n, c);
    assert RowAt(cfg, s, n);
  }

  lemma FinishTally(cfg: Config, s: State, w: nat)
    requires cfg.WellFormed() && RowsInv(cfg, s) && TallyInv(cfg, s) && Enabled(s, Act(w))
    requires s.chunks[s.workers[w].chunk].todo[0].Finish?
    ensures TallyInv(cfg, Apply(cfg, s, Act(w)))
  {
    var t, c := Apply(cfg, s, Act(w)), s.workers[w].chunk;
    var todo := s.chunks[c].todo;
    assert TodoOk(cfg, s.table, c, todo);
    assert todo[1..] == [] && Due(todo[1..]) == 0;
    assert Due(todo) == 0 && DueOf(cfg, t.chunks[c], c) == 0;
    DueUpdate(cfg, s.chunks, c, t.chunks[c], |s.chunks|);
  }

  lemma TakeTally(cfg: Config, s: State, w: nat)
    requires cfg.WellFormed() && Inv(cfg, s) && TallyInv(cfg, s) && w < |s.workers| && s.cursor < cfg.ChunkCount()
    ensures TallyInv(cfg, Take(cfg, s, w))
  {
    var c := s.cursor;
    DueUpdate(cfg, s.chunks, c, Active(Program(cfg, c), 0, 0), |s.chunks|);
    ProgramShapes(cfg, c);
  }

  lemma ProgramShapes(cfg: Config, c: nat)
    requires cfg.WellFormed() && c < cfg.ChunkCount()
    ensures LogShapes(Program(cfg, c))
  {
    ChunkStartWithin(cfg, c);
    LogsShapes(cfg, cfg.Start(c), cfg.End(c));
    SubBatchesNoLog(ValidRows(cfg, cfg.Start(c), cfg.End(c)), cfg.SubBatch());
  }

  lemma {:induction false} LogsShapes(cfg: Config, lo: nat, hi: nat)
    requires lo <= hi <= cfg.Total()
    ensures LogShapes(FaultyLogs(cfg, lo, hi))
    decreases hi - lo
  {
    if lo < hi { LogsShapes(cfg, lo + 1, hi); }
  }

  lemma StepTally(cfg: Config, s: State, step: Step)
    requires cfg.WellFormed() && Inv(cfg, s) && RowsInv(cfg, s) && TallyInv(cfg, s) && Enabled(s, step)
    ensures TallyInv(cfg, Apply(cfg, s, step))
  {
    match step
    case Resume(w) =>
      if !s.workers[w].cancel && s.cursor < cfg.ChunkCount() { TakeTally(cfg, s, w); }
    case Act(w) =>
      if s.chunks[s.workers[w].chunk].todo[0].Finish? { FinishTally(cfg, s, w); } else { PerformTally(cfg, s, w); }
    case _ =>
  }

  lemma {:induction false} RunTally(cfg: Config, t: State, steps: seq<Step>, s: State)
    requires cfg.WellFormed() && Inv(cfg, t) && RowsInv(cfg, t) && TallyInv(cfg, t) && Run(cfg, t, steps, s)
    ensures TallyInv(cfg, s)
    decreases |steps|
  {
    if steps != [] {
      StepInv(cfg, t, steps[0]);
      StepRows(cfg, t, steps[0]);
      StepTally(cfg, t, steps[0]);
      RunTally(cfg, Apply(cfg, t, steps[0]), steps[1..], s);
    }
  }

  lemma ReachableTally(cfg: Config, s: State)
    requires cfg.WellFormed() && Reachable(cfg, s)
    ensures TallyInv(cfg, s)
  {
    var t, steps :| Init(cfg, t) && Run(cfg, t, steps, s);
    InitInv(cfg, t);
    InitRows(cfg, t);
    UntakenDue(cfg, t.chunks, |t.chunks|);
    ChunkStartWithin(cfg, cfg.ChunkCount() - 1);
    RunTally(cfg, t, steps, s);
  }
}
