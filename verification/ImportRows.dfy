/** Row accounting over any interleaving of the chunk workers: every source row ends up staged or
    reported, never both (services/worker-core/src/handlers/bulkImport.ts:162-215). */
module ImportRows {
  import opened Basics
  import opened Staging
  import opened ImportPlan
  import opened ImportRun
  import opened ImportHandout

  predicate Staged(table: seq<Row>, n: nat) {
    exists i | 0 <= i < |table| :: table[i].number == n
  }

  predicate Logged(errors: seq<ErrorRecord>, n: nat) {
    exists i | 0 <= i < |errors| :: errors[i].number == n
  }

  predicate Pending(chunk: Chunk, n: nat) {
    match chunk
    case Untaken => true
    case Active(todo, _, _) => n in Numbers(todo)
    case Done(_, _) => false
  }

  /** Row `n`, whose chunk is `chunk`: still to come, or staged, or reported. */
  predicate RowOk(table: seq<Row>, errors: seq<ErrorRecord>, chunk: Chunk, n: nat) {
    if Pending(chunk, n) then !Staged(table, n) && !Logged(errors, n)
    else Staged(table, n) != Logged(errors, n)
  }

  /** The statement is about rows of chunk `c`, as they were read. */
  ghost predicate ActionOk(cfg: Config, table: seq<Row>, c: nat, a: Action)
    requires cfg.WellFormed()
  {
    match a
    case Log(n, rules) => cfg.InChunk(n, c) && rules != [] && forall i | 0 <= i < |rules| :: Justified(cfg, table, n, rules[i])
    case InsertMany(rows) => forall i | 0 <= i < |rows| :: FromSource(cfg, c, rows[i])
    case InsertOne(row) => FromSource(cfg, c, row)
    case Finish => true
  }

  predicate FromSource(cfg: Config, c: nat, row: Row) {
    cfg.InChunk(row.number, c) && cfg.IsValid(row.number) && row == cfg.RowOf(row.number)
  }

  /** Why a row may be reported: its own fields, its own data, or a staged row with the same key. */
  ghost predicate Justified(cfg: Config, table: seq<Row>, n: nat, rule: Rule) {
    match rule
    case InvalidField(name) => 0 < n <= cfg.Total() && cfg.records[n - 1].Faulty? && name in cfg.records[n - 1].rules
    case DataError => cfg.IsValid(n) && cfg.schema.bad(cfg.RowOf(n))
    case DuplicateKey =>
      cfg.IsValid(n) && !cfg.schema.bad(cfg.RowOf(n)) && exists i | 0 <= i < |table| :: Collide(table[i].cells, cfg.RowOf(n).cells, cfg.schema.unique)
    case Lookup(_) => false
  }

  ghost predicate TodoOk(cfg: Config, table: seq<Row>, c: nat, todo: seq<Action>)
    requires cfg.WellFormed()
  {
    && EndsInFinish(todo)
    && Distinct(Numbers(todo))
    && forall i | 0 <= i < |todo| :: ActionOk(cfg, table, c, todo[i])
  }

  /** The staging table holds source rows as they were read, each acceptable and no two clashing. */
  ghost predicate TableOk(cfg: Config, table: seq<Row>) {
    && Consistent(table, cfg.schema)
    && forall i | 0 <= i < |table| ::
         cfg.IsValid(table[i].number) && table[i] == cfg.RowOf(table[i].number) && !cfg.schema.bad(table[i])
  }

  ghost predicate ErrorsOk(cfg: Config, table: seq<Row>, errors: seq<ErrorRecord>) {
    forall i | 0 <= i < |errors| ::
      0 < errors[i].number <= cfg.Total() && Justified(cfg, table, errors[i].number, errors[i].rule)
  }

  ghost predicate RowsInv(cfg: Config, s: State)
    requires cfg.WellFormed()
  {
    && Shaped(cfg, s)
    && TableOk(cfg, s.table)
    && ErrorsOk(cfg, s.table, s.errors)
    && (forall c | 0 <= c < |s.chunks| && s.chunks[c].Active? :: TodoOk(cfg, s.table, c, s.chunks[c].todo))
    && (forall n | 0 < n <= cfg.Total() :: RowAt(cfg, s, n))
  }

  ghost predicate RowAt(cfg: Config, s: State, n: nat)
    requires cfg.WellFormed() && Shaped(cfg, s) && 0 < n <= cfg.Total()
  {
    ChunksPartition(cfg, n, ChunkOf(cfg, n));
    RowOk(s.table, s.errors, s.chunks[ChunkOf(cfg, n)], n)
  }

  // ---------------------------------------------------------------------------------------------
  // One statement

  /** `b` extends `a` by rows with the given numbers. */
  lemma StagedAppend(a: seq<Row>, b: seq<Row>, n: nat)
    ensures Staged(a + b, n) <==> Staged(a, n) || n in RowNumbers(b)
  {
    if Staged(a, n) {
      var i :| 0 <= i < |a| && a[i].number == n;
      assert (a + b)[i].number == n;
    }
    if n in RowNumbers(b) {
      var i :| 0 <= i < |b| && RowNumbers(b)[i] == n;
      assert (a + b)[|a| + i].number == n;
    }
    if i :| 0 <= i < |a + b| && (a + b)[i].number == n {
      if i >= |a| { assert RowNumbers(b)[i - |a|] == n; }
    }
  }

  lemma LoggedAppend(a: seq<ErrorRecord>, b: seq<ErrorRecord>, n: nat)
    ensures Logged(a + b, n) <==> Logged(a, n) || Logged(b, n)
  {
    if i :| 0 <= i < |a| && a[i].number == n { assert (a + b)[i].number == n; }
    if i :| 0 <= i < |b| && b[i].number == n { assert (a + b)[|a| + i].number == n; }
    if i :| 0 <= i < |a + b| && (a + b)[i].number == n {
      if i >= |a| { assert b[i - |a|].number == n; }
    }
  }

  /** The numbers a statement takes off the list are exactly the ones it stages or reports. */
  lemma PerformNumbers(schema: Schema, table: seq<Row>, todo: seq<Action>, n: nat)
    requires todo != [] && !todo[0].Finish? && Distinct(Numbers(todo))
    requires todo[0].Log? ==> todo[0].rules != []
    ensures var e := Perform(schema, table, todo);
      && Distinct(Numbers(e.todo))
      && (n in Numbers(todo) <==> n in Numbers(e.todo) || Staged(e.table[|table|..], n) || Logged(e.log, n))
      && !(n in Numbers(e.todo) && (Staged(e.table[|table|..], n) || Logged(e.log, n)))
      && !(Staged(e.table[|table|..], n) && Logged(e.log, n))
      && |e.table| >= |table| && e.table[..|table|] == table
  {
    var e, rest := Perform(schema, table, todo), todo[1..];
    assert Numbers(todo) == ActionNumbers(todo[0]) + Numbers(rest);
    DistinctSplit(ActionNumbers(todo[0]), Numbers(rest));
    match todo[0]
    case Log(m, rules) => assert e.log[0].number == m;
    case InsertMany(rows) => InsertManyNumbers(schema, table, rows, rest, n);
    case InsertOne(row) =>
      if Try(table, row, schema) == Stored {
        assert e.table[|table|..] == [row];
        assert [row][0] == row;
      } else {
        NumbersAppend([Log(row.number, [Try(table, row, schema).rule])], rest);
      }
  }

  lemma InsertManyNumbers(schema: Schema, table: seq<Row>, rows: seq<Row>, rest: seq<Action>, n: nat)
    ensures Fits(table, rows, schema) ==> (table + rows)[|table|..] == rows && (Staged(rows, n) <==> n in RowNumbers(rows))
    ensures Numbers(Singles(rows) + rest) == RowNumbers(rows) + Numbers(rest)
  {
    StagedNumbers(rows, n);
    NumbersAppend(Singles(rows), rest);
    NumbersSingles(rows);
  }

  lemma DistinctSplit(a: seq<nat>, b: seq<nat>)
    requires Distinct(a + b)
    ensures Distinct(b) && forall n :: !(n in a && n in b)
  {
    var s := a + b;
    assert forall i | 0 <= i < |b| :: b[i] == s[|a| + i];
    forall i, j | 0 <= i < |a| && 0 <= j < |b| ensures a[i] != b[j] {
      assert s[i] == a[i] && s[|a| + j] == b[j];
    }
  }

  lemma JustifiedGrows(cfg: Config, a: seq<Row>, b: seq<Row>, n: nat, rule: Rule)
    requires Justified(cfg, a, n, rule) && a <= b
    ensures Justified(cfg, b, n, rule)
  {
    if rule == DuplicateKey {
      var i :| 0 <= i < |a| && Collide(a[i].cells, cfg.RowOf(n).cells, cfg.schema.unique);
      assert b[i] == a[i];
    }
  }

  lemma ActionOkGrows(cfg: Config, a: seq<Row>, b: seq<Row>, c: nat, action: Action)
    requires cfg.WellFormed() && ActionOk(cfg, a, c, action) && a <= b
    ensures ActionOk(cfg, b, c, action)
  {
    if action.Log? {
      forall i | 0 <= i < |action.rules| ensures Justified(cfg, b, action.number, action.rules[i]) {
        JustifiedGrows(cfg, a, b, action.number, action.rules[i]);
      }
    }
  }

  /** Inserting acceptable source rows keeps the table in order. */
  lemma {:induction false} FitsTableOk(cfg: Config, table: seq<Row>, c: nat, rows: seq<Row>)
    requires cfg.WellFormed() && TableOk(cfg, table) && Fits(table, rows, cfg.schema)
    requires forall i | 0 <= i < |rows| :: FromSource(cfg, c, rows[i])
    ensures TableOk(cfg, table + rows)
    decreases rows
  {
    if rows == [] {
      assert table + rows == table;
    } else {
      ConsistentExtend(table, rows[0], cfg.schema);
      FitsTableOk(cfg, table + [rows[0]], c, rows[1..]);
      assert table + [rows[0]] + rows[1..] == table + rows;
    }
  }

  lemma PerformTable(cfg: Config, table: seq<Row>, c: nat, todo: seq<Action>)
    requires cfg.WellFormed() && todo != [] && !todo[0].Finish? && TableOk(cfg, table) && ActionOk(cfg, table, c, todo[0])
    ensures var e := Perform(cfg.schema, table, todo); table <= e.table && TableOk(cfg, e.table)
  {
    match todo[0]
    case Log(_, _) =>
    case InsertMany(rows) =>
      if Fits(table, rows, cfg.schema) { FitsTableOk(cfg, table, c, rows); }
    case InsertOne(row) =>
      if Try(table, row, cfg.schema) == Stored { ConsistentExtend(table, row, cfg.schema); }
  }

  /** What a statement puts back on the list: its rows one by one, or the report of a rejection. */
  function PutBack(schema: Schema, table: seq<Row>, a: Action): seq<Action> {
    match a
    case InsertMany(rows) => if Fits(table, rows, schema) then [] else Singles(rows)
    case InsertOne(row) => (match Try(table, row, schema) case Stored => [] case Rejected(rule) => [Log(row.number, [rule])])
    case _ => []
  }

  lemma PerformPutsBack(schema: Schema, table: seq<Row>, todo: seq<Action>)
    requires todo != [] && !todo[0].Finish?
    ensures Perform(schema, table, todo).todo == PutBack(schema, table, todo[0]) + todo[1..]
  {
    assert [] + todo[1..] == todo[1..];
  }

  lemma PutBackOk(cfg: Config, table: seq<Row>, c: nat, a: Action, i: nat)
    requires cfg.WellFormed() && ActionOk(cfg, table, c, a) && i < |PutBack(cfg.schema, table, a)|
    requires a.InsertOne? ==> !Staged(table, a.row.number)
    ensures ActionOk(cfg, table, c, PutBack(cfg.schema, table, a)[i])
  {
    match a
    case InsertMany(rows) => assert PutBack(cfg.schema, table, a)[i] == InsertOne(rows[i]) && FromSource(cfg, c, rows[i]);
    case InsertOne(row) => RejectionJustified(cfg, table, c, row);
    case _ =>
  }

  /** What is left to do is still about this chunk's rows, and a rejection is a justified one. */
  lemma PerformTodo(cfg: Config, table: seq<Row>, c: nat, todo: seq<Action>)
    requires cfg.WellFormed() && todo != [] && !todo[0].Finish? && TodoOk(cfg, table, c, todo)
    requires todo[0].InsertOne? ==> !Staged(table, todo[0].row.number)
    ensures var e := Perform(cfg.schema, table, todo);
            table <= e.table ==> forall i | 0 <= i < |e.todo| :: ActionOk(cfg, e.table, c, e.todo[i])
  {
    var e, back, rest := Perform(cfg.schema, table, todo), PutBack(cfg.schema, table, todo[0]), todo[1..];
    PerformPutsBack(cfg.schema, table, todo);
    forall i | 0 <= i < |e.todo| && table <= e.table ensures ActionOk(cfg, e.table, c, e.todo[i]) {
      var a := e.todo[i];
      if i < |back| {
        PutBackOk(cfg, table, c, todo[0], i);
      } else {
        assert a == rest[i - |back|] == todo[i - |back| + 1];
      }
      ActionOkGrows(cfg, table, e.table, c, a);
    }
  }

  lemma RejectionJustified(cfg: Config, table: seq<Row>, c: nat, row: Row)
    requires cfg.WellFormed() && FromSource(cfg, c, row) && !Staged(table, row.number)
    requires Try(table, row, cfg.schema).Rejected?
    ensures Justified(cfg, table, row.number, Try(table, row, cfg.schema).rule)
  {
  }

  lemma PerformErrors(cfg: Config, table: seq<Row>, errors: seq<ErrorRecord>, c: nat, todo: seq<Action>)
    requires cfg.WellFormed() && c < cfg.ChunkCount() && todo != [] && !todo[0].Finish?
    requires ActionOk(cfg, table, c, todo[0]) && ErrorsOk(cfg, table, errors)
    ensures var e := Perform(cfg.schema, table, todo); table <= e.table ==> ErrorsOk(cfg, e.table, errors + e.log)
  {
    var e := Perform(cfg.schema, table, todo);
    ChunkStartWithin(cfg, c);
    forall i | 0 <= i < |errors + e.log| && table <= e.table
      ensures 0 < (errors + e.log)[i].number <= cfg.Total() && Justified(cfg, e.table, (errors + e.log)[i].number, (errors + e.log)[i].rule)
    {
      var r := (errors + e.log)[i];
      if i < |errors| { assert r == errors[i]; } else { assert r == e.log[i - |errors|]; }
      JustifiedGrows(cfg, table, e.table, r.number, r.rule);
    }
  }

  // ---------------------------------------------------------------------------------------------
  // One step of the machine

  lemma InitRows(cfg: Config, s: State)
    requires cfg.WellFormed() && Init(cfg, s)
    ensures RowsInv(cfg, s)
  {
    forall n | 0 < n <= cfg.Total() ensures RowAt(cfg, s, n) {
      ChunksPartition(cfg, n, ChunkOf(cfg, n));
      assert s.chunks[ChunkOf(cfg, n)] == Untaken;
    }
  }

  lemma StepRows(cfg: Config, s: State, step: Step)
    requires cfg.WellFormed() && Inv(cfg, s) && RowsInv(cfg, s) && Enabled(s, step)
    ensures RowsInv(cfg, Apply(cfg, s, step))
  {
    match step
    case Resume(w) => if !s.workers[w].cancel { TakeRows(cfg, s, w); } else { SameRows(cfg, s, Apply(cfg, s, step)); }
    case Act(w) =>
      if s.chunks[s.workers[w].chunk].todo[0].Finish? { FinishRows(cfg, s, w); } else { PerformRows(cfg, s, w); }
    case _ => SameRows(cfg, s, Apply(cfg, s, step));
  }

  lemma SameRows(cfg: Config, s: State, t: State)
    requires cfg.WellFormed() && RowsInv(cfg, s) && Shaped(cfg, t)
    requires t.table == s.table && t.errors == s.errors && t.chunks == s.chunks
    ensures RowsInv(cfg, t)
  {
    forall n | 0 < n <= cfg.Total() ensures RowAt(cfg, t, n) {
      assert RowAt(cfg, s, n);
    }
  }

  lemma TakeRows(cfg: Config, s: State, w: nat)
    requires cfg.WellFormed() && Inv(cfg, s) && RowsInv(cfg, s) && w < |s.workers| && s.workers[w] == Answered(false)
    ensures RowsInv(cfg, Take(cfg, s, w))
  {
    var t, c := Take(cfg, s, w), s.cursor;
    if c < cfg.ChunkCount() {
      ProgramOk(cfg, s.table, c);
      ProgramNumbers(cfg, c);
      assert s.chunks[c].Untaken?;
    }
    forall n | 0 < n <= cfg.Total() ensures RowAt(cfg, t, n) {
      assert RowAt(cfg, s, n);
      ChunksPartition(cfg, n, c);
    }
  }

  lemma ProgramOk(cfg: Config, table: seq<Row>, c: nat)
    requires cfg.WellFormed() && c < cfg.ChunkCount()
    ensures TodoOk(cfg, table, c, Program(cfg, c))
  {
    ProgramNumbers(cfg, c);
    ProgramEnds(cfg, c);
    ChunkStartWithin(cfg, c);
    var lo, hi := cfg.Start(c), cfg.End(c);
    LogsOk(cfg, table, c, lo, hi);
    ValidRowsOk(cfg, c, lo, hi);
    SubBatchesOk(cfg, table, c, ValidRows(cfg, lo, hi), cfg.SubBatch());
  }

  lemma {:induction false} LogsOk(cfg: Config, table: seq<Row>, c: nat, lo: nat, hi: nat)
    requires cfg.WellFormed() && cfg.Start(c) <= lo <= hi == cfg.End(c) <= cfg.Total()
    ensures forall i | 0 <= i < |FaultyLogs(cfg, lo, hi)| :: ActionOk(cfg, table, c, FaultyLogs(cfg, lo, hi)[i])
    decreases hi - lo
  {
    if lo < hi {
      LogsOk(cfg, table, c, lo + 1, hi);
      if cfg.records[lo].Faulty? {
        assert ActionOk(cfg, table, c, Log(lo + 1, Invalids(cfg.records[lo].rules)));
      }
    }
  }

  lemma {:induction false} ValidRowsOk(cfg: Config, c: nat, lo: nat, hi: nat)
    requires cfg.WellFormed() && cfg.Start(c) <= lo <= hi == cfg.End(c) <= cfg.Total()
    ensures forall i | 0 <= i < |ValidRows(cfg, lo, hi)| :: FromSource(cfg, c, ValidRows(cfg, lo, hi)[i])
    decreases hi - lo
  {
    if lo < hi { ValidRowsOk(cfg, c, lo + 1, hi); }
  }

  lemma {:induction false} SubBatchesOk(cfg: Config, table: seq<Row>, c: nat, rows: seq<Row>, sub: nat)
    requires cfg.WellFormed() && sub > 0 && forall i | 0 <= i < |rows| :: FromSource(cfg, c, rows[i])
    ensures forall i | 0 <= i < |SubBatches(rows, sub)| :: ActionOk(cfg, table, c, SubBatches(rows, sub)[i])
    decreases |rows|
  {
    if |rows| > sub { SubBatchesOk(cfg, table, c, rows[sub..], sub); }
  }

  lemma FinishRows(cfg: Config, s: State, w: nat)
    requires cfg.WellFormed() && RowsInv(cfg, s) && Enabled(s, Act(w))
    requires s.chunks[s.workers[w].chunk].todo[0].Finish?
    ensures RowsInv(cfg, Apply(cfg, s, Act(w)))
  {
    var t, c := Apply(cfg, s, Act(w)), s.workers[w].chunk;
    var todo := s.chunks[c].todo;
    assert TodoOk(cfg, s.table, c, todo);
    FinishIsLast(todo);
    forall n | 0 < n <= cfg.Total() ensures RowAt(cfg, t, n) {
      assert RowAt(cfg, s, n);
      ChunksPartition(cfg, n, c);
    }
  }

  lemma FinishIsLast(todo: seq<Action>)
    requires EndsInFinish(todo) && todo[0].Finish?
    ensures Numbers(todo) == []
  {
    assert todo[1..] == [];
  }

  lemma {:induction false} TodoInChunk(cfg: Config, table: seq<Row>, c: nat, todo: seq<Action>, n: nat)
    requires cfg.WellFormed() && (forall i | 0 <= i < |todo| :: ActionOk(cfg, table, c, todo[i]))
    requires n in Numbers(todo)
    ensures cfg.InChunk(n, c)
  {
    if n in ActionNumbers(todo[0]) {
      assert ActionOk(cfg, table, c, todo[0]);
      if todo[0].InsertMany? {
        var i :| 0 <= i < |todo[0].rows| && RowNumbers(todo[0].rows)[i] == n;
        assert FromSource(cfg, c, todo[0].rows[i]);
      }
    } else {
      forall i | 0 <= i < |todo[1..]| ensures ActionOk(cfg, table, c, todo[1..][i]) {
        assert todo[1..][i] == todo[i + 1];
      }
      TodoInChunk(cfg, table, c, todo[1..], n);
    }
  }

  lemma PerformRows(cfg: Config, s: State, w: nat)
    requires cfg.WellFormed() && RowsInv(cfg, s) && Enabled(s, Act(w))
    requires !s.chunks[s.workers[w].chunk].todo[0].Finish?
    ensures RowsInv(cfg, Apply(cfg, s, Act(w)))
  {
    var t, c := Apply(cfg, s, Act(w)), s.workers[w].chunk;
    var todo := s.chunks[c].todo;
    var e := Perform(cfg.schema, s.table, todo);
    assert TodoOk(cfg, s.table, c, todo) && ActionOk(cfg, s.table, c, todo[0]);
    PerformTable(cfg, s.table, c, todo);
    PerformErrors(cfg, s.table, s.errors, c, todo);
    forall d | 0 <= d < |t.chunks| && t.chunks[d].Active? ensures TodoOk(cfg, t.table, d, t.chunks[d].todo) {
      if d == c {
        ActiveTodoOk(cfg, s, c, todo);
      } else {
        assert TodoOk(cfg, s.table, d, s.chunks[d].todo);
        TodoOkGrows(cfg, s.table, t.table, d, s.chunks[d].todo);
      }
    }
    forall n | 0 < n <= cfg.Total() ensures RowAt(cfg, t, n) {
      PerformRowAt(cfg, s, w, n);
    }
  }

  lemma TodoOkGrows(cfg: Config, a: seq<Row>, b: seq<Row>, c: nat, todo: seq<Action>)
    requires cfg.WellFormed() && TodoOk(cfg, a, c, todo) && a <= b
    ensures TodoOk(cfg, b, c, todo)
  {
    forall i | 0 <= i < |todo| ensures ActionOk(cfg, b, c, todo[i]) {
      ActionOkGrows(cfg, a, b, c, todo[i]);
    }
  }

  lemma ActiveTodoOk(cfg: Config, s: State, c: nat, todo: seq<Action>)
    requires cfg.WellFormed() && RowsInv(cfg, s) && c < |s.chunks| && s.chunks[c].Active? && s.chunks[c].todo == todo
    requires !todo[0].Finish? && TodoOk(cfg, s.table, c, todo)
    ensures var e := Perform(cfg.schema, s.table, todo); TodoOk(cfg, e.table, c, e.todo)
  {
    assert ActionOk(cfg, s.table, c, todo[0]);
    if todo[0].InsertOne? {
      var n := todo[0].row.number;
      assert n in Numbers(todo);
      ChunksPartition(cfg, n, c);
      assert RowAt(cfg, s, n);
    }
    PerformTable(cfg, s.table, c, todo);
    PerformTodo(cfg, s.table, c, todo);
    PerformNumbers(cfg.schema, s.table, todo, 0);
    PerformEnds(cfg.schema, s.table, todo);
  }

  lemma PerformEnds(schema: Schema, table: seq<Row>, todo: seq<Action>)
    requires EndsInFinish(todo) && !todo[0].Finish?
    ensures EndsInFinish(Perform(schema, table, todo).todo)
  {
  }

  lemma PerformRowAt(cfg: Config, s: State, w: nat, n: nat)
    requires cfg.WellFormed() && RowsInv(cfg, s) && Enabled(s, Act(w)) && 0 < n <= cfg.Total()
    requires !s.chunks[s.workers[w].chunk].todo[0].Finish?
    ensures RowAt(cfg, Apply(cfg, s, Act(w)), n)
  {
    var c := s.workers[w].chunk;
    var todo := s.chunks[c].todo;
    var e := Perform(cfg.schema, s.table, todo);
    assert TodoOk(cfg, s.table, c, todo) && ActionOk(cfg, s.table, c, todo[0]);
    assert RowAt(cfg, s, n);
    PerformNumbers(cfg.schema, s.table, todo, n);
    assert e.table == s.table + e.table[|s.table|..];
    StagedAppend(s.table, e.table[|s.table|..], n);
    StagedNumbers(e.table[|s.table|..], n);
    LoggedAppend(s.errors, e.log, n);
    ChunksPartition(cfg, n, c);
    if n in Numbers(todo) { TodoInChunk(cfg, s.table, c, todo, n); }
  }

  lemma StagedNumbers(rows: seq<Row>, n: nat)
    ensures Staged(rows, n) <==> n in RowNumbers(rows)
  {
    StagedAppend([], rows, n);
    assert [] + rows == rows;
  }

  lemma {:induction false} RunRows(cfg: Config, t: State, steps: seq<Step>, s: State)
    requires cfg.WellFormed() && Inv(cfg, t) && RowsInv(cfg, t) && Run(cfg, t, steps, s)
    ensures RowsInv(cfg, s)
    decreases |steps|
  {
    if steps != [] {
      StepInv(cfg, t, steps[0]);
      StepRows(cfg, t, steps[0]);
      RunRows(cfg, Apply(cfg, t, steps[0]), steps[1..], s);
    }
  }

  lemma ReachableRows(cfg: Config, s: State)
    requires cfg.WellFormed() && Reachable(cfg, s)
    ensures Inv(cfg, s) && RowsInv(cfg, s)
  {
    ReachableInv(cfg, s);
    var t, steps :| Init(cfg, t) && Run(cfg, t, steps, s);
    InitInv(cfg, t);
    InitRows(cfg, t);
    RunRows(cfg, t, steps, s);
  }

  // ---------------------------------------------------------------------------------------------
  // Results

  /** When the attempt goes on to lookups and promote, each source row is staged with no error record,
      or has one and is not staged; what is staged is the row as read and acceptable to the table; and
      each report is justified, a duplicate key by a row that is staged. */
  lemma RowAccounting(cfg: Config, s: State)
    requires cfg.WellFormed() && Reachable(cfg, s) && Proceeds(s)
    ensures forall n | 0 < n <= cfg.Total() :: Staged(s.table, n) != Logged(s.errors, n)
    ensures TableOk(cfg, s.table) && ErrorsOk(cfg, s.table, s.errors)
  {
    ReachableRows(cfg, s);
    HandoutComplete(cfg, s);
    forall n | 0 < n <= cfg.Total() ensures Staged(s.table, n) != Logged(s.errors, n) {
      assert RowAt(cfg, s, n);
      ChunksPartition(cfg, n, ChunkOf(cfg, n));
    }
  }
}
