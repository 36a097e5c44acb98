/** One import attempt as a machine: W chunk workers share a cursor and a staging table, every awaited
    call is a point where another worker may run (services/worker-core/src/handlers/bulkImport.ts:56-78,
    services/worker-core/src/rowPipeline.ts:45-102). */
module ImportRun {
  import opened Staging
  import opened ImportPlan

  /** Where a chunk worker stands. `Asking` has passed the loop guard and awaits `isCancelled`;
      `Answered` has the reply but has not resumed, so the cursor may have moved since the guard.
      `Overrun` is the worker whose `chunks[cursor++]` was undefined: it throws, as does `Failed`. */
  datatype Pc = Guard | Asking | Answered(cancel: bool) | Working(chunk: nat) | Returned | Overrun | Failed(chunk: nat)

  datatype Chunk = Untaken | Active(todo: seq<Action>, staged: nat, errors: nat) | Done(staged: nat, errors: nat)

  datatype Start = Start(worker: nat, chunk: nat)

  datatype State = State(
    cursor: nat, cancelled: bool, workers: seq<Pc>,
    flag: bool,                      // the cancel flag in Redis
    table: seq<Row>,                 // the staging table
    errors: seq<ErrorRecord>,        // job_errors of this attempt
    remaining: int, errorCount: nat, // the batch row
    chunks: seq<Chunk>,
    starts: seq<Start>,              // history: who started which chunk
    late: seq<nat>)                  // history: chunks each worker started after the flag was set

  datatype Step = Loop(w: nat) | Reply(w: nat) | Resume(w: nat) | Act(w: nat) | Fail(w: nat) | RequestCancel

  ghost predicate Init(cfg: Config, s: State) {
    && cfg.WellFormed()
    && s == State(0, false, seq(cfg.Workers(), _ => Asking), s.flag, [], [], cfg.ChunkCount(), 0,
                  seq(cfg.ChunkCount(), _ => Untaken), [], seq(cfg.Workers(), _ => 0))
  }

  // ---------------------------------------------------------------------------------------------
  // Steps

  /** One statement of a chunk: what it does to the table, what it logs, what is left to do. */
  datatype Effect = Effect(table: seq<Row>, todo: seq<Action>, staged: nat, log: seq<ErrorRecord>)

  function Perform(schema: Schema, table: seq<Row>, todo: seq<Action>): Effect
    requires todo != [] && !todo[0].Finish?
  {
    var rest := todo[1..];
    match todo[0]
    case Log(n, rules) => Effect(table, rest, 0, seq(|rules|, i requires 0 <= i < |rules| => ErrorRecord(n, rules[i])))
    case InsertMany(rows) =>
      if Fits(table, rows, schema) then Effect(table + rows, rest, |rows|, [])
      else Effect(table, Singles(rows) + rest, 0, [])
    case InsertOne(row) =>
      match Try(table, row, schema)
      case Stored => Effect(table + [row], rest, 1, [])
      case Rejected(rule) => Effect(table, [Log(row.number, [rule])] + rest, 0, [])
  }

  predicate Enabled(s: State, step: Step) {
    match step
    case Loop(w) => w < |s.workers| && s.workers[w] == Guard
    case Reply(w) => w < |s.workers| && s.workers[w] == Asking
    case Resume(w) => w < |s.workers| && s.workers[w].Answered?
    case Act(w) => Acts(s, w)
    case Fail(w) => Acts(s, w)
    case RequestCancel => true
  }

  predicate Acts(s: State, w: nat) {
    && w < |s.workers| && s.workers[w].Working?
    && s.workers[w].chunk < |s.chunks| && s.chunks[s.workers[w].chunk].Active? && s.chunks[s.workers[w].chunk].todo != []
  }

  function Move(s: State, w: nat, pc: Pc): State
    requires w < |s.workers|
  {
    s.(workers := s.workers[w := pc])
  }

  function Apply(cfg: Config, s: State, step: Step): State
    requires cfg.WellFormed() && Enabled(s, step) && Shaped(cfg, s)
  {
    match step
    case RequestCancel => s.(flag := true)
    case Loop(w) =>
      if s.cursor >= cfg.ChunkCount() then Move(s, w, Returned)
      else if s.cancelled then Move(s, w, Returned)
      else Move(s, w, Asking)
    case Reply(w) => Move(s, w, Answered(s.flag))
    case Resume(w) =>
      if s.workers[w].cancel then Move(s, w, Returned).(cancelled := true) else Take(cfg, s, w)
    case Fail(w) => Move(s, w, Failed(s.workers[w].chunk))
    case Act(w) =>
      var c := s.workers[w].chunk;
      var Active(todo, staged, errors) := s.chunks[c];
      if todo[0].Finish? then
        Move(s, w, Guard).(chunks := s.chunks[c := Done(staged, errors)],
                           remaining := s.remaining - 1, errorCount := s.errorCount + errors)
      else
        var e := Perform(cfg.schema, s.table, todo);
        s.(table := e.table, errors := s.errors + e.log,
           chunks := s.chunks[c := Active(e.todo, staged + e.staged, errors + |e.log|)])
  }

  /** `const chunk = chunks[cursor++]!` and, if there is one, the start of `processChunk`. */
  function Take(cfg: Config, s: State, w: nat): State
    requires cfg.WellFormed() && Shaped(cfg, s) && w < |s.workers|
  {
    var c := s.cursor;
    if c < cfg.ChunkCount() then
      Move(s, w, Working(c)).(
        cursor := c + 1,
        chunks := s.chunks[c := Active(Program(cfg, c), 0, 0)],
        starts := s.starts + [Start(w, c)],
        late := if s.flag then s.late[w := s.late[w] + 1] else s.late)
    else Move(s, w, Overrun).(cursor := c + 1)
  }

  predicate Shaped(cfg: Config, s: State)
    requires cfg.WellFormed()
  {
    |s.chunks| == cfg.ChunkCount() && |s.workers| == cfg.Workers() == |s.late|
  }

  /** `s` is reached from `t` by the given steps, any interleaving of the workers. */
  ghost predicate Run(cfg: Config, t: State, steps: seq<Step>, s: State)
    requires cfg.WellFormed()
    decreases |steps|
  {
    if steps == [] then t == s
    else Shaped(cfg, t) && Enabled(t, steps[0]) && Run(cfg, Apply(cfg, t, steps[0]), steps[1..], s)
  }

  ghost predicate Reachable(cfg: Config, s: State)
    requires cfg.WellFormed()
  {
    exists t, steps :: Init(cfg, t) && Run(cfg, t, steps, s)
  }

  /** `Promise.all` resolves: no worker threw. */
  predicate AllReturned(s: State) {
    forall w | 0 <= w < |s.workers| :: s.workers[w] == Returned
  }

  /** The attempt goes on to lookups and promote. */
  predicate Proceeds(s: State) {
    AllReturned(s) && !s.cancelled
  }

  // ---------------------------------------------------------------------------------------------
  // Every statement brings a chunk nearer to its end

  function Cost(a: Action): nat {
    match a
    case Log(_, _) => 1
    case InsertOne(_) => 2
    case InsertMany(rows) => 2 * |rows| + 1
    case Finish => 1
  }

  function TotalCost(todo: seq<Action>): nat {
    if todo == [] then 0 else Cost(todo[0]) + TotalCost(todo[1..])
  }

  lemma {:induction false} TotalCostAppend(a: seq<Action>, b: seq<Action>)
    ensures TotalCost(a + b) == TotalCost(a) + TotalCost(b)
  {
    if a == [] { assert a + b == b; } else {
      assert (a + b)[1..] == a[1..] + b;
      TotalCostAppend(a[1..], b);
    }
  }

  lemma {:induction false} SinglesCost(rows: seq<Row>)
    ensures TotalCost(Singles(rows)) == 2 * |rows|
  {
    if rows != [] {
      assert Singles(rows)[1..] == Singles(rows[1..]);
      SinglesCost(rows[1..]);
    }
  }

  lemma PerformCheaper(schema: Schema, table: seq<Row>, todo: seq<Action>)
    requires EndsInFinish(todo) && !todo[0].Finish?
    ensures var e := Perform(schema, table, todo); EndsInFinish(e.todo) && TotalCost(e.todo) < TotalCost(todo)
  {
    var rest := todo[1..];
    assert rest[|rest| - 1] == todo[|todo| - 1];
    match todo[0]
    case Log(_, _) =>
    case InsertMany(rows) => TotalCostAppend(Singles(rows), rest); SinglesCost(rows);
    case InsertOne(row) =>
      match Try(table, row, schema)
      case Stored =>
      case Rejected(rule) => TotalCostAppend([Log(row.number, [rule])], rest);
  }
}
