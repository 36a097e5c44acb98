/** How an import is cut up: chunks of source rows, and for one chunk the statements its worker will
    issue (services/worker-core/src/handlers/bulkImport.ts `bulkImport`, `processChunk`). */
module ImportPlan {
  import opened Basics
  import opened Staging

  /** `evaluateRow` plus `coerce` for one source record; it reports errors exactly when it is not valid. */
  datatype Evaluation = Valid(cells: seq<Cell>) | Faulty(rules: seq<string>)

  /** One import attempt: the records as evaluated, the options, and the target's row checks. */
  datatype Config = Config(
    records: seq<Evaluation>,
    chunkSize: nat,
    concurrency: nat,
    maxBindParams: nat,
    columns: nat,
    schema: Schema)
  {
    predicate WellFormed() {
      && chunkSize > 0 && concurrency > 0
      && forall i | 0 <= i < |records| :: records[i].Faulty? ==> records[i].rules != []
    }

    function Total(): nat { |records| }

    function ChunkCount(): (n: nat)
      requires WellFormed()
      ensures n > 0
    {
      Max(1, CeilDiv(Total(), chunkSize))
    }

    /** Rows `[Start(c), End(c))` in source order; row numbers are one higher. */
    function Start(c: nat): nat { c * chunkSize }
    function End(c: nat): nat { Min((c + 1) * chunkSize, Total()) }

    function Workers(): (n: nat)
      requires WellFormed()
      ensures n > 0
      ensures n <= concurrency && n <= ChunkCount() && (n == concurrency || n == ChunkCount())
    {
      Min(concurrency, ChunkCount())
    }

    /** Rows per multi-row INSERT. */
    function SubBatch(): (n: nat)
      ensures 1 <= n <= 1000
    {
      SubBatchSize(maxBindParams, columns + 1)
    }

    /** Row number `n` belongs to chunk `c`. */
    predicate InChunk(n: nat, c: nat) {
      Start(c) < n <= End(c)
    }

    predicate IsValid(n: nat) {
      0 < n <= Total() && records[n - 1].Valid?
    }

    function RowOf(n: nat): Row
      requires IsValid(n)
    {
      Row(n, records[n - 1].cells)
    }
  }

  function Max(a: int, b: int): int { if a > b then a else b }
  function Min(a: int, b: int): int { if a < b then a else b }

  /** `Math.ceil(a / b)` */
  function CeilDiv(a: nat, b: nat): nat
    requires b > 0
  {
    (a + b - 1) / b
  }

  /** `Math.max(1, Math.min(1000, Math.floor((maxBindParams - 1) / colCount)))` */
  function SubBatchSize(maxBindParams: nat, colCount: nat): (n: nat)
    requires colCount > 0
    ensures 1 <= n <= 1000
  {
    Max(1, Min(1000, if maxBindParams == 0 then -1 else (maxBindParams - 1) / colCount))
  }

  // ---------------------------------------------------------------------------------------------
  // The chunks partition the source rows

  lemma DivBounds(a: nat, b: nat)
    requires b > 0
    ensures (a / b) * b <= a < (a / b + 1) * b
  {
    assert (a / b + 1) * b == (a / b) * b + b;
  }

  lemma MulMonotone(x: nat, y: nat, k: nat)
    requires x <= y
    ensures x * k <= y * k
  {
  }

  lemma CeilBounds(t: nat, k: nat)
    requires k > 0
    ensures var n := CeilDiv(t, k); t <= n * k && n * k < t + k
  {
    var n := CeilDiv(t, k);
    DivBounds(t + k - 1, k);
    assert (n + 1) * k == n * k + k;
  }

  lemma ChunkStartWithin(cfg: Config, c: nat)
    requires cfg.WellFormed() && c < cfg.ChunkCount()
    ensures cfg.Start(c) <= cfg.End(c) <= cfg.Total()
    ensures c + 1 < cfg.ChunkCount() ==> cfg.End(c) == cfg.Start(c + 1)
    ensures c + 1 == cfg.ChunkCount() ==> cfg.End(c) == cfg.Total()
  {
    var k, t := cfg.chunkSize, cfg.Total();
    var n := CeilDiv(t, k);
    CeilBounds(t, k);
    assert (c + 1) * k == c * k + k;
    if c + 1 < n {
      MulMonotone(c + 2, n, k);
      assert (c + 2) * k == (c + 1) * k + k;
    }
  }

  function ChunkOf(cfg: Config, n: nat): nat
    requires cfg.WellFormed() && 0 < n
  {
    (n - 1) / cfg.chunkSize
  }

  /** No multi-row INSERT carries more than `maxBindParams - 1` parameters once a single row fits. */
  lemma SubBatchFits(maxBindParams: nat, colCount: nat, rows: nat)
    requires 0 < colCount && colCount <= maxBindParams - 1 && rows <= SubBatchSize(maxBindParams, colCount)
    ensures rows * colCount <= maxBindParams - 1
  {
    var q := (maxBindParams - 1) / colCount;
    DivBounds(maxBindParams - 1, colCount);
    assert q == 0 ==> (q + 1) * colCount == colCount;
    MulMonotone(rows, q, colCount);
  }

  /** Every row number is in exactly one chunk, so no two chunks stage under the same number. */
  lemma ChunksPartition(cfg: Config, n: nat, c: nat)
    requires cfg.WellFormed() && 0 < n <= cfg.Total()
    ensures ChunkOf(cfg, n) < cfg.ChunkCount()
    ensures cfg.InChunk(n, c) <==> c == ChunkOf(cfg, n)
  {
    var k, m := cfg.chunkSize, ChunkOf(cfg, n);
    DivBounds(n - 1, k);
    if c < m { MulMonotone(c + 1, m, k); }
    if c > m { MulMonotone(m + 1, c, k); }
    var q := CeilDiv(cfg.Total(), k);
    CeilBounds(cfg.Total(), k);
    if m >= q { MulMonotone(q, m, k); }
  }

  /** Every chunk but the last holds `chunkSize` rows, and the last no more, and none only if there is no row. */
  lemma ChunksAreFull(cfg: Config, c: nat)
    requires cfg.WellFormed() && c < cfg.ChunkCount()
    ensures cfg.Start(c) <= cfg.End(c)
    ensures c + 1 < cfg.ChunkCount() ==> cfg.End(c) - cfg.Start(c) == cfg.chunkSize
    ensures cfg.End(c) - cfg.Start(c) <= cfg.chunkSize && (cfg.Total() > 0 ==> cfg.Start(c) < cfg.End(c))
  {
    var k, n := cfg.chunkSize, CeilDiv(cfg.Total(), cfg.chunkSize);
    ChunkStartWithin(cfg, c);
    CeilBounds(cfg.Total(), k);
    assert (c + 1) * k == c * k + k;
    if c + 1 < n {
      MulMonotone(c + 1, n - 1, k);
      assert n * k == (n - 1) * k + k;
    } else if n > 0 {
      assert n * k == (n - 1) * k + k;
    }
  }

  /** A sub-batch is as large as it may be: one more row would exceed 1000 rows or the parameters. */
  lemma SubBatchIsLargest(maxBindParams: nat, colCount: nat)
    requires colCount > 0
    ensures var n := SubBatchSize(maxBindParams, colCount); n == 1000 || (n + 1) * colCount > maxBindParams - 1
  {
    if maxBindParams > 0 {
      var q := (maxBindParams - 1) / colCount;
      DivBounds(maxBindParams - 1, colCount);
      if q < 1000 { MulMonotone(q + 1, SubBatchSize(maxBindParams, colCount) + 1, colCount); }
    }
  }

  // ---------------------------------------------------------------------------------------------
  // The statements of one chunk

  /** What a chunk worker awaits next. `Log` writes a row's error records, `InsertMany` is the fast
      path for one sub-batch, `InsertOne` the fallback for one row, `Finish` is `chunkDone`. */
  datatype Action =
    | Log(number: nat, rules: seq<Rule>)
    | InsertMany(rows: seq<Row>)
    | InsertOne(row: Row)
    | Finish

  /** Phase 1 for rows numbered `lo + 1 .. hi`: error records of the rows that do not pass. */
  function FaultyLogs(cfg: Config, lo: nat, hi: nat): seq<Action>
    requires lo <= hi <= cfg.Total()
    decreases hi - lo
  {
    if lo == hi then []
    else
      var rest := FaultyLogs(cfg, lo + 1, hi);
      match cfg.records[lo]
      case Faulty(rules) => [Log(lo + 1, Invalids(rules))] + rest
      case Valid(_) => rest
  }

  function Invalids(rules: seq<string>): (r: seq<Rule>)
    ensures |r| == |rules| && forall i | 0 <= i < |r| :: r[i] == InvalidField(rules[i])
  {
    seq(|rules|, i requires 0 <= i < |rules| => InvalidField(rules[i]))
  }

  /** And the rows that do. */
  function ValidRows(cfg: Config, lo: nat, hi: nat): seq<Row>
    requires lo <= hi <= cfg.Total()
    decreases hi - lo
  {
    if lo == hi then []
    else
      var rest := ValidRows(cfg, lo + 1, hi);
      match cfg.records[lo]
      case Valid(cells) => [Row(lo + 1, cells)] + rest
      case Faulty(_) => rest
  }

  /** Phase 2: `for (i = 0; i < valid.length; i += SUB)`. */
  function SubBatches(rows: seq<Row>, sub: nat): seq<Action>
    requires sub > 0
    decreases |rows|
  {
    if |rows| <= sub then (if rows == [] then [] else [InsertMany(rows)])
    else [InsertMany(rows[..sub])] + SubBatches(rows[sub..], sub)
  }

  /** The rows of the statements, in order. */
  function Carried(todo: seq<Action>): seq<Row> {
    if todo == [] then [] else (if todo[0].InsertMany? then todo[0].rows else []) + Carried(todo[1..])
  }

  /** The statements carry the valid rows in order, `sub` each, the rest in the last. */
  lemma {:induction false} SubBatchesAreFull(rows: seq<Row>, sub: nat)
    requires sub > 0
    ensures var todo := SubBatches(rows, sub);
      && Carried(todo) == rows
      && forall i | 0 <= i < |todo| :: todo[i].InsertMany? && 0 < |todo[i].rows| <= sub && (i < |todo| - 1 ==> |todo[i].rows| == sub)
    decreases |rows|
  {
    var todo := SubBatches(rows, sub);
    if |rows| > sub {
      SubBatchesAreFull(rows[sub..], sub);
      assert todo[1..] == SubBatches(rows[sub..], sub) && rows == rows[..sub] + rows[sub..];
    } else if rows != [] {
      assert todo[1..] == [] && rows + [] == rows;
    }
  }

  /** Whenever one row fits into a statement, so does each multi-row INSERT of a chunk. */
  lemma ProgramFits(cfg: Config, c: nat)
    requires cfg.WellFormed() && c < cfg.ChunkCount() && cfg.columns + 1 <= cfg.maxBindParams - 1
    ensures forall i | 0 <= i < |Program(cfg, c)| && Program(cfg, c)[i].InsertMany? ::
              |Program(cfg, c)[i].rows| * (cfg.columns + 1) <= cfg.maxBindParams - 1
  {
    ChunkStartWithin(cfg, c);
    var lo, hi := cfg.Start(c), cfg.End(c);
    var logs, inserts := FaultyLogs(cfg, lo, hi), SubBatches(ValidRows(cfg, lo, hi), cfg.SubBatch());
    SubBatchesAreFull(ValidRows(cfg, lo, hi), cfg.SubBatch());
    LogsAreLogs(cfg, lo, hi);
    assert forall k | 0 <= k < |logs| :: Program(cfg, c)[k] == logs[k];
    forall i | 0 <= i < |Program(cfg, c)| && Program(cfg, c)[i].InsertMany?
      ensures |Program(cfg, c)[i].rows| * (cfg.columns + 1) <= cfg.maxBindParams - 1
    {
      assert Program(cfg, c)[i] == inserts[i - |logs|];
      SubBatchFits(cfg.maxBindParams, cfg.columns + 1, |inserts[i - |logs|].rows|);
    }
  }

  lemma {:induction false} LogsAreLogs(cfg: Config, lo: nat, hi: nat)
    requires lo <= hi <= cfg.Total()
    ensures forall i | 0 <= i < |FaultyLogs(cfg, lo, hi)| :: FaultyLogs(cfg, lo, hi)[i].Log?
    decreases hi - lo
  {
    if lo < hi { LogsAreLogs(cfg, lo + 1, hi); }
  }

  function Singles(rows: seq<Row>): (a: seq<Action>)
    ensures |a| == |rows| && forall i | 0 <= i < |a| :: a[i] == InsertOne(rows[i])
  {
    seq(|rows|, i requires 0 <= i < |rows| => InsertOne(rows[i]))
  }

  function Program(cfg: Config, c: nat): seq<Action>
    requires cfg.WellFormed() && c < cfg.ChunkCount()
  {
    ChunkStartWithin(cfg, c);
    FaultyLogs(cfg, cfg.Start(c), cfg.End(c))
    + SubBatches(ValidRows(cfg, cfg.Start(c), cfg.End(c)), cfg.SubBatch())
    + [Finish]
  }

  // ---------------------------------------------------------------------------------------------
  // Which rows the remaining statements are about

  function RowNumbers(rows: seq<Row>): (s: seq<nat>)
    ensures |s| == |rows| && forall i | 0 <= i < |s| :: s[i] == rows[i].number
  {
    seq(|rows|, i requires 0 <= i < |rows| => rows[i].number)
  }

  function ActionNumbers(a: Action): seq<nat> {
    match a
    case Log(n, _) => [n]
    case InsertMany(rows) => RowNumbers(rows)
    case InsertOne(row) => [row.number]
    case Finish => []
  }

  function Numbers(todo: seq<Action>): seq<nat> {
    if todo == [] then [] else ActionNumbers(todo[0]) + Numbers(todo[1..])
  }

  lemma {:induction false} NumbersAppend(a: seq<Action>, b: seq<Action>)
    ensures Numbers(a + b) == Numbers(a) + Numbers(b)
  {
    if a == [] {
      assert a + b == b;
    } else {
      assert (a + b)[1..] == a[1..] + b;
      NumbersAppend(a[1..], b);
    }
  }

  lemma {:induction false} NumbersSingles(rows: seq<Row>)
    ensures Numbers(Singles(rows)) == RowNumbers(rows)
  {
    if rows != [] {
      assert Singles(rows)[1..] == Singles(rows[1..]);
      NumbersSingles(rows[1..]);
      assert RowNumbers(rows) == [rows[0].number] + RowNumbers(rows[1..]);
    }
  }

  lemma {:induction false} NumbersSubBatches(rows: seq<Row>, sub: nat)
    requires sub > 0
    ensures Numbers(SubBatches(rows, sub)) == RowNumbers(rows)
    decreases |rows|
  {
    if |rows| <= sub {
      if rows != [] { assert Numbers([InsertMany(rows)]) == RowNumbers(rows) + Numbers([]); }
    } else {
      NumbersSubBatches(rows[sub..], sub);
      var p := SubBatches(rows, sub);
      assert p[0] == InsertMany(rows[..sub]) && p[1..] == SubBatches(rows[sub..], sub);
      assert RowNumbers(rows) == RowNumbers(rows[..sub]) + RowNumbers(rows[sub..]);
    }
  }

  /** Each number of the range `lo + 1 .. hi` occurs, and once only. */
  ghost predicate Covers(s: seq<nat>, lo: nat, hi: nat) {
    Distinct(s) && forall n :: n in s <==> lo < n <= hi
  }

  lemma {:induction false} RangeNumbers(cfg: Config, lo: nat, hi: nat)
    requires lo <= hi <= cfg.Total()
    ensures Covers(Numbers(FaultyLogs(cfg, lo, hi)) + RowNumbers(ValidRows(cfg, lo, hi)), lo, hi)
    decreases hi - lo
  {
    if lo < hi {
      RangeNumbers(cfg, lo + 1, hi);
      if cfg.records[lo].Faulty? { FaultyNumber(cfg, lo, hi); } else { ValidNumber(cfg, lo, hi); }
    }
  }

  lemma FaultyNumber(cfg: Config, lo: nat, hi: nat)
    requires lo < hi <= cfg.Total() && cfg.records[lo].Faulty?
    requires Covers(Numbers(FaultyLogs(cfg, lo + 1, hi)) + RowNumbers(ValidRows(cfg, lo + 1, hi)), lo + 1, hi)
    ensures Covers(Numbers(FaultyLogs(cfg, lo, hi)) + RowNumbers(ValidRows(cfg, lo, hi)), lo, hi)
  {
    var p, logs := FaultyLogs(cfg, lo, hi), FaultyLogs(cfg, lo + 1, hi);
    var s := Numbers(logs) + RowNumbers(ValidRows(cfg, lo + 1, hi));
    assert p[0] == Log(lo + 1, Invalids(cfg.records[lo].rules)) && p[1..] == logs;
    assert Numbers(p) == [lo + 1] + Numbers(logs);
    CoversPrepend(s, lo, hi);
    assert [lo + 1] + Numbers(logs) + RowNumbers(ValidRows(cfg, lo, hi)) == [lo + 1] + s;
  }

  lemma ValidNumber(cfg: Config, lo: nat, hi: nat)
    requires lo < hi <= cfg.Total() && cfg.records[lo].Valid?
    requires Covers(Numbers(FaultyLogs(cfg, lo + 1, hi)) + RowNumbers(ValidRows(cfg, lo + 1, hi)), lo + 1, hi)
    ensures Covers(Numbers(FaultyLogs(cfg, lo, hi)) + RowNumbers(ValidRows(cfg, lo, hi)), lo, hi)
  {
    var logs, rows := FaultyLogs(cfg, lo + 1, hi), ValidRows(cfg, lo + 1, hi);
    assert FaultyLogs(cfg, lo, hi) == logs;
    assert RowNumbers(ValidRows(cfg, lo, hi)) == [lo + 1] + RowNumbers(rows);
    CoversMore(Numbers(logs), RowNumbers(rows), lo, hi);
  }

  lemma CoversPrepend(s: seq<nat>, lo: nat, hi: nat)
    requires Covers(s, lo + 1, hi) && lo < hi
    ensures Covers([lo + 1] + s, lo, hi)
  {
    var t := [lo + 1] + s;
    forall i, j | 0 <= i < j < |t| ensures t[i] != t[j] {
      assert t[j] == s[j - 1] && s[j - 1] in s;
      if i > 0 { assert t[i] == s[i - 1]; }
    }
    assert forall m :: m in t <==> m == lo + 1 || m in s;
  }

  lemma CoversMore(a: seq<nat>, b: seq<nat>, lo: nat, hi: nat)
    requires Covers(a + b, lo + 1, hi) && lo < hi
    ensures Covers(a + ([lo + 1] + b), lo, hi)
  {
    var s, t := a + ([lo + 1] + b), a + b;
    forall i, j | 0 <= i < j < |s| ensures s[i] != s[j] {
      var x, y := if i < |a| then i else i - 1, if j < |a| then j else j - 1;
      if i != |a| { assert s[i] == t[x] && t[x] in t; }
      if j != |a| { assert s[j] == t[y] && t[y] in t; }
      assert lo + 1 !in t;
    }
    forall m ensures m in s <==> m == lo + 1 || m in t {
      assert m in s <==> m in a || m in [lo + 1] + b;
      assert m in [lo + 1] + b <==> m == lo + 1 || m in b;
      assert m in t <==> m in a || m in b;
    }
    assert Distinct(s);
    assert forall m :: m in s <==> lo < m <= hi;
  }

  lemma ProgramNumbers(cfg: Config, c: nat)
    requires cfg.WellFormed() && c < cfg.ChunkCount()
    ensures Distinct(Numbers(Program(cfg, c)))
    ensures forall n :: n in Numbers(Program(cfg, c)) <==> cfg.InChunk(n, c)
  {
    ChunkStartWithin(cfg, c);
    var lo, hi := cfg.Start(c), cfg.End(c);
    var logs, batches := FaultyLogs(cfg, lo, hi), SubBatches(ValidRows(cfg, lo, hi), cfg.SubBatch());
    RangeNumbers(cfg, lo, hi);
    NumbersSubBatches(ValidRows(cfg, lo, hi), cfg.SubBatch());
    NumbersAppend(logs, batches);
    NumbersAppend(logs + batches, [Finish]);
    assert Numbers([Finish]) == [];
    assert Numbers(logs + batches) + [] == Numbers(logs + batches);
  }

  // ---------------------------------------------------------------------------------------------
  // A chunk's statements end with `chunkDone`

  predicate EndsInFinish(todo: seq<Action>) {
    && |todo| > 0 && todo[|todo| - 1].Finish?
    && forall i | 0 <= i < |todo| - 1 :: !todo[i].Finish?
  }

  lemma {:induction false} SubBatchesNoFinish(rows: seq<Row>, sub: nat)
    requires sub > 0
    ensures forall i | 0 <= i < |SubBatches(rows, sub)| :: !SubBatches(rows, sub)[i].Finish?
    decreases |rows|
  {
    if |rows| > sub { SubBatchesNoFinish(rows[sub..], sub); }
  }

  lemma {:induction false} LogsNoFinish(cfg: Config, lo: nat, hi: nat)
    requires lo <= hi <= cfg.Total()
    ensures forall i | 0 <= i < |FaultyLogs(cfg, lo, hi)| :: !FaultyLogs(cfg, lo, hi)[i].Finish?
    decreases hi - lo
  {
    if lo < hi { LogsNoFinish(cfg, lo + 1, hi); }
  }

  lemma ProgramEnds(cfg: Config, c: nat)
    requires cfg.WellFormed() && c < cfg.ChunkCount()
    ensures EndsInFinish(Program(cfg, c))
  {
    ChunkStartWithin(cfg, c);
    LogsNoFinish(cfg, cfg.Start(c), cfg.End(c));
    SubBatchesNoFinish(ValidRows(cfg, cfg.Start(c), cfg.End(c)), cfg.SubBatch());
  }
}
