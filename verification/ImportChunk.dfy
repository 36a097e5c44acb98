/** `processChunk`: validate a chunk's rows, stage the good ones in sub-batches, fall back to single rows
    where a sub-batch is refused (services/worker-core/src/handlers/bulkImport.ts:138-220). */
module ImportChunk {
  import opened Staging
  import opened StagingDb
  import opened ImportPlan
  import opened ImportRun

  /** Error records of the rows numbered `lo + 1 .. hi` that do not pass their own rules. */
  function FaultyRecords(cfg: Config, lo: nat, hi: nat): seq<ErrorRecord>
    requires lo <= hi <= cfg.Total()
    decreases hi - lo
  {
    if lo == hi then []
    else
      var rest := FaultyRecords(cfg, lo + 1, hi);
      match cfg.records[lo]
      case Faulty(rules) => RecordsOf(lo + 1, rules) + rest
      case Valid(_) => rest
  }

  function RecordsOf(number: nat, rules: seq<string>): (r: seq<ErrorRecord>)
    ensures |r| == |rules|
  {
    seq(|rules|, i requires 0 <= i < |rules| => ErrorRecord(number, InvalidField(rules[i])))
  }

  /** The control-plane rows a chunk writes to. */
  class Report {
    var errors: seq<ErrorRecord>
    var remaining: int
    var errorCount: nat
    var failed: set<nat> // chunks with status 'failed'

    constructor (chunkCount: nat)
      ensures errors == [] && remaining == chunkCount && errorCount == 0 && failed == {}
    {
      errors, remaining, errorCount, failed := [], chunkCount, 0, {};
    }

    method ChunkFailed(c: nat)
      modifies `failed
      ensures failed == old(failed) + {c}
    {
      failed := failed + {c};
    }

    method RecordRowErrors(records: seq<ErrorRecord>)
      modifies `errors
      ensures errors == old(errors) + records
    {
      errors := errors + records;
    }

    method ChunkDone(newErrors: nat)
      modifies `remaining, `errorCount
      ensures remaining == old(remaining) - 1 && errorCount == old(errorCount) + newErrors
    {
      remaining := remaining - 1;
      errorCount := errorCount + newErrors;
    }
  }

  lemma Shift<T>(a: seq<T>, b: seq<T>, c: seq<T>)
    ensures a + (b + c) == (a + b) + c
  {
  }

  /** Phase 1. */
  method Validate(cfg: Config, c: nat, report: Report) returns (valid: seq<Row>, errors: nat)
    requires cfg.WellFormed() && c < cfg.ChunkCount()
    modifies report`errors
    ensures cfg.Start(c) <= cfg.End(c) <= cfg.Total()
    ensures valid == ValidRows(cfg, cfg.Start(c), cfg.End(c))
    ensures report.errors == old(report.errors) + FaultyRecords(cfg, cfg.Start(c), cfg.End(c))
    ensures errors == |FaultyRecords(cfg, cfg.Start(c), cfg.End(c))|
  {
    ChunkStartWithin(cfg, c);
    var end := cfg.End(c);
    valid, errors := [], 0;
    var r := cfg.Start(c);
    ghost var log: seq<ErrorRecord> := [];
    assert report.errors + log == report.errors;
    while r < end
      invariant cfg.Start(c) <= r <= end
      invariant valid + ValidRows(cfg, r, end) == ValidRows(cfg, cfg.Start(c), end)
      invariant log + FaultyRecords(cfg, r, end) == FaultyRecords(cfg, cfg.Start(c), end)
      invariant report.errors == old(report.errors) + log && errors == |log|
    {
      match cfg.records[r] {
        case Faulty(rules) =>
          var records := RecordsOf(r + 1, rules);
          report.RecordRowErrors(records);
          errors := errors + |rules|;
          Shift(log, records, FaultyRecords(cfg, r + 1, end));
          Shift(old(report.errors), log, records);
          log := log + records;
        case Valid(cells) =>
          Shift(valid, [Row(r + 1, cells)], ValidRows(cfg, r + 1, end));
          valid := valid + [Row(r + 1, cells)];
      }
      r := r + 1;
    }
    assert valid + [] == valid && log + [] == log;
  }

  /** Statements on the target that fail for another reason than uniqueness or data: the multi-row INSERT that begins
      with a row, the single INSERT of a row, by the row's place among the valid ones. */
  datatype Outage = Outage(many: nat -> bool, one: nat -> bool)

  /** Rows `from` to `upTo` have been inserted one at a time in effect, after `was`. */
  ghost predicate Inserted(was: seq<Row>, rows: seq<Row>, schema: Schema, now: seq<Row>, processed: nat, log: seq<ErrorRecord>) {
    InsertEach(was, rows, schema) == Batch(now, processed, log)
  }

  lemma InsertedMore(was: seq<Row>, rows: seq<Row>, i: nat, n: nat, schema: Schema, mid: seq<Row>, processed: nat, log: seq<ErrorRecord>,
                     now: seq<Row>, p: nat, more: seq<ErrorRecord>)
    requires i <= n <= |rows| && Inserted(was, rows[..i], schema, mid, processed, log)
    requires Inserted(mid, rows[i..n], schema, now, p, more)
    ensures Inserted(was, rows[..n], schema, now, processed + p, log + more)
  {
    assert rows[..n] == rows[..i] + rows[i..n];
    InsertEachAppend(was, rows[..i], rows[i..n], schema);
  }

  lemma InsertedNext(was: seq<Row>, rows: seq<Row>, i: nat, k: nat, schema: Schema, mid: seq<Row>, processed: nat, log: seq<ErrorRecord>,
                     now: seq<Row>, p: nat, more: seq<ErrorRecord>)
    requires i <= k < |rows| && Inserted(was, rows[i..k], schema, mid, processed, log)
    requires Inserted(mid, [rows[k]], schema, now, p, more)
    ensures Inserted(was, rows[i..k + 1], schema, now, processed + p, log + more)
  {
    assert rows[i..k + 1] == rows[i..k] + [rows[k]];
    InsertEachAppend(was, rows[i..k], [rows[k]], schema);
  }

  lemma InsertedOne(table: seq<Row>, row: Row, schema: Schema)
    ensures match Try(table, row, schema)
            case Stored => Inserted(table, [row], schema, table + [row], 1, [])
            case Rejected(rule) => Inserted(table, [row], schema, table, 0, [ErrorRecord(row.number, rule)])
  {
    assert [row][1..] == [];
  }

  /** One row of the fallback. */
  method InsertRow(staging: StagingTable, row: Row, report: Report) returns (stored: bool, ghost log: seq<ErrorRecord>)
    modifies staging, report`errors
    ensures Inserted(old(staging.rows), [row], staging.schema, staging.rows, if stored then 1 else 0, log)
    ensures report.errors == old(report.errors) + log && |log| == if stored then 0 else 1
  {
    InsertedOne(staging.rows, row, staging.schema);
    var v := staging.InsertOne(row);
    match v {
      case Stored =>
        stored, log := true, [];
        assert report.errors + [] == report.errors;
      case Rejected(rule) =>
        stored, log := false, [ErrorRecord(row.number, rule)];
        report.RecordRowErrors([ErrorRecord(row.number, rule)]);
    }
  }

  /** The fallback for one refused sub-batch, rows `i` to `n`: one statement for each, up to an outage. */
  method InsertRows(staging: StagingTable, valid: seq<Row>, i: nat, n: nat, report: Report, outage: Outage)
    returns (processed: nat, errors: nat, thrown: bool, ghost upTo: nat, ghost log: seq<ErrorRecord>)
    requires i <= n <= |valid|
    modifies staging, report`errors
    ensures i <= upTo <= n && (!thrown ==> upTo == n)
    ensures Inserted(old(staging.rows), valid[i..upTo], staging.schema, staging.rows, processed, log)
    ensures report.errors == old(report.errors) + log && errors == |log|
  {
    processed, errors, thrown, log := 0, 0, false, [];
    var k := i;
    assert report.errors + log == report.errors && valid[i..i] == [];
    while k < n
      invariant i <= k <= n && report.errors == old(report.errors) + log && errors == |log|
      invariant Inserted(old(staging.rows), valid[i..k], staging.schema, staging.rows, processed, log)
    {
      if outage.one(k) {
        thrown, upTo := true, k;
        return;
      }
      ghost var mid := staging.rows;
      var stored, more := InsertRow(staging, valid[k], report);
      InsertedNext(old(staging.rows), valid, i, k, staging.schema, mid, processed, log,
                   staging.rows, if stored then 1 else 0, more);
      Shift(old(report.errors), log, more);
      if stored { processed := processed + 1; } else { errors := errors + 1; }
      log := log + more;
      k := k + 1;
    }
    upTo := n;
  }

  /** One sub-batch: the multi-row INSERT, or if it is refused its rows one at a time. */
  method StageOne(staging: StagingTable, valid: seq<Row>, i: nat, n: nat, report: Report, outage: Outage)
    returns (processed: nat, errors: nat, thrown: bool, ghost upTo: nat, ghost log: seq<ErrorRecord>)
    requires i <= n <= |valid| && (n - i > 1 ==> (n - i) * staging.width <= staging.maxBindParams - 1)
    modifies staging, report`errors
    ensures i <= upTo <= n && (!thrown ==> upTo == n)
    ensures Inserted(old(staging.rows), valid[i..upTo], staging.schema, staging.rows, processed, log)
    ensures report.errors == old(report.errors) + log && errors == |log|
  {
    assert report.errors + [] == report.errors && valid[i..i] == [];
    if outage.many(i) {
      processed, errors, thrown, upTo, log := 0, 0, true, i, [];
      return;
    }
    var ok := staging.InsertMany(valid[i..n]);
    if ok {
      FittingBatch(old(staging.rows), valid[i..n], staging.schema);
      processed, errors, thrown, upTo, log := n - i, 0, false, n, [];
    } else {
      processed, errors, thrown, upTo, log := InsertRows(staging, valid, i, n, report, outage);
    }
  }

  /** Phase 2. For every sub-batch size, and however far it comes, the effect is that of inserting the rows one at a
      time. */
  method Stage(staging: StagingTable, valid: seq<Row>, sub: nat, report: Report, outage: Outage)
    returns (processed: nat, errors: nat, thrown: bool, ghost upTo: nat, ghost log: seq<ErrorRecord>)
    requires sub > 0 && (forall n | 1 < n <= sub :: n * staging.width <= staging.maxBindParams - 1)
    modifies staging, report`errors
    ensures upTo <= |valid| && (!thrown ==> upTo == |valid|)
    ensures Inserted(old(staging.rows), valid[..upTo], staging.schema, staging.rows, processed, log)
    ensures report.errors == old(report.errors) + log && errors == |log|
  {
    processed, errors, thrown, upTo, log := 0, 0, false, 0, [];
    assert report.errors + log == report.errors && valid[..0] == [];
    var i := 0;
    while i < |valid| && !thrown
      invariant 0 <= i <= |valid| && upTo <= |valid| && (!thrown ==> upTo == i)
      invariant Inserted(old(staging.rows), valid[..upTo], staging.schema, staging.rows, processed, log)
      invariant report.errors == old(report.errors) + log && errors == |log|
      decreases |valid| - i, !thrown
    {
      var n := if i + sub < |valid| then i + sub else |valid|;
      ghost var mid, before, more := staging.rows, log, log;
      var p, e;
      p, e, thrown, upTo, more := StageOne(staging, valid, i, n, report, outage);
      InsertedMore(old(staging.rows), valid, i, upTo, staging.schema, mid, processed, before, staging.rows, p, more);
      Shift(old(report.errors), before, more);
      processed, errors, log := processed + p, errors + e, before + more;
      if !thrown { i := n; }
    }
    assert valid[..|valid|] == valid;
  }

  /** A row that does not fit on its own is still tried, by itself. */
  lemma WideRowsGoAlone(maxBindParams: nat, colCount: nat)
    requires colCount > 0
    ensures colCount > maxBindParams - 1 ==> SubBatchSize(maxBindParams, colCount) == 1
  {
    if maxBindParams > 0 { DivBounds(maxBindParams - 1, colCount); }
  }

  /** The whole chunk. When it throws, what it has staged and reported so far stays, the chunk is marked failed, and the
      batch row does not hear of it. */
  method ProcessChunk(cfg: Config, c: nat, staging: StagingTable, report: Report, outage: Outage)
    returns (processed: nat, errors: nat, thrown: bool, ghost upTo: nat)
    requires cfg.WellFormed() && c < cfg.ChunkCount()
    requires staging.schema == cfg.schema && staging.maxBindParams == cfg.maxBindParams && staging.width == cfg.columns + 1
    modifies staging, report
    ensures cfg.Start(c) <= cfg.End(c) <= cfg.Total()
    ensures var valid := ValidRows(cfg, cfg.Start(c), cfg.End(c));
      && upTo <= |valid| && (!thrown ==> upTo == |valid|)
      && var b := InsertEach(old(staging.rows), valid[..upTo], cfg.schema);
         var log := FaultyRecords(cfg, cfg.Start(c), cfg.End(c)) + b.errors;
         && staging.rows == b.table && report.errors == old(report.errors) + log
         && processed == b.staged && errors == |log|
    ensures if thrown
            then report.remaining == old(report.remaining) && report.errorCount == old(report.errorCount) && report.failed == old(report.failed) + {c}
            else report.remaining == old(report.remaining) - 1 && report.errorCount == old(report.errorCount) + errors && report.failed == old(report.failed)
  {
    var valid, faults := Validate(cfg, c, report);
    forall n | 1 < n <= cfg.SubBatch() ensures n * staging.width <= staging.maxBindParams - 1 {
      WideRowsGoAlone(cfg.maxBindParams, cfg.columns + 1);
      SubBatchFits(cfg.maxBindParams, cfg.columns + 1, n);
    }
    ghost var found := FaultyRecords(cfg, cfg.Start(c), cfg.End(c));
    var rejects;
    ghost var log;
    processed, rejects, thrown, upTo, log := Stage(staging, valid, cfg.SubBatch(), report, outage);
    Shift(old(report.errors), found, log);
    errors := faults + rejects;
    if thrown { report.ChunkFailed(c); } else { report.ChunkDone(errors); }
  }

  // ---------------------------------------------------------------------------------------------
  // The machine's chunk program, run without interference, does the same

  /** All statements up to `chunkDone`, with no other worker in between. */
  datatype Ran = Ran(table: seq<Row>, staged: nat, errors: seq<ErrorRecord>)

  function Execute(schema: Schema, table: seq<Row>, todo: seq<Action>): Ran
    requires EndsInFinish(todo)
    decreases TotalCost(todo)
  {
    if todo[0].Finish? then Ran(table, 0, [])
    else
      PerformCheaper(schema, table, todo);
      var e := Perform(schema, table, todo);
      var r := Execute(schema, e.table, e.todo);
      Ran(r.table, e.staged + r.staged, e.log + r.errors)
  }

  lemma ExecuteStep(schema: Schema, table: seq<Row>, todo: seq<Action>)
    requires EndsInFinish(todo) && !todo[0].Finish?
    ensures var e := Perform(schema, table, todo);
      && EndsInFinish(e.todo)
      && var r := Execute(schema, e.table, e.todo);
         Execute(schema, table, todo) == Ran(r.table, e.staged + r.staged, e.log + r.errors)
  {
    PerformCheaper(schema, table, todo);
  }

  lemma EndsAppend(a: seq<Action>, rest: seq<Action>)
    requires EndsInFinish(rest) && forall i | 0 <= i < |a| :: !a[i].Finish?
    ensures EndsInFinish(a + rest)
  {
  }

  lemma {:induction false} ExecuteLogs(cfg: Config, table: seq<Row>, lo: nat, hi: nat, rest: seq<Action>)
    requires lo <= hi <= cfg.Total() && EndsInFinish(rest)
    ensures EndsInFinish(FaultyLogs(cfg, lo, hi) + rest)
    ensures var r := Execute(cfg.schema, table, rest);
            Execute(cfg.schema, table, FaultyLogs(cfg, lo, hi) + rest) == r.(errors := FaultyRecords(cfg, lo, hi) + r.errors)
    decreases hi - lo
  {
    LogsNoFinish(cfg, lo, hi);
    EndsAppend(FaultyLogs(cfg, lo, hi), rest);
    if lo == hi {
      assert [] + rest == rest && [] + Execute(cfg.schema, table, rest).errors == Execute(cfg.schema, table, rest).errors;
    } else {
      ExecuteLogs(cfg, table, lo + 1, hi, rest);
      if cfg.records[lo].Faulty? { ExecuteFaulty(cfg, table, lo, hi, rest); }
    }
  }

  lemma ExecuteFaulty(cfg: Config, table: seq<Row>, lo: nat, hi: nat, rest: seq<Action>)
    requires lo < hi <= cfg.Total() && EndsInFinish(rest) && cfg.records[lo].Faulty?
    requires EndsInFinish(FaultyLogs(cfg, lo + 1, hi) + rest) && EndsInFinish(FaultyLogs(cfg, lo, hi) + rest)
    requires var r := Execute(cfg.schema, table, rest);
      Execute(cfg.schema, table, FaultyLogs(cfg, lo + 1, hi) + rest) == r.(errors := FaultyRecords(cfg, lo + 1, hi) + r.errors)
    ensures var r := Execute(cfg.schema, table, rest);
      Execute(cfg.schema, table, FaultyLogs(cfg, lo, hi) + rest) == r.(errors := FaultyRecords(cfg, lo, hi) + r.errors)
  {
    var rules, tail := cfg.records[lo].rules, FaultyLogs(cfg, lo + 1, hi) + rest;
    Shift([Log(lo + 1, Invalids(rules))], FaultyLogs(cfg, lo + 1, hi), rest);
    ExecuteLog(cfg.schema, table, lo + 1, rules, tail);
    Shift(RecordsOf(lo + 1, rules), FaultyRecords(cfg, lo + 1, hi), Execute(cfg.schema, table, rest).errors);
  }

  lemma ExecuteLog(schema: Schema, table: seq<Row>, n: nat, rules: seq<string>, tail: seq<Action>)
    requires EndsInFinish(tail)
    ensures EndsInFinish([Log(n, Invalids(rules))] + tail)
    ensures var r := Execute(schema, table, tail);
            Execute(schema, table, [Log(n, Invalids(rules))] + tail) == r.(errors := RecordsOf(n, rules) + r.errors)
  {
    var todo := [Log(n, Invalids(rules))] + tail;
    assert todo[1..] == tail;
    ExecuteStep(schema, table, todo);
    assert Perform(schema, table, todo).log == RecordsOf(n, rules);
  }

  /** `r` follows a batch: the batch's rows and records come first. */
  function After(b: Batch, r: Ran): Ran {
    Ran(r.table, b.staged + r.staged, b.errors + r.errors)
  }

  lemma {:induction false} ExecuteSingles(schema: Schema, table: seq<Row>, rows: seq<Row>, rest: seq<Action>)
    requires EndsInFinish(rest)
    ensures EndsInFinish(Singles(rows) + rest)
    ensures var b := InsertEach(table, rows, schema);
            Execute(schema, table, Singles(rows) + rest) == After(b, Execute(schema, b.table, rest))
    decreases rows
  {
    EndsAppend(Singles(rows), rest);
    if rows == [] {
      assert Singles(rows) + rest == rest;
      assert [] + Execute(schema, table, rest).errors == Execute(schema, table, rest).errors;
    } else {
      var tail := Singles(rows[1..]) + rest;
      EndsAppend(Singles(rows[1..]), rest);
      assert Singles(rows) + rest == [InsertOne(rows[0])] + tail;
      assert ([InsertOne(rows[0])] + tail)[1..] == tail;
      ExecuteSingle(schema, table, rows[0], tail);
      var one := InsertEach(table, [rows[0]], schema);
      ExecuteSingles(schema, one.table, rows[1..], rest);
      InsertEachAppend(table, [rows[0]], rows[1..], schema);
      assert rows == [rows[0]] + rows[1..];
      var b := InsertEach(one.table, rows[1..], schema);
      AfterAfter(one, b, Execute(schema, b.table, rest));
    }
  }

  lemma AfterAfter(a: Batch, b: Batch, r: Ran)
    ensures After(a, After(b, r)) == After(Batch(b.table, a.staged + b.staged, a.errors + b.errors), r)
  {
    assert a.errors + (b.errors + r.errors) == a.errors + b.errors + r.errors;
  }

  lemma ExecuteSingle(schema: Schema, table: seq<Row>, row: Row, tail: seq<Action>)
    requires EndsInFinish(tail)
    ensures EndsInFinish([InsertOne(row)] + tail)
    ensures var one := InsertEach(table, [row], schema);
            Execute(schema, table, [InsertOne(row)] + tail) == After(one, Execute(schema, one.table, tail))
  {
    var todo, r := [InsertOne(row)] + tail, Execute(schema, table, tail);
    assert todo[1..] == tail;
    ExecuteStep(schema, table, todo);
    match Try(table, row, schema)
    case Stored =>
      var s := Execute(schema, table + [row], tail);
      assert InsertEach(table, [row], schema) == Batch(table + [row], 1, []);
      assert [] + s.errors == s.errors;
    case Rejected(rule) =>
      var logged := [Log(row.number, [rule])] + tail;
      assert logged[1..] == tail;
      ExecuteStep(schema, table, logged);
      assert Perform(schema, table, logged).log == [ErrorRecord(row.number, rule)];
      assert [] + ([ErrorRecord(row.number, rule)] + r.errors) == [ErrorRecord(row.number, rule)] + r.errors;
      assert InsertEach(table, [row], schema) == Batch(table, 0, [ErrorRecord(row.number, rule)]);
  }

  lemma ExecuteSubBatch(schema: Schema, table: seq<Row>, rows: seq<Row>, rest: seq<Action>)
    requires EndsInFinish(rest)
    ensures EndsInFinish([InsertMany(rows)] + rest)
    ensures var b := InsertEach(table, rows, schema);
            Execute(schema, table, [InsertMany(rows)] + rest) == After(b, Execute(schema, b.table, rest))
  {
    var todo := [InsertMany(rows)] + rest;
    assert todo[1..] == rest;
    ExecuteStep(schema, table, todo);
    if Fits(table, rows, schema) {
      FittingBatch(table, rows, schema);
    } else {
      ExecuteSingles(schema, table, rows, rest);
      var r := Execute(schema, table, Singles(rows) + rest);
      assert [] + r.errors == r.errors;
    }
  }

  lemma {:induction false} ExecuteSubBatches(schema: Schema, table: seq<Row>, rows: seq<Row>, sub: nat, rest: seq<Action>)
    requires EndsInFinish(rest) && sub > 0
    ensures EndsInFinish(SubBatches(rows, sub) + rest)
    ensures var b := InsertEach(table, rows, schema);
            Execute(schema, table, SubBatches(rows, sub) + rest) == After(b, Execute(schema, b.table, rest))
    decreases |rows|
  {
    SubBatchesNoFinish(rows, sub);
    EndsAppend(SubBatches(rows, sub), rest);
    if rows == [] {
      assert SubBatches(rows, sub) + rest == rest;
      assert [] + Execute(schema, table, rest).errors == Execute(schema, table, rest).errors;
    } else if |rows| <= sub {
      ExecuteSubBatch(schema, table, rows, rest);
    } else {
      var head, tail := rows[..sub], SubBatches(rows[sub..], sub) + rest;
      assert SubBatches(rows, sub) + rest == [InsertMany(head)] + tail;
      var one := InsertEach(table, head, schema);
      ExecuteSubBatches(schema, one.table, rows[sub..], sub, rest);
      ExecuteSubBatch(schema, table, head, tail);
      InsertEachAppend(table, head, rows[sub..], schema);
      assert rows == head + rows[sub..];
      var b := InsertEach(one.table, rows[sub..], schema);
      AfterAfter(one, b, Execute(schema, b.table, rest));
    }
  }

  /** The statements of one chunk, run undisturbed, for every sub-batch size: the same staging table,
      the same count and the same error records as validating the rows and inserting them one by one,
      which is also what `ProcessChunk` does. */
  lemma FallbackIsRowByRow(cfg: Config, c: nat, table: seq<Row>)
    requires cfg.WellFormed() && c < cfg.ChunkCount()
    ensures cfg.Start(c) <= cfg.End(c) <= cfg.Total() && EndsInFinish(Program(cfg, c))
    ensures var b := InsertEach(table, ValidRows(cfg, cfg.Start(c), cfg.End(c)), cfg.schema);
            Execute(cfg.schema, table, Program(cfg, c)) ==
            Ran(b.table, b.staged, FaultyRecords(cfg, cfg.Start(c), cfg.End(c)) + b.errors)
  {
    ChunkStartWithin(cfg, c);
    ProgramEnds(cfg, c);
    var lo, hi := cfg.Start(c), cfg.End(c);
    var batches := SubBatches(ValidRows(cfg, lo, hi), cfg.SubBatch());
    assert EndsInFinish([Finish]);
    ExecuteSubBatches(cfg.schema, table, ValidRows(cfg, lo, hi), cfg.SubBatch(), [Finish]);
    ExecuteLogs(cfg, table, lo, hi, batches + [Finish]);
    assert Program(cfg, c) == FaultyLogs(cfg, lo, hi) + (batches + [Finish]);
    var b := InsertEach(table, ValidRows(cfg, lo, hi), cfg.schema);
    assert b.errors + [] == b.errors;
  }
}
