/** Uniqueness enforced by the database while chunks race each other: with one business key the keys
    staged, the number of rows staged and the number of error records of each kind do not depend on the
    schedule (services/worker-core/src/handlers/bulkImport.ts:61-73). */
module ImportKeys {
  import opened Staging
  import opened ImportPlan
  import opened ImportRun
  import opened ImportHandout
  import opened ImportRows
  import opened ImportCounts
  import opened ImportTally

  /** The one unique column. */
  predicate SingleKey(cfg: Config, col: nat) {
    cfg.schema.unique == {col}
  }

  function KeyOf(cells: seq<Cell>, col: nat): Cell {
    if col < |cells| then cells[col] else Null
  }

  /** Row numbers of the source rows that are acceptable on their own. */
  function Acceptable(cfg: Config): set<nat> {
    set n | 0 < n <= cfg.Total() && cfg.IsValid(n) && !cfg.schema.bad(cfg.RowOf(n))
  }

  function Keyless(cfg: Config, col: nat): set<nat> {
    set n | n in Acceptable(cfg) && KeyOf(cfg.RowOf(n).cells, col) == Null
  }

  /** The distinct keys of the acceptable source rows. */
  function SourceKeys(cfg: Config, col: nat): set<Cell> {
    set n | n in Acceptable(cfg) && KeyOf(cfg.RowOf(n).cells, col) != Null :: KeyOf(cfg.RowOf(n).cells, col)
  }

  function TableKeys(table: seq<Row>, col: nat): set<Cell> {
    set i | 0 <= i < |table| && KeyOf(table[i].cells, col) != Null :: KeyOf(table[i].cells, col)
  }

  lemma CollideIffSameKey(a: seq<Cell>, b: seq<Cell>, col: nat)
    ensures Collide(a, b, {col}) <==> KeyOf(a, col) != Null && KeyOf(a, col) == KeyOf(b, col)
  {
    assert Collide(a, b, {col}) <==> SameKey(a, b, col);
  }

  lemma StagedIsAcceptable(cfg: Config, table: seq<Row>, n: nat)
    requires TableOk(cfg, table) && Staged(table, n)
    ensures n in Acceptable(cfg)
  {
    var i :| 0 <= i < |table| && table[i].number == n;
  }

  /** The key of an acceptable row is staged; if it has none, the row itself is. */
  lemma AcceptableIsCovered(cfg: Config, col: nat, s: State, n: nat)
    requires cfg.WellFormed() && SingleKey(cfg, col) && Reachable(cfg, s) && Proceeds(s) && n in Acceptable(cfg)
    ensures KeyOf(cfg.RowOf(n).cells, col) != Null ==> KeyOf(cfg.RowOf(n).cells, col) in TableKeys(s.table, col)
    ensures KeyOf(cfg.RowOf(n).cells, col) == Null ==> Staged(s.table, n)
  {
    RowAccounting(cfg, s);
    var cells := cfg.RowOf(n).cells;
    if Staged(s.table, n) {
      var i :| 0 <= i < |s.table| && s.table[i].number == n;
      assert s.table[i] == cfg.RowOf(n);
    } else {
      var e :| 0 <= e < |s.errors| && s.errors[e].number == n;
      assert Justified(cfg, s.table, n, s.errors[e].rule);
      var i :| 0 <= i < |s.table| && Collide(s.table[i].cells, cells, {col});
      CollideIffSameKey(s.table[i].cells, cells, col);
    }
  }

  /** The staged keys are the distinct keys of the acceptable rows, and the staged rows without a key
      are all the acceptable rows without one. */
  lemma StagedKeys(cfg: Config, col: nat, s: State)
    requires cfg.WellFormed() && SingleKey(cfg, col) && Reachable(cfg, s) && Proceeds(s)
    ensures TableKeys(s.table, col) == SourceKeys(cfg, col)
    ensures forall n :: n in Keyless(cfg, col) <==> n in Acceptable(cfg) && Staged(s.table, n) && KeyOf(cfg.RowOf(n).cells, col) == Null
  {
    RowAccounting(cfg, s);
    forall k | k in TableKeys(s.table, col) ensures k in SourceKeys(cfg, col) {
      var i :| 0 <= i < |s.table| && KeyOf(s.table[i].cells, col) != Null && k == KeyOf(s.table[i].cells, col);
      var n := s.table[i].number;
      assert n in Acceptable(cfg) && s.table[i] == cfg.RowOf(n);
    }
    forall n | n in Acceptable(cfg) {
      AcceptableIsCovered(cfg, col, s, n);
    }
  }

  // ---------------------------------------------------------------------------------------------
  // Counting

  /** A table whose rows clash pairwise nowhere has as many rows as keys and keyless numbers. */
  lemma {:induction false} TableSize(table: seq<Row>, schema: Schema, col: nat)
    requires schema.unique == {col} && Consistent(table, schema)
    ensures |table| == |TableKeys(table, col)| + |KeylessNumbers(table, col)|
  {
    if table != [] {
      var init, last := table[..|table| - 1], table[|table| - 1];
      assert Consistent(init, schema);
      TableSize(init, schema, col);
      LastIsNew(table, schema, col);
      if KeyOf(last.cells, col) == Null {
        KeylessGrows(init, last, col);
      } else {
        KeysGrow(init, last, col);
      }
      assert table == init + [last];
    }
  }

  lemma LastIsNew(table: seq<Row>, schema: Schema, col: nat)
    requires schema.unique == {col} && Consistent(table, schema) && table != []
    ensures var init, last := table[..|table| - 1], table[|table| - 1];
            last.number !in KeylessNumbers(init, col) && KeyOf(last.cells, col) !in TableKeys(init, col)
  {
    var init, last := table[..|table| - 1], table[|table| - 1];
    forall i | 0 <= i < |init|
      ensures init[i].number != last.number && (KeyOf(init[i].cells, col) != Null ==> KeyOf(init[i].cells, col) != KeyOf(last.cells, col))
    {
      assert init[i] == table[i] && !Clash(table[i], last, schema);
      CollideIffSameKey(table[i].cells, last.cells, col);
    }
  }

  lemma KeylessGrows(init: seq<Row>, last: Row, col: nat)
    requires KeyOf(last.cells, col) == Null
    ensures TableKeys(init + [last], col) == TableKeys(init, col)
    ensures KeylessNumbers(init + [last], col) == KeylessNumbers(init, col) + {last.number}
  {
    var t := init + [last];
    assert t[|init|] == last && forall i | 0 <= i < |init| :: t[i] == init[i];
  }

  lemma KeysGrow(init: seq<Row>, last: Row, col: nat)
    requires KeyOf(last.cells, col) != Null
    ensures TableKeys(init + [last], col) == TableKeys(init, col) + {KeyOf(last.cells, col)}
    ensures KeylessNumbers(init + [last], col) == KeylessNumbers(init, col)
  {
    var t := init + [last];
    assert t[|init|] == last && forall i | 0 <= i < |init| :: t[i] == init[i];
  }

  function KeylessNumbers(table: seq<Row>, col: nat): set<nat> {
    set i | 0 <= i < |table| && KeyOf(table[i].cells, col) == Null :: table[i].number
  }

  /** How many rows are staged: one per distinct key, plus every row without a key, whatever the
      schedule. */
  lemma StagedCount(cfg: Config, col: nat, s: State)
    requires cfg.WellFormed() && SingleKey(cfg, col) && Reachable(cfg, s) && Proceeds(s)
    ensures |s.table| == |SourceKeys(cfg, col)| + |Keyless(cfg, col)|
  {
    RowAccounting(cfg, s);
    StagedKeys(cfg, col, s);
    TableSize(s.table, cfg.schema, col);
    forall n ensures n in KeylessNumbers(s.table, col) <==> n in Keyless(cfg, col) {
      if n in KeylessNumbers(s.table, col) {
        var i :| 0 <= i < |s.table| && KeyOf(s.table[i].cells, col) == Null && s.table[i].number == n;
        assert s.table[i] == cfg.RowOf(n) && Staged(s.table, n);
        StagedIsAcceptable(cfg, s.table, n);
      }
      if n in Keyless(cfg, col) {
        var i :| 0 <= i < |s.table| && s.table[i].number == n;
        assert s.table[i] == cfg.RowOf(n);
      }
    }
    assert KeylessNumbers(s.table, col) == Keyless(cfg, col);
  }

  function TableNumbers(table: seq<Row>): set<nat> {
    set i | 0 <= i < |table| :: table[i].number
  }

  lemma {:induction false} NumbersCount(table: seq<Row>, schema: Schema)
    requires Consistent(table, schema)
    ensures |TableNumbers(table)| == |table|
  {
    if table != [] {
      var init, last := table[..|table| - 1], table[|table| - 1];
      assert Consistent(init, schema);
      NumbersCount(init, schema);
      forall i | 0 <= i < |init| ensures init[i].number != last.number {
        assert init[i] == table[i] && !Clash(table[i], last, schema);
      }
      assert TableNumbers(table) == TableNumbers(init) + {last.number} by {
        assert forall i | 0 <= i < |init| :: table[i] == init[i];
      }
    }
  }

  // ---------------------------------------------------------------------------------------------
  // Error records

  /** Row numbers of the valid source rows that are not acceptable. */
  function BadRows(cfg: Config): set<nat> {
    set n | 0 < n <= cfg.Total() && cfg.IsValid(n) && cfg.schema.bad(cfg.RowOf(n))
  }

  function NumbersOf(errors: seq<ErrorRecord>, k: Kind): set<nat> {
    set i | 0 <= i < |errors| && KindOf(errors[i].rule) == k :: errors[i].number
  }

  lemma {:induction false} CountIsNumbers(errors: seq<ErrorRecord>, k: Kind)
    requires OnePerRow(errors) && k != OfField
    ensures Count(errors, k) == |NumbersOf(errors, k)|
    decreases |errors|
  {
    if errors != [] {
      var init, last := errors[..|errors| - 1], errors[|errors| - 1];
      CountIsNumbers(init, k);
      NumbersGrow(init, last, k);
      LastNumberIsNew(errors, k);
      assert errors == init + [last];
    }
  }

  lemma LastNumberIsNew(errors: seq<ErrorRecord>, k: Kind)
    requires OnePerRow(errors) && k != OfField && errors != []
    ensures KindOf(errors[|errors| - 1].rule) == k ==> errors[|errors| - 1].number !in NumbersOf(errors[..|errors| - 1], k)
  {
    var init, last := errors[..|errors| - 1], errors[|errors| - 1];
    forall i | 0 <= i < |init| && KindOf(init[i].rule) == k && KindOf(last.rule) == k ensures init[i].number != last.number {
      assert init[i] == errors[i];
    }
  }

  lemma NumbersGrow(init: seq<ErrorRecord>, last: ErrorRecord, k: Kind)
    ensures NumbersOf(init + [last], k) == NumbersOf(init, k) + (if KindOf(last.rule) == k then {last.number} else {})
  {
    var t := init + [last];
    assert t[|init|] == last && forall i | 0 <= i < |init| :: t[i] == init[i];
  }

  /** A duplicate is reported exactly for the acceptable rows that are not staged. */
  lemma DuplicatesAreUnstaged(cfg: Config, s: State, n: nat)
    requires cfg.WellFormed() && Reachable(cfg, s) && Proceeds(s)
    ensures n in NumbersOf(s.errors, OfKey) <==> n in Acceptable(cfg) && n !in TableNumbers(s.table)
  {
    RowAccounting(cfg, s);
    assert n in TableNumbers(s.table) <==> Staged(s.table, n);
    if n in NumbersOf(s.errors, OfKey) {
      var i :| 0 <= i < |s.errors| && KindOf(s.errors[i].rule) == OfKey && s.errors[i].number == n;
      assert Justified(cfg, s.table, n, s.errors[i].rule) && Logged(s.errors, n);
    }
    if n in Acceptable(cfg) && !Staged(s.table, n) {
      var i :| 0 <= i < |s.errors| && s.errors[i].number == n;
      assert Justified(cfg, s.table, n, s.errors[i].rule);
    }
  }

  lemma DataErrorsAreBad(cfg: Config, s: State, n: nat)
    requires cfg.WellFormed() && Reachable(cfg, s) && Proceeds(s)
    ensures n in NumbersOf(s.errors, OfData) <==> n in BadRows(cfg)
  {
    RowAccounting(cfg, s);
    if n in NumbersOf(s.errors, OfData) {
      var i :| 0 <= i < |s.errors| && KindOf(s.errors[i].rule) == OfData && s.errors[i].number == n;
      assert Justified(cfg, s.table, n, s.errors[i].rule);
    }
    if n in BadRows(cfg) {
      if Staged(s.table, n) { StagedIsAcceptable(cfg, s.table, n); }
      var i :| 0 <= i < |s.errors| && s.errors[i].number == n;
      assert Justified(cfg, s.table, n, s.errors[i].rule);
    }
  }

  lemma NoLookupRecords(cfg: Config, s: State)
    requires cfg.WellFormed() && Reachable(cfg, s) && Proceeds(s)
    ensures NumbersOf(s.errors, OfLookup) == {}
  {
    RowAccounting(cfg, s);
    forall i | 0 <= i < |s.errors| ensures KindOf(s.errors[i].rule) != OfLookup {
      assert Justified(cfg, s.table, s.errors[i].number, s.errors[i].rule);
    }
  }

  /** How many records of each kind an import writes, for any unique columns: one per error of a faulty row, one per
      data error, and one per acceptable row that is not staged. */
  lemma RecordCounts(cfg: Config, s: State)
    requires cfg.WellFormed() && Reachable(cfg, s) && Proceeds(s)
    ensures Count(s.errors, OfField) == FaultsOf(cfg, 0, cfg.Total())
    ensures Count(s.errors, OfData) == |BadRows(cfg)|
    ensures Count(s.errors, OfKey) == |Acceptable(cfg)| - |s.table|
    ensures |s.errors| == FaultsOf(cfg, 0, cfg.Total()) + |BadRows(cfg)| + |Acceptable(cfg)| - |s.table|
  {
    ReachableTally(cfg, s);
    HandoutComplete(cfg, s);
    DoneDue(cfg, s.chunks, |s.chunks|);
    CountIsNumbers(s.errors, OfData);
    CountIsNumbers(s.errors, OfLookup);
    NoLookupRecords(cfg, s);
    CountAll(s.errors);
    forall n ensures n in NumbersOf(s.errors, OfData) <==> n in BadRows(cfg) { DataErrorsAreBad(cfg, s, n); }
    assert NumbersOf(s.errors, OfData) == BadRows(cfg);
    UnstagedCount(cfg, s);
  }

  lemma UnstagedCount(cfg: Config, s: State)
    requires cfg.WellFormed() && Reachable(cfg, s) && Proceeds(s)
    ensures Count(s.errors, OfKey) == |Acceptable(cfg)| - |s.table|
  {
    ReachableTally(cfg, s);
    RowAccounting(cfg, s);
    CountIsNumbers(s.errors, OfKey);
    NumbersCount(s.table, cfg.schema);
    var staged, dups := TableNumbers(s.table), NumbersOf(s.errors, OfKey);
    forall n ensures n in dups <==> n in Acceptable(cfg) && n !in staged { DuplicatesAreUnstaged(cfg, s, n); }
    forall n | n in staged ensures n in Acceptable(cfg) {
      assert Staged(s.table, n);
      StagedIsAcceptable(cfg, s.table, n);
    }
    assert Acceptable(cfg) == staged + dups && staged !! dups;
  }

  /** With one key column the number of records for duplicates follows from the source alone. */
  lemma DuplicateCount(cfg: Config, col: nat, s: State)
    requires cfg.WellFormed() && SingleKey(cfg, col) && Reachable(cfg, s) && Proceeds(s)
    ensures Count(s.errors, OfKey) == |Acceptable(cfg)| - |SourceKeys(cfg, col)| - |Keyless(cfg, col)|
  {
    RecordCounts(cfg, s);
    StagedCount(cfg, col, s);
  }

  /** Without a unique column every acceptable row is staged. */
  lemma StagedCountWithoutKey(cfg: Config, s: State)
    requires cfg.WellFormed() && cfg.schema.unique == {} && Reachable(cfg, s) && Proceeds(s)
    ensures |s.table| == |Acceptable(cfg)|
  {
    RowAccounting(cfg, s);
    ReachableTally(cfg, s);
    RecordCounts(cfg, s);
    forall i | 0 <= i < |s.errors| ensures KindOf(s.errors[i].rule) != OfKey {
      assert Justified(cfg, s.table, s.errors[i].number, s.errors[i].rule);
    }
    CountIsNumbers(s.errors, OfKey);
    assert NumbersOf(s.errors, OfKey) == {};
  }

  /** Two runs of the same import, scheduled differently, agree on what counts, for at most one unique column: the rows
      staged, the error records of each kind, and `error_count` in the batch row. */
  lemma ScheduleIndependent(cfg: Config, s: State, t: State)
    requires cfg.WellFormed() && |cfg.schema.unique| <= 1
    requires Reachable(cfg, s) && Proceeds(s) && Reachable(cfg, t) && Proceeds(t)
    ensures |s.table| == |t.table|
    ensures forall k :: Count(s.errors, k) == Count(t.errors, k)
    ensures |s.errors| == |t.errors| && s.errorCount == t.errorCount
    ensures forall col | col in cfg.schema.unique :: TableKeys(s.table, col) == TableKeys(t.table, col)
  {
    RecordCounts(cfg, s);
    RecordCounts(cfg, t);
    BatchCounters(cfg, s);
    BatchCounters(cfg, t);
    CountAll(s.errors);
    CountAll(t.errors);
    if cfg.schema.unique == {} {
      StagedCountWithoutKey(cfg, s);
      StagedCountWithoutKey(cfg, t);
    } else {
      var col :| col in cfg.schema.unique;
      OneElement(cfg.schema.unique, col);
      StagedKeys(cfg, col, s);
      StagedKeys(cfg, col, t);
      StagedCount(cfg, col, s);
      StagedCount(cfg, col, t);
    }
  }

  lemma OneElement(u: set<nat>, col: nat)
    requires col in u && |u| <= 1
    ensures u == {col}
  {
    assert |u - {col}| == 0;
    assert u - {col} == {};
  }
}
