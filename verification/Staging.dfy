/** The staging table of one import attempt: rows, unique business keys, and what an INSERT does to
    them (packages/targetdb/src/postgres.ts `createStaging`, services/worker-core/src/handlers/bulkImport.ts). */
module Staging {

  /** A column value after coercion. SQL NULL never equals anything, itself included. */
  datatype Cell = Null | Val(text: string)

  datatype Row = Row(number: nat, cells: seq<Cell>)

  predicate SameKey(a: seq<Cell>, b: seq<Cell>, col: nat) {
    col < |a| && col < |b| && a[col] != Null && a[col] == b[col]
  }

  /** Some unique index holds the same present key for both. */
  predicate Collide(a: seq<Cell>, b: seq<Cell>, unique: set<nat>) {
    exists c | c in unique :: SameKey(a, b, c)
  }

  /** What the database checks besides uniqueness is a property of the row alone. */
  datatype Schema = Schema(unique: set<nat>, bad: Row -> bool)

  datatype Rule = InvalidField(rule: string) | DuplicateKey | DataError | Lookup(field: string)

  /** One row of `job_errors`. */
  datatype ErrorRecord = ErrorRecord(number: nat, rule: Rule)

  predicate Clash(a: Row, b: Row, s: Schema) {
    a.number == b.number || Collide(a.cells, b.cells, s.unique)
  }

  predicate Clashes(table: seq<Row>, row: Row, s: Schema) {
    exists i | 0 <= i < |table| :: Clash(table[i], row, s)
  }

  /** What inserting one row into `table` does: nothing wrong, or the error it raises. Conversion and
      NOT NULL/CHECK errors are raised before any index is touched. */
  datatype Verdict = Stored | Rejected(rule: Rule)

  function Try(table: seq<Row>, row: Row, s: Schema): Verdict {
    if s.bad(row) then Rejected(DataError)
    else if Clashes(table, row, s) then Rejected(DuplicateKey)
    else Stored
  }

  /** The multi-row INSERT goes through: every row does, after the ones before it. */
  predicate Fits(table: seq<Row>, rows: seq<Row>, s: Schema)
    decreases rows
  {
    rows == [] || (Try(table, rows[0], s) == Stored && Fits(table + [rows[0]], rows[1..], s))
  }

  datatype Batch = Batch(table: seq<Row>, staged: nat, errors: seq<ErrorRecord>)

  /** Inserting the rows one statement at a time, recording each rejected row. */
  function InsertEach(table: seq<Row>, rows: seq<Row>, s: Schema): (b: Batch)
    ensures b.staged + |b.errors| == |rows| && |b.table| == |table| + b.staged
    decreases rows
  {
    if rows == [] then Batch(table, 0, []) else
    match Try(table, rows[0], s)
    case Stored => var b := InsertEach(table + [rows[0]], rows[1..], s); b.(staged := b.staged + 1)
    case Rejected(r) =>
      var b := InsertEach(table, rows[1..], s);
      b.(errors := [ErrorRecord(rows[0].number, r)] + b.errors)
  }

  /** A multi-row INSERT that goes through is the same as its rows inserted one at a time. */
  lemma {:induction false} FittingBatch(table: seq<Row>, rows: seq<Row>, s: Schema)
    requires Fits(table, rows, s)
    ensures InsertEach(table, rows, s) == Batch(table + rows, |rows|, [])
    decreases rows
  {
    if rows == [] {
      assert table + rows == table;
    } else {
      FittingBatch(table + [rows[0]], rows[1..], s);
      assert table + [rows[0]] + rows[1..] == table + rows;
    }
  }

  /** And one that does not go through is one of which some row is rejected. */
  lemma {:induction false} FitsIffNoError(table: seq<Row>, rows: seq<Row>, s: Schema)
    ensures Fits(table, rows, s) <==> InsertEach(table, rows, s).errors == []
    decreases rows
  {
    if rows != [] {
      if Try(table, rows[0], s) == Stored { FitsIffNoError(table + [rows[0]], rows[1..], s); }
    }
  }

  lemma {:induction false} InsertEachAppend(table: seq<Row>, a: seq<Row>, b: seq<Row>, s: Schema)
    ensures var x := InsertEach(table, a, s);
            var y := InsertEach(x.table, b, s);
            InsertEach(table, a + b, s) == Batch(y.table, x.staged + y.staged, x.errors + y.errors)
    decreases a
  {
    if a == [] {
      assert a + b == b;
      assert InsertEach(table, a, s).errors + InsertEach(table, b, s).errors == InsertEach(table, b, s).errors;
    } else {
      assert (a + b)[1..] == a[1..] + b;
      match Try(table, a[0], s)
      case Stored => InsertEachAppend(table + [a[0]], a[1..], b, s);
      case Rejected(r) =>
        InsertEachAppend(table, a[1..], b, s);
        var x := InsertEach(table, a[1..], s);
        var e, y := ErrorRecord(a[0].number, r), InsertEach(x.table, b, s);
        assert [e] + (x.errors + y.errors) == ([e] + x.errors) + y.errors;
    }
  }

  /** No two rows of the table clash: what the primary key and the unique indexes guarantee. */
  predicate Consistent(table: seq<Row>, s: Schema) {
    forall i, j | 0 <= i < j < |table| :: !Clash(table[i], table[j], s)
  }

  lemma ConsistentExtend(table: seq<Row>, row: Row, s: Schema)
    requires Consistent(table, s) && !Clashes(table, row, s)
    ensures Consistent(table + [row], s)
  {
    var t := table + [row];
    forall i, j | 0 <= i < j < |t| ensures !Clash(t[i], t[j], s) {
      if j < |table| { assert t[i] == table[i] && t[j] == table[j]; }
    }
  }

  // ---------------------------------------------------------------------------------------------
  // Two unique columns

  /** Columns `a` and `b` hold `x` and `y`, the others nothing. */
  function TwoCells(a: nat, x: string, b: nat, y: string): (cells: seq<Cell>)
    ensures a < |cells| && b < |cells|
  {
    var width := (if a > b then a else b) + 1;
    seq(width, i => if i == a then Val(x) else if i == b then Val(y) else Null)
  }

  function Both(n: nat, a: nat, b: nat): Row { Row(n, TwoCells(a, "x", b, "y")) }
  function Left(n: nat, a: nat, b: nat): Row { Row(n, TwoCells(a, "x", b, "z")) }
  function Right(n: nat, a: nat, b: nat): Row { Row(n, TwoCells(a, "w", b, "y")) }

  /** With two unique columns the order decides how many rows are staged: a row that clashes with two others keeps
      both out or is kept out by them. */
  lemma TwoKeysDependOnOrder(s: Schema, a: nat, b: nat, l: nat, r: nat, n: nat)
    requires a in s.unique && b in s.unique && a != b && l != r && l != n && r != n && forall row :: !s.bad(row)
    ensures InsertEach([], [Left(l, a, b), Right(r, a, b)], s).table == [Left(l, a, b), Right(r, a, b)]
    ensures InsertEach([Left(l, a, b), Right(r, a, b)], [Both(n, a, b)], s).staged == 0
    ensures InsertEach([], [Both(n, a, b)], s).table == [Both(n, a, b)]
    ensures InsertEach([Both(n, a, b)], [Left(l, a, b), Right(r, a, b)], s).staged == 0
  {
    var left, right, both := Left(l, a, b), Right(r, a, b), Both(n, a, b);
    TwoKeysClash(s, a, b, l, r, n);
    assert [] + [left] == [left] && [] + [both] == [both] && [left] + [right] == [left, right];
    assert [left, right][1..] == [right] && [right][1..] == [] && [both][1..] == [];
    assert InsertEach([left], [right], s).table == [left, right];
    assert InsertEach([both], [right], s).staged == 0;
  }

  lemma TwoKeysClash(s: Schema, a: nat, b: nat, l: nat, r: nat, n: nat)
    requires a in s.unique && b in s.unique && a != b && l != r && l != n && r != n && forall row :: !s.bad(row)
    ensures var left, right, both := Left(l, a, b), Right(r, a, b), Both(n, a, b);
      && Try([], left, s) == Stored && Try([], both, s) == Stored && Try([left], right, s) == Stored
      && Try([left, right], both, s) == Rejected(DuplicateKey)
      && Try([both], left, s) == Rejected(DuplicateKey) && Try([both], right, s) == Rejected(DuplicateKey)
  {
    var left, right, both := Left(l, a, b), Right(r, a, b), Both(n, a, b);
    assert SameKey(left.cells, both.cells, a) && SameKey(both.cells, left.cells, a) && SameKey(both.cells, right.cells, b);
    assert Clash([left, right][0], both, s) && Clash([both][0], left, s) && Clash([both][0], right, s);
    forall c | c in s.unique ensures !SameKey(left.cells, right.cells, c) { }
    assert !Clash(left, right, s);
  }
}
