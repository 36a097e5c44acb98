/** At-least-once delivery meets idempotent promote: any number of attempts at one import, each with its
    own schedule and each free to die anywhere before its promote commits, put each key into the target
    once (services/worker-core/src/handlers/bulkImport.ts:45-135). */
module Redelivery {
  import opened Staging
  import opened ImportPlan
  import opened ImportRun
  import opened ImportHandout
  import opened ImportRows
  import opened ImportKeys
  import opened Promote

  function CellsOf(table: seq<Row>): (r: seq<Cells>)
    ensures |r| == |table| && forall i | 0 <= i < |r| :: r[i] == table[i].cells
  {
    seq(|table|, i requires 0 <= i < |table| => table[i].cells)
  }

  /** An attempt dies before its promote commits, in whatever state the machine is (the next attempt
      drops and recreates the staging table), or it promotes what it staged, in whatever order the
      database reads it. */
  datatype Attempt = Died | Promoted(staged: State, order: seq<Cells>)

  ghost predicate Possible(cfg: Config, a: Attempt)
    requires cfg.WellFormed()
  {
    a.Promoted? ==> Reachable(cfg, a.staged) && Proceeds(a.staged) && multiset(a.order) == multiset(CellsOf(a.staged.table))
  }

  function After(target: seq<Cells>, attempts: seq<Attempt>, unique: set<nat>): seq<Cells>
    decreases attempts
  {
    if attempts == [] then target
    else After(if attempts[0].Died? then target else SkipInsert(target, attempts[0].order, unique), attempts[1..], unique)
  }

  function Keys(target: seq<Cells>, col: nat): set<Cell> {
    set i | 0 <= i < |target| && KeyOf(target[i], col) != Null :: KeyOf(target[i], col)
  }

  predicate AnyPromoted(attempts: seq<Attempt>) {
    exists i | 0 <= i < |attempts| :: attempts[i].Promoted?
  }

  /** Every source row that can be staged has a business key. */
  predicate AllKeyed(cfg: Config, col: nat) {
    Keyless(cfg, col) == {}
  }

  lemma HitsIffKey(target: seq<Cells>, row: Cells, col: nat)
    ensures Hits(target, row, {col}) <==> KeyOf(row, col) != Null && KeyOf(row, col) in Keys(target, col)
  {
    forall i | 0 <= i < |target| ensures Collide(target[i], row, {col}) <==> KeyOf(row, col) != Null && KeyOf(target[i], col) == KeyOf(row, col) {
      CollideIffSameKey(target[i], row, col);
    }
  }

  /** Skip-on-conflict adds exactly the keys offered. */
  lemma {:induction false} SkipInsertKeys(target: seq<Cells>, rows: seq<Cells>, col: nat)
    ensures Keys(SkipInsert(target, rows, {col}), col) == Keys(target, col) + Keys(rows, col)
    decreases rows
  {
    if rows != [] {
      HitsIffKey(target, rows[0], col);
      var k := KeyOf(rows[0], col);
      KeysCons(rows, col);
      if Hits(target, rows[0], {col}) {
        SkipInsertKeys(target, rows[1..], col);
      } else {
        SkipInsertKeys(target + [rows[0]], rows[1..], col);
        KeysSnoc(target, rows[0], col);
      }
    }
  }

  lemma KeysCons(rows: seq<Cells>, col: nat)
    requires rows != []
    ensures Keys(rows, col) == (if KeyOf(rows[0], col) == Null then {} else {KeyOf(rows[0], col)}) + Keys(rows[1..], col)
  {
    var k := KeyOf(rows[0], col);
    forall x ensures x in Keys(rows, col) <==> (k != Null && x == k) || x in Keys(rows[1..], col) {
      if x in Keys(rows[1..], col) {
        var i :| 0 <= i < |rows[1..]| && KeyOf(rows[1..][i], col) != Null && x == KeyOf(rows[1..][i], col);
        assert rows[i + 1] == rows[1..][i];
      }
      if x in Keys(rows, col) {
        var i :| 0 <= i < |rows| && KeyOf(rows[i], col) != Null && x == KeyOf(rows[i], col);
        if i > 0 { assert rows[1..][i - 1] == rows[i]; }
      }
    }
  }

  lemma KeysSnoc(target: seq<Cells>, row: Cells, col: nat)
    ensures Keys(target + [row], col) == Keys(target, col) + if KeyOf(row, col) == Null then {} else {KeyOf(row, col)}
  {
    var t := target + [row];
    assert t[|target|] == row && forall i | 0 <= i < |target| :: t[i] == target[i];
  }

  /** What one promote offers: the distinct keys of the acceptable source rows, each row keyed. */
  lemma OrderKeys(cfg: Config, col: nat, a: Attempt)
    requires cfg.WellFormed() && SingleKey(cfg, col) && AllKeyed(cfg, col) && Possible(cfg, a) && a.Promoted?
    ensures Keys(a.order, col) == SourceKeys(cfg, col)
    ensures forall i | 0 <= i < |a.order| :: KeyOf(a.order[i], col) in SourceKeys(cfg, col) && KeyOf(a.order[i], col) != Null
  {
    var table := a.staged.table;
    StagedKeys(cfg, col, a.staged);
    RowAccounting(cfg, a.staged);
    forall i | 0 <= i < |a.order| ensures KeyOf(a.order[i], col) in SourceKeys(cfg, col) && KeyOf(a.order[i], col) != Null {
      var j := Corresponding(a.order, CellsOf(table), i);
      assert Staged(table, table[j].number) && table[j] == cfg.RowOf(table[j].number);
      StagedIsAcceptable(cfg, table, table[j].number);
      assert table[j].number !in Keyless(cfg, col);
    }
    forall k | k in SourceKeys(cfg, col) ensures k in Keys(a.order, col) {
      var j :| 0 <= j < |table| && KeyOf(table[j].cells, col) != Null && k == KeyOf(table[j].cells, col);
      var i := Corresponding(CellsOf(table), a.order, j);
    }
  }

  lemma Corresponding(a: seq<Cells>, b: seq<Cells>, i: nat) returns (j: nat)
    requires multiset(a) == multiset(b) && i < |a|
    ensures j < |b| && b[j] == a[i]
  {
    assert a[i] in multiset(b);
    j :| 0 <= j < |b| && b[j] == a[i];
  }

  /** However many attempts are made and however each is scheduled: the target's keys are its old keys,
      plus the keys of the valid rows as soon as one promote has committed. */
  lemma {:induction false} KeysAfter(cfg: Config, col: nat, target: seq<Cells>, attempts: seq<Attempt>)
    requires cfg.WellFormed() && SingleKey(cfg, col) && AllKeyed(cfg, col)
    requires forall i | 0 <= i < |attempts| :: Possible(cfg, attempts[i])
    ensures Keys(After(target, attempts, {col}), col) ==
            Keys(target, col) + if AnyPromoted(attempts) then SourceKeys(cfg, col) else {}
    decreases attempts
  {
    if attempts != [] {
      var rest := attempts[1..];
      assert forall i | 0 <= i < |rest| :: rest[i] == attempts[i + 1];
      assert AnyPromoted(attempts) <==> attempts[0].Promoted? || AnyPromoted(rest) by {
        if i :| 0 <= i < |attempts| && attempts[i].Promoted? { if i > 0 { assert rest[i - 1].Promoted?; } }
      }
      if attempts[0].Died? {
        KeysAfter(cfg, col, target, rest);
      } else {
        OrderKeys(cfg, col, attempts[0]);
        SkipInsertKeys(target, attempts[0].order, col);
        KeysAfter(cfg, col, SkipInsert(target, attempts[0].order, {col}), rest);
      }
    }
  }

  /** Once one promote has committed, every later attempt leaves the target as it is: it promotes 0 rows. */
  lemma {:induction false} LaterAttemptsPromoteNothing(cfg: Config, col: nat, target: seq<Cells>, first: Attempt, later: seq<Attempt>)
    requires cfg.WellFormed() && SingleKey(cfg, col) && AllKeyed(cfg, col)
    requires Possible(cfg, first) && first.Promoted? && forall i | 0 <= i < |later| :: Possible(cfg, later[i])
    ensures var t := SkipInsert(target, first.order, {col}); After(t, later, {col}) == t
    decreases later
  {
    if later != [] {
      var t := SkipInsert(target, first.order, {col});
      if later[0].Promoted? {
        OrderKeys(cfg, col, first);
        OrderKeys(cfg, col, later[0]);
        SkipInsertKeys(target, first.order, col);
        forall i | 0 <= i < |later[0].order| ensures Hits(t, later[0].order[i], {col}) {
          HitsIffKey(t, later[0].order[i], col);
        }
        NothingFresh(t, later[0].order, {col});
      }
      assert forall i | 0 <= i < |later[1..]| :: later[1..][i] == later[i + 1];
      LaterAttemptsPromoteNothing(cfg, col, target, first, later[1..]);
    }
  }

  /** No key is ever in the target twice. */
  lemma {:induction false} TargetStaysUnique(target: seq<Cells>, attempts: seq<Attempt>, unique: set<nat>)
    requires UniqueOn(target, unique)
    ensures UniqueOn(After(target, attempts, unique), unique)
    decreases attempts
  {
    if attempts != [] {
      if attempts[0].Promoted? { SkipInsertUnique(target, attempts[0].order, unique); }
      TargetStaysUnique(if attempts[0].Died? then target else SkipInsert(target, attempts[0].order, unique), attempts[1..], unique);
    }
  }

  /** The staged rows are conflict-free, so SQL Server's anti-join inserts the same rows. */
  lemma StagedIsConflictFree(cfg: Config, s: State)
    requires cfg.WellFormed() && Reachable(cfg, s) && Proceeds(s)
    ensures UniqueOn(CellsOf(s.table), cfg.schema.unique)
  {
    RowAccounting(cfg, s);
    var rows := CellsOf(s.table);
    forall i, j | 0 <= i < j < |rows| ensures !Collide(rows[i], rows[j], cfg.schema.unique) {
      assert !Clash(s.table[i], s.table[j], cfg.schema);
    }
  }
}
