/** The staging table as an object: the statements issued against it and what they leave behind
    (packages/targetdb/src/postgres.ts, sqlserver.ts, mysql.ts; services/worker-core/src/handlers/bulkImport.ts). */
module StagingDb {
  import opened Staging

  function Keep(rows: seq<Row>, p: Row -> bool): seq<Row> {
    if rows == [] then [] else (if p(rows[0]) then [rows[0]] else []) + Keep(rows[1..], p)
  }

  lemma {:induction false} KeepMembers(rows: seq<Row>, p: Row -> bool, row: Row)
    ensures row in Keep(rows, p) <==> row in rows && p(row)
  {
    if rows != [] { KeepMembers(rows[1..], p, row); }
  }

  lemma {:induction false} KeepAll(rows: seq<Row>, p: Row -> bool)
    requires forall r | r in rows :: p(r)
    ensures Keep(rows, p) == rows
  {
    if rows != [] { KeepAll(rows[1..], p); }
  }

  lemma {:induction false} KeepSame(rows: seq<Row>, p: Row -> bool, q: Row -> bool)
    requires forall r | r in rows :: p(r) == q(r)
    ensures Keep(rows, p) == Keep(rows, q)
  {
    if rows != [] { KeepSame(rows[1..], p, q); }
  }

  lemma {:induction false} KeepTwice(rows: seq<Row>, p: Row -> bool, q: Row -> bool, both: Row -> bool)
    requires forall r | r in rows :: both(r) == (p(r) && q(r))
    ensures Keep(Keep(rows, p), q) == Keep(rows, both)
  {
    if rows != [] {
      KeepTwice(rows[1..], p, q, both);
      var k := Keep(rows[1..], p);
      assert rows[0] in rows;
      assert ([rows[0]] + k)[1..] == k && [] + k == k;
      assert [] + Keep(k, q) == Keep(k, q);
    }
  }

  class StagingTable {
    var rows: seq<Row>
    const schema: Schema
    /** Bind parameters a statement may carry, and how many each row takes. */
    const maxBindParams: nat
    const width: nat

    constructor (schema: Schema, maxBindParams: nat, width: nat)
      ensures rows == [] && this.schema == schema && this.maxBindParams == maxBindParams && this.width == width
    {
      rows := [];
      this.schema, this.maxBindParams, this.width := schema, maxBindParams, width;
    }

    /** `INSERT INTO staging VALUES (..), (..)`: all rows or none. */
    method InsertMany(batch: seq<Row>) returns (ok: bool)
      requires |batch| > 1 ==> |batch| * width <= maxBindParams - 1
      modifies this
      ensures ok == Fits(old(rows), batch, schema)
      ensures rows == if ok then old(rows) + batch else old(rows)
    {
      var t := rows;
      ok := true;
      var i := 0;
      assert rows + batch[..0] == rows;
      while i < |batch|
        invariant 0 <= i <= |batch| && rows == old(rows) && t == rows + batch[..i]
        invariant Fits(rows, batch, schema) == Fits(t, batch[i..], schema)
      {
        assert batch[i..][0] == batch[i] && batch[i..][1..] == batch[i + 1..];
        if Try(t, batch[i], schema) != Stored { return false; }
        assert batch[..i + 1] == batch[..i] + [batch[i]];
        t := t + [batch[i]];
        i := i + 1;
      }
      assert batch[..i] == batch;
      rows := t;
    }

    method InsertOne(row: Row) returns (v: Verdict)
      modifies this
      ensures v == Try(old(rows), row, schema)
      ensures rows == if v == Stored then old(rows) + [row] else old(rows)
    {
      v := Try(rows, row, schema);
      if v == Stored { rows := rows + [row]; }
    }

    method Select(p: Row -> bool) returns (found: seq<Row>)
      ensures found == Keep(rows, p)
    {
      found := Keep(rows, p);
    }

    /** `deleteStagingRows`: in lists of at most 1000 row numbers, as SQL Server and MySQL take them. */
    method DeleteRows(numbers: seq<nat>)
      modifies this
      ensures rows == Keep(old(rows), (r: Row) => r.number !in numbers)
    {
      var i := 0;
      KeepAll(rows, (r: Row) => r.number !in numbers[..0]);
      while i < |numbers|
        invariant 0 <= i <= |numbers|
        invariant rows == Keep(old(rows), (r: Row) => r.number !in numbers[..i])
      {
        var n := if i + 1000 < |numbers| then i + 1000 else |numbers|;
        var list := numbers[i..n];
        KeepTwice(old(rows), (r: Row) => r.number !in numbers[..i], (r: Row) => r.number !in list, (r: Row) => r.number !in numbers[..n]) by {
          assert numbers[..n] == numbers[..i] + list;
        }
        rows := Keep(rows, (r: Row) => r.number !in list);
        i := n;
      }
      KeepSame(old(rows), (r: Row) => r.number !in numbers[..i], (r: Row) => r.number !in numbers) by { assert numbers[..i] == numbers; }
    }
  }
}
