/** Referential rules, enforced set-based between staging and promote
    (services/worker-core/src/handlers/bulkImport.ts:233-285). */
module ImportLookups {
  import opened Basics
  import opened Staging
  import opened StagingDb
  import opened ImportPlan
  import opened ImportRun
  import opened ImportRows

  /** A lookup rule: the staging column its field is mapped to, if any, and the text of the referenced
      keys, if the entity is configured for the project. */
  datatype LookupRule = LookupRule(field: string, column: Option<nat>, keys: Option<set<string>>)
  predicate Enforceable(lk: LookupRule) { lk.column.Some? && lk.keys.Some? }

  /** A NULL, or a value that is the key of some referenced row. */
  predicate Satisfies(row: Row, lk: LookupRule)
    requires Enforceable(lk)
  {
    lk.column.value < |row.cells| && row.cells[lk.column.value].Val? ==> row.cells[lk.column.value].text in lk.keys.value
  }

  predicate DistinctNumbers(rows: seq<Row>) {
    forall i, j | 0 <= i < j < |rows| :: rows[i].number != rows[j].number
  }

  lemma {:induction false} KeepDistinct(rows: seq<Row>, p: Row -> bool)
    requires DistinctNumbers(rows)
    ensures DistinctNumbers(Keep(rows, p))
  {
    if rows != [] {
      KeepDistinct(rows[1..], p);
      var k := Keep(rows[1..], p);
      forall j | 0 <= j < |k| ensures k[j].number != rows[0].number {
        KeepMembers(rows[1..], p, k[j]);
        var i :| 0 <= i < |rows[1..]| && rows[1..][i] == k[j];
        assert rows[i + 1] == k[j];
      }
    }
  }

  // ---------------------------------------------------------------------------------------------

  datatype LookupError = Unmapped(field: string) | NotConfigured(field: string)
  datatype Result = Passed | Thrown(error: LookupError)

  function Records(rows: seq<Row>, lk: LookupRule): (r: seq<ErrorRecord>)
    ensures |r| == |rows| && forall i | 0 <= i < |r| :: r[i] == ErrorRecord(rows[i].number, Lookup(lk.field))
  {
    seq(|rows|, i requires 0 <= i < |rows| => ErrorRecord(rows[i].number, Lookup(lk.field)))
  }

  /** What the loop leaves and records, rule by rule. It throws at the first rule it cannot enforce. */
  datatype Enforced = Enforced(rows: seq<Row>, errors: seq<ErrorRecord>, result: Result)

  function Enforce(rows: seq<Row>, rules: seq<LookupRule>): Enforced
    decreases rules
  {
    if rules == [] then Enforced(rows, [], Passed)
    else if rules[0].column.None? then Enforced(rows, [], Thrown(Unmapped(rules[0].field)))
    else if rules[0].keys.None? then Enforced(rows, [], Thrown(NotConfigured(rules[0].field)))
    else
      var missing := Keep(rows, (r: Row) => !Satisfies(r, rules[0]));
      var e := Enforce(Keep(rows, (r: Row) => Satisfies(r, rules[0])), rules[1..]);
      e.(errors := Records(missing, rules[0]) + e.errors)
  }

  method EnforceLookups(staging: StagingTable, rules: seq<LookupRule>, errors: seq<ErrorRecord>)
    returns (result: Result, log: seq<ErrorRecord>)
    requires DistinctNumbers(staging.rows)
    modifies staging
    ensures var e := Enforce(old(staging.rows), rules);
            staging.rows == e.rows && log == errors + e.errors && result == e.result
  {
    log := errors;
    var i := 0;
    while i < |rules|
      invariant 0 <= i <= |rules| && DistinctNumbers(staging.rows)
      invariant var e, f := Enforce(old(staging.rows), rules), Enforce(staging.rows, rules[i..]);
                e.rows == f.rows && errors + e.errors == log + f.errors && e.result == f.result
    {
      var lk := rules[i];
      assert rules[i..][0] == lk && rules[i..][1..] == rules[i + 1..];
      if lk.column.None? { return Thrown(Unmapped(lk.field)), log; }
      if lk.keys.None? { return Thrown(NotConfigured(lk.field)), log; }
      var missing := staging.Select((r: Row) => !Satisfies(r, lk));
      ghost var before := staging.rows;
      RemovedAreUnmatched(before, lk);
      KeepDistinct(before, (r: Row) => Satisfies(r, lk));
      if missing == [] {
        NoneMissing(before, lk);
      } else {
        staging.DeleteRows(RowNumbers(missing));
      }
      ghost var rest := Enforce(staging.rows, rules[i + 1..]);
      assert log + (Records(missing, lk) + rest.errors) == log + Records(missing, lk) + rest.errors;
      log := log + Records(missing, lk);
      i := i + 1;
    }
    result := Passed;
  }

  lemma NoneMissing(rows: seq<Row>, lk: LookupRule)
    requires Enforceable(lk) && Keep(rows, (r: Row) => !Satisfies(r, lk)) == []
    ensures Keep(rows, (r: Row) => Satisfies(r, lk)) == rows
  {
    forall r | r in rows ensures Satisfies(r, lk) { KeepMembers(rows, (r: Row) => !Satisfies(r, lk), r); }
    KeepAll(rows, (r: Row) => Satisfies(r, lk));
  }

  /** Deleting by row number removes the unmatched rows and no others, since numbers are distinct. */
  lemma RemovedAreUnmatched(rows: seq<Row>, lk: LookupRule)
    requires Enforceable(lk) && DistinctNumbers(rows)
    ensures var numbers := RowNumbers(Keep(rows, (r: Row) => !Satisfies(r, lk)));
            Keep(rows, (r: Row) => r.number !in numbers) == Keep(rows, (r: Row) => Satisfies(r, lk))
  {
    var missing := Keep(rows, (r: Row) => !Satisfies(r, lk));
    var numbers := RowNumbers(missing);
    forall r | r in rows ensures (r.number !in numbers) == Satisfies(r, lk) {
      KeepMembers(rows, (r: Row) => !Satisfies(r, lk), r);
      if r.number in numbers {
        var i :| 0 <= i < |numbers| && numbers[i] == r.number;
        KeepMembers(rows, (r: Row) => !Satisfies(r, lk), missing[i]);
      }
      if !Satisfies(r, lk) {
        var i :| 0 <= i < |missing| && missing[i] == r;
        assert numbers[i] == r.number;
      }
    }
    KeepSame(rows, (r: Row) => r.number !in numbers, (r: Row) => Satisfies(r, lk));
  }

  predicate AllEnforceable(rules: seq<LookupRule>) {
    forall k | 0 <= k < |rules| :: Enforceable(rules[k])
  }

  predicate SatisfiesAll(row: Row, rules: seq<LookupRule>)
    requires AllEnforceable(rules)
  {
    forall k | 0 <= k < |rules| :: Satisfies(row, rules[k])
  }

  lemma {:induction false} DoneMeansEnforceable(rows: seq<Row>, rules: seq<LookupRule>)
    ensures Enforce(rows, rules).result == Passed <==> AllEnforceable(rules)
    decreases rules
  {
    if rules != [] {
      assert AllEnforceable(rules) <==> Enforceable(rules[0]) && AllEnforceable(rules[1..]) by {
        assert forall k | 0 <= k < |rules[1..]| :: rules[1..][k] == rules[k + 1];
        assert forall k | 1 <= k < |rules| :: rules[k] == rules[1..][k - 1];
      }
      if Enforceable(rules[0]) { DoneMeansEnforceable(Keep(rows, (r: Row) => Satisfies(r, rules[0])), rules[1..]); }
    }
  }

  /** A row is left iff it was staged and satisfies every rule. */
  lemma {:induction false} EnforceKeeps(rows: seq<Row>, rules: seq<LookupRule>, row: Row)
    requires AllEnforceable(rules)
    ensures row in Enforce(rows, rules).rows <==> row in rows && SatisfiesAll(row, rules)
    decreases rules
  {
    if rules != [] {
      var lk := rules[0];
      assert forall k | 0 <= k < |rules[1..]| :: rules[1..][k] == rules[k + 1];
      assert SatisfiesAll(row, rules) <==> Satisfies(row, lk) && SatisfiesAll(row, rules[1..]) by {
        assert forall k | 1 <= k < |rules| :: rules[k] == rules[1..][k - 1];
      }
      EnforceKeeps(Keep(rows, (r: Row) => Satisfies(r, lk)), rules[1..], row);
      KeepMembers(rows, (r: Row) => Satisfies(r, lk), row);
    }
  }

  /** A staged number is reported iff it is no longer there, and nothing else is reported. */
  lemma {:induction false} EnforceReports(rows: seq<Row>, rules: seq<LookupRule>, n: nat)
    requires AllEnforceable(rules) && DistinctNumbers(rows)
    ensures var e := Enforce(rows, rules);
            DistinctNumbers(e.rows) && (Logged(e.errors, n) <==> Staged(rows, n) && !Staged(e.rows, n))
            && (Staged(e.rows, n) ==> Staged(rows, n))
    decreases rules
  {
    if rules != [] {
      var lk := rules[0];
      var kept, missing := Keep(rows, (r: Row) => Satisfies(r, lk)), Keep(rows, (r: Row) => !Satisfies(r, lk));
      assert forall k | 0 <= k < |rules[1..]| :: rules[1..][k] == rules[k + 1];
      KeepDistinct(rows, (r: Row) => Satisfies(r, lk));
      EnforceReports(kept, rules[1..], n);
      KeepSplits(rows, lk, n);
      LoggedAppend(Records(missing, lk), Enforce(kept, rules[1..]).errors, n);
      assert Logged(Records(missing, lk), n) <==> Staged(missing, n) by {
        assert forall i | 0 <= i < |missing| :: Records(missing, lk)[i].number == missing[i].number;
      }
    }
  }

  lemma KeepSplits(rows: seq<Row>, lk: LookupRule, n: nat)
    requires Enforceable(lk) && DistinctNumbers(rows)
    ensures var kept, missing := Keep(rows, (r: Row) => Satisfies(r, lk)), Keep(rows, (r: Row) => !Satisfies(r, lk));
      && (Staged(rows, n) <==> Staged(kept, n) || Staged(missing, n))
      && !(Staged(kept, n) && Staged(missing, n))
  {
    var kept, missing := Keep(rows, (r: Row) => Satisfies(r, lk)), Keep(rows, (r: Row) => !Satisfies(r, lk));
    if i :| 0 <= i < |rows| && rows[i].number == n {
      KeepMembers(rows, (r: Row) => Satisfies(r, lk), rows[i]);
      KeepMembers(rows, (r: Row) => !Satisfies(r, lk), rows[i]);
    }
    forall i | 0 <= i < |kept| ensures kept[i] in rows && Satisfies(kept[i], lk) {
      KeepMembers(rows, (r: Row) => Satisfies(r, lk), kept[i]);
    }
    forall i | 0 <= i < |missing| ensures missing[i] in rows && !Satisfies(missing[i], lk) {
      KeepMembers(rows, (r: Row) => !Satisfies(r, lk), missing[i]);
    }
  }

  /** Row accounting once lookups are enforced: every source row is left in staging with no error record,
      or has one and is not left; and what is left satisfies every lookup rule. */
  lemma AccountingAfterLookups(cfg: Config, s: State, rules: seq<LookupRule>)
    requires cfg.WellFormed() && Reachable(cfg, s) && Proceeds(s) && AllEnforceable(rules)
    ensures var e := Enforce(s.table, rules);
      && (forall n | 0 < n <= cfg.Total() :: Staged(e.rows, n) != Logged(s.errors + e.errors, n))
      && (forall row | row in e.rows :: SatisfiesAll(row, rules))
  {
    RowAccounting(cfg, s);
    var e := Enforce(s.table, rules);
    assert DistinctNumbers(s.table) by {
      forall i, j | 0 <= i < j < |s.table| ensures s.table[i].number != s.table[j].number {
        assert !Clash(s.table[i], s.table[j], cfg.schema);
      }
    }
    forall n | 0 < n <= cfg.Total() ensures Staged(e.rows, n) != Logged(s.errors + e.errors, n) {
      EnforceReports(s.table, rules, n);
      LoggedAppend(s.errors, e.errors, n);
    }
    forall row | row in e.rows ensures SatisfiesAll(row, rules) { EnforceKeeps(s.table, rules, row); }
  }

  /** The row's value for the rule is there and is no referenced key. A NULL, or no value at all, is none. */
  predicate Misses(row: Row, lk: LookupRule)
    requires Enforceable(lk)
  {
    && lk.column.value < |row.cells| && row.cells[lk.column.value] != Null
    && Val(row.cells[lk.column.value].text) == row.cells[lk.column.value] && row.cells[lk.column.value].text !in lk.keys.value
  }

  /** What happens to one staged row: it stays, unreported, if it misses in no rule; so it does if all its lookup cells
      are NULL. Else it is removed and reported. */
  lemma RowIsRemovedIffItMisses(rows: seq<Row>, rules: seq<LookupRule>, row: Row)
    requires AllEnforceable(rules) && DistinctNumbers(rows) && row in rows
    ensures var e := Enforce(rows, rules);
      && (row in e.rows <==> forall k | 0 <= k < |rules| :: !Misses(row, rules[k]))
      && (Logged(e.errors, row.number) <==> exists k | 0 <= k < |rules| :: Misses(row, rules[k]))
    ensures (forall k | 0 <= k < |rules| :: rules[k].column.value >= |row.cells| || row.cells[rules[k].column.value] == Null) ==>
              row in Enforce(rows, rules).rows && !Logged(Enforce(rows, rules).errors, row.number)
  {
    var e := Enforce(rows, rules);
    EnforceKeeps(rows, rules, row);
    EnforceReports(rows, rules, row.number);
    assert forall k | 0 <= k < |rules| :: Satisfies(row, rules[k]) <==> !Misses(row, rules[k]);
    var i :| 0 <= i < |rows| && rows[i] == row;
    assert Staged(rows, row.number);
    if Staged(e.rows, row.number) {
      var j :| 0 <= j < |e.rows| && e.rows[j].number == row.number;
      EnforceKeeps(rows, rules, e.rows[j]);
    }
  }

  /** Each record names a rule that a staged row with its number misses in. */
  lemma {:induction false} ReportsNameTheRule(rows: seq<Row>, rules: seq<LookupRule>, i: nat) returns (k: nat, row: Row)
    requires AllEnforceable(rules) && i < |Enforce(rows, rules).errors|
    ensures k < |rules| && row in rows && Misses(row, rules[k])
    ensures Enforce(rows, rules).errors[i] == ErrorRecord(row.number, Lookup(rules[k].field))
    decreases rules
  {
    var lk := rules[0];
    var missing, kept := Keep(rows, (r: Row) => !Satisfies(r, lk)), Keep(rows, (r: Row) => Satisfies(r, lk));
    assert forall j | 0 <= j < |rules[1..]| :: rules[1..][j] == rules[j + 1];
    if i < |missing| {
      k, row := 0, missing[i];
      KeepMembers(rows, (r: Row) => !Satisfies(r, lk), row);
    } else {
      assert Enforce(rows, rules).errors[i] == Enforce(kept, rules[1..]).errors[i - |missing|];
      k, row := ReportsNameTheRule(kept, rules[1..], i - |missing|);
      k := k + 1;
      KeepMembers(rows, (r: Row) => Satisfies(r, lk), row);
    }
  }
}
