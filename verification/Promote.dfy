/** Moving staged rows into the target table, in the three dialects (packages/targetdb/src/postgres.ts:118-145,
    packages/targetdb/src/sqlserver.ts:167-194, packages/targetdb/src/mysql.ts:127-141). */
module Promote {
  import opened Staging

  /** A row of the target table: the mapped columns. */
  type Cells = seq<Cell>

  predicate Hits(target: seq<Cells>, row: Cells, unique: set<nat>) {
    exists i | 0 <= i < |target| :: Collide(target[i], row, unique)
  }

  predicate UniqueOn(target: seq<Cells>, unique: set<nat>) {
    forall i, j | 0 <= i < j < |target| :: !Collide(target[i], target[j], unique)
  }

  /** Skip-on-conflict, a row at a time: what ON CONFLICT DO NOTHING and INSERT IGNORE do when the
      SELECT delivers the rows in this order. */
  function SkipInsert(target: seq<Cells>, rows: seq<Cells>, unique: set<nat>): (r: seq<Cells>)
    ensures target <= r
    decreases rows
  {
    if rows == [] then target
    else if Hits(target, rows[0], unique) then SkipInsert(target, rows[1..], unique)
    else SkipInsert(target + [rows[0]], rows[1..], unique)
  }

  /** The rows NOT EXISTS lets through: each compared with the table as it was before the statement. */
  function Fresh(target: seq<Cells>, rows: seq<Cells>, unique: set<nat>): seq<Cells> {
    if rows == [] then []
    else (if Hits(target, rows[0], unique) then [] else [rows[0]]) + Fresh(target, rows[1..], unique)
  }

  /** Row-at-a-time skipping keeps the unique constraints, whatever the rows. */
  lemma {:induction false} SkipInsertUnique(target: seq<Cells>, rows: seq<Cells>, unique: set<nat>)
    requires UniqueOn(target, unique)
    ensures UniqueOn(SkipInsert(target, rows, unique), unique)
    decreases rows
  {
    if rows != [] {
      if Hits(target, rows[0], unique) {
        SkipInsertUnique(target, rows[1..], unique);
      } else {
        assert UniqueOn(target + [rows[0]], unique);
        SkipInsertUnique(target + [rows[0]], rows[1..], unique);
      }
    }
  }

  lemma CollideSymmetric(a: Cells, b: Cells, unique: set<nat>)
    ensures Collide(a, b, unique) == Collide(b, a, unique)
  {
    if c :| c in unique && SameKey(a, b, c) { assert SameKey(b, a, c); }
    if c :| c in unique && SameKey(b, a, c) { assert SameKey(a, b, c); }
  }

  /** Rows that do not conflict with `row` hit a table exactly as if `row` had not been added to it. */
  lemma {:induction false} FreshIgnores(target: seq<Cells>, row: Cells, rows: seq<Cells>, unique: set<nat>)
    requires forall i | 0 <= i < |rows| :: !Collide(row, rows[i], unique)
    ensures Fresh(target + [row], rows, unique) == Fresh(target, rows, unique)
  {
    if rows != [] {
      FreshIgnores(target, row, rows[1..], unique);
      var t := target + [row];
      assert t[|target|] == row && forall i | 0 <= i < |target| :: t[i] == target[i];
    }
  }

  lemma Associate(a: seq<Cells>, x: Cells, b: seq<Cells>)
    ensures (a + [x]) + b == a + ([x] + b)
  {
  }

  /** When staging is conflict-free, skipping row by row inserts exactly the rows the anti-join lets
      through, in the order they come. */
  lemma {:induction false} SkipInsertIsFresh(target: seq<Cells>, rows: seq<Cells>, unique: set<nat>)
    requires UniqueOn(rows, unique)
    ensures SkipInsert(target, rows, unique) == target + Fresh(target, rows, unique)
    decreases rows
  {
    if rows != [] {
      assert forall i | 0 <= i < |rows[1..]| :: rows[1..][i] == rows[i + 1];
      if Hits(target, rows[0], unique) {
        SkipInsertIsFresh(target, rows[1..], unique);
        assert [] + Fresh(target, rows[1..], unique) == Fresh(target, rows[1..], unique);
      } else {
        SkipInsertIsFresh(target + [rows[0]], rows[1..], unique);
        FreshIgnores(target, rows[0], rows[1..], unique);
        Associate(target, rows[0], Fresh(target, rows[1..], unique));
      }
    }
  }

  /** Which rows pass the anti-join does not depend on their order. */
  lemma {:induction false} FreshCount(target: seq<Cells>, rows: seq<Cells>, unique: set<nat>, x: Cells)
    ensures multiset(Fresh(target, rows, unique))[x] == if Hits(target, x, unique) then 0 else multiset(rows)[x]
  {
    if rows != [] {
      FreshCount(target, rows[1..], unique, x);
      assert rows == [rows[0]] + rows[1..];
    }
  }

  lemma FreshPermutes(target: seq<Cells>, a: seq<Cells>, b: seq<Cells>, unique: set<nat>)
    requires multiset(a) == multiset(b)
    ensures multiset(Fresh(target, a, unique)) == multiset(Fresh(target, b, unique))
  {
    forall x ensures multiset(Fresh(target, a, unique))[x] == multiset(Fresh(target, b, unique))[x] {
      FreshCount(target, a, unique, x);
      FreshCount(target, b, unique, x);
    }
  }

  lemma UniquePermutes(a: seq<Cells>, b: seq<Cells>, unique: set<nat>)
    requires multiset(a) == multiset(b) && UniqueOn(a, unique)
    ensures UniqueOn(b, unique)
  {
    forall i, j | 0 <= i < j < |b| ensures !Collide(b[i], b[j], unique) {
      if b[i] == b[j] {
        assert b == b[..i] + [b[i]] + b[i + 1..j] + [b[j]] + b[j + 1..];
        assert multiset(b)[b[i]] >= 2;
        TwoPlaces(a, b[i], b[j], unique);
      } else {
        assert b[i] in multiset(b) && b[j] in multiset(b);
        assert b[i] in multiset(a) && b[j] in multiset(a);
        var x :| 0 <= x < |a| && a[x] == b[i];
        var y :| 0 <= y < |a| && a[y] == b[j];
        CollideSymmetric(a[x], a[y], unique);
      }
    }
  }

  /** A row occurring twice in a conflict-free list has no key, so it does not conflict with itself. */
  lemma TwoPlaces(a: seq<Cells>, x: Cells, y: Cells, unique: set<nat>)
    requires UniqueOn(a, unique) && multiset(a)[x] >= 2 && x == y
    ensures !Collide(x, y, unique)
  {
    var i :| 0 <= i < |a| && a[i] == x;
    assert a == a[..i] + [a[i]] + a[i + 1..];
    assert x in multiset(a[..i]) || x in multiset(a[i + 1..]);
    if x in a[..i] {
      var j :| 0 <= j < i && a[j] == x;
      assert !Collide(a[j], a[i], unique);
    } else {
      var j :| 0 <= j < |a[i + 1..]| && a[i + 1..][j] == x;
      assert !Collide(a[i], a[i + 1 + j], unique);
    }
  }

  /** Any order of a conflict-free staging table gives the same rows: the ones the anti-join inserts. */
  lemma AnyOrder(target: seq<Cells>, staged: seq<Cells>, order: seq<Cells>, unique: set<nat>)
    requires UniqueOn(staged, unique) && multiset(order) == multiset(staged)
    ensures multiset(SkipInsert(target, order, unique)) == multiset(target + Fresh(target, staged, unique))
    ensures |SkipInsert(target, order, unique)| - |target| == |Fresh(target, staged, unique)|
  {
    UniquePermutes(staged, order, unique);
    SkipInsertIsFresh(target, order, unique);
    FreshPermutes(target, order, staged, unique);
    assert multiset(target + Fresh(target, order, unique)) == multiset(target) + multiset(Fresh(target, order, unique));
    assert multiset(target + Fresh(target, staged, unique)) == multiset(target) + multiset(Fresh(target, staged, unique));
    assert |multiset(Fresh(target, order, unique))| == |multiset(Fresh(target, staged, unique))|;
  }

  // ---------------------------------------------------------------------------------------------
  // Repeating a promote

  predicate Keyed(row: Cells, unique: set<nat>) {
    exists c | c in unique :: SameKey(row, row, c)
  }

  /** After a promote every staged row hits the table: it was there, or something it conflicts with
      was, or it has just been inserted. */
  lemma {:induction false} PromotedHits(target: seq<Cells>, rows: seq<Cells>, unique: set<nat>, i: nat)
    requires i < |rows| && Keyed(rows[i], unique)
    ensures Hits(SkipInsert(target, rows, unique), rows[i], unique)
    decreases rows
  {
    if i > 0 {
      assert rows[1..][i - 1] == rows[i];
      PromotedHits(if Hits(target, rows[0], unique) then target else target + [rows[0]], rows[1..], unique, i - 1);
    } else if Hits(target, rows[0], unique) {
      var k :| 0 <= k < |target| && Collide(target[k], rows[0], unique);
      assert SkipInsert(target, rows, unique)[k] == target[k];
    } else {
      var t := target + [rows[0]];
      var c :| c in unique && SameKey(rows[0], rows[0], c);
      assert Collide(t[|target|], rows[0], unique);
      assert SkipInsert(target, rows, unique)[|target|] == t[|target|];
    }
  }

  lemma {:induction false} NothingFresh(target: seq<Cells>, rows: seq<Cells>, unique: set<nat>)
    requires forall i | 0 <= i < |rows| :: Hits(target, rows[i], unique)
    ensures SkipInsert(target, rows, unique) == target && Fresh(target, rows, unique) == []
    decreases rows
  {
    if rows != [] {
      assert forall i | 0 <= i < |rows[1..]| :: rows[1..][i] == rows[i + 1];
      NothingFresh(target, rows[1..], unique);
    }
  }

  /** Promoting the same staging table again, in any order and by either form, inserts nothing. */
  lemma RepeatInsertsNothing(target: seq<Cells>, rows: seq<Cells>, again: seq<Cells>, unique: set<nat>)
    requires (forall i | 0 <= i < |rows| :: Keyed(rows[i], unique)) && multiset(again) == multiset(rows)
    ensures var t := SkipInsert(target, rows, unique);
            SkipInsert(t, again, unique) == t && Fresh(t, again, unique) == []
  {
    var t := SkipInsert(target, rows, unique);
    forall i | 0 <= i < |again| ensures Hits(t, again[i], unique) {
      assert again[i] in multiset(rows);
      var j :| 0 <= j < |rows| && rows[j] == again[i];
      PromotedHits(target, rows, unique, j);
    }
    NothingFresh(t, again, unique);
  }

  // ---------------------------------------------------------------------------------------------
  // SQL Server's statement as a whole: the anti-join is on the columns the rule set names, the
  // target's own constraints may be on others, and a violation fails the statement.

  datatype Outcome = Inserted(target: seq<Cells>) | UniqueError

  /** SQL Server's UNIQUE constraint takes NULL for a value: one of a column in `oneNull` may be NULL at most once.
      An index filtered on IS NOT NULL, and the constraints of the other dialects, have no such columns. */
  predicate BothNull(a: Cells, b: Cells, oneNull: set<nat>) {
    exists c | c in oneNull :: c < |a| && c < |b| && a[c] == Null && b[c] == Null
  }

  predicate OneNull(target: seq<Cells>, oneNull: set<nat>) {
    forall i, j | 0 <= i < j < |target| :: !BothNull(target[i], target[j], oneNull)
  }

  predicate Accepts(target: seq<Cells>, unique: set<nat>, oneNull: set<nat>) {
    UniqueOn(target, unique) && OneNull(target, oneNull)
  }

  function AntiJoinInsert(target: seq<Cells>, rows: seq<Cells>, named: set<nat>, unique: set<nat>, oneNull: set<nat>): Outcome {
    var t := target + Fresh(target, rows, named);
    if Accepts(t, unique, oneNull) then Inserted(t) else UniqueError
  }

  lemma {:induction false} FreshAppend(target: seq<Cells>, a: seq<Cells>, b: seq<Cells>, unique: set<nat>)
    ensures Fresh(target, a + b, unique) == Fresh(target, a, unique) + Fresh(target, b, unique)
    decreases |a|
  {
    if a == [] {
      assert a + b == b;
    } else {
      assert (a + b)[1..] == a[1..] + b;
      FreshAppend(target, a[1..], b, unique);
    }
  }

  lemma {:induction false} SkipInsertAppend(target: seq<Cells>, a: seq<Cells>, b: seq<Cells>, unique: set<nat>)
    ensures SkipInsert(target, a + b, unique) == SkipInsert(SkipInsert(target, a, unique), b, unique)
    decreases |a|
  {
    if a == [] {
      assert a + b == b;
    } else {
      assert (a + b)[1..] == a[1..] + b;
      SkipInsertAppend(if Hits(target, a[0], unique) then target else target + [a[0]], a[1..], b, unique);
    }
  }

  /** The anti-join leaves the row out, and a constraint would have refused it too, after the rows let through
      before it. */
  predicate LeftOutRightly(target: seq<Cells>, rows: seq<Cells>, i: nat, named: set<nat>, unique: set<nat>)
    requires i < |rows|
  {
    Hits(target, rows[i], named) ==> Hits(target + Fresh(target, rows[..i], named), rows[i], unique)
  }

  /** A row that is let through is in the new table after the rows let through before it. */
  lemma LetThrough(target: seq<Cells>, rows: seq<Cells>, i: nat, named: set<nat>, unique: set<nat>)
    requires i < |rows| && !Hits(target, rows[i], named) && UniqueOn(target + Fresh(target, rows, named), unique)
    ensures !Hits(target + Fresh(target, rows[..i], named), rows[i], unique)
  {
    var head := target + Fresh(target, rows[..i], named);
    var all := target + Fresh(target, rows, named);
    assert rows == rows[..i] + rows[i..] && rows[i..][0] == rows[i];
    FreshAppend(target, rows[..i], rows[i..], named);
    assert all == head + Fresh(target, rows[i..], named);
    assert all[|head|] == rows[i];
    forall k | 0 <= k < |head| ensures !Collide(head[k], rows[i], unique) {
      assert head[k] == all[k] && !Collide(all[k], all[|head|], unique);
    }
  }

  lemma FreshOneMore(target: seq<Cells>, rows: seq<Cells>, i: nat, named: set<nat>)
    requires i < |rows|
    ensures rows[..i + 1] == rows[..i] + [rows[i]]
    ensures Fresh(target, rows[..i + 1], named) ==
            Fresh(target, rows[..i], named) + (if Hits(target, rows[i], named) then [] else [rows[i]])
  {
    assert rows[..i + 1] == rows[..i] + [rows[i]];
    FreshAppend(target, rows[..i], [rows[i]], named);
    assert [rows[i]][1..] == [];
  }

  lemma {:induction false} AgreeWhileRight(target: seq<Cells>, rows: seq<Cells>, i: nat, named: set<nat>, unique: set<nat>)
    requires i <= |rows| && UniqueOn(target + Fresh(target, rows, named), unique)
    requires forall k | 0 <= k < i :: LeftOutRightly(target, rows, k, named, unique)
    ensures SkipInsert(target, rows[..i], unique) == target + Fresh(target, rows[..i], named)
  {
    if i > 0 {
      var k := i - 1;
      AgreeWhileRight(target, rows, k, named, unique);
      FreshOneMore(target, rows, k, named);
      SkipInsertSnoc(target, rows[..k], rows[k], unique);
      assert LeftOutRightly(target, rows, k, named, unique);
      if !Hits(target, rows[k], named) {
        LetThrough(target, rows, k, named, unique);
        assert target + Fresh(target, rows[..k], named) + [rows[k]] == target + (Fresh(target, rows[..k], named) + [rows[k]]);
      } else {
        assert Fresh(target, rows[..k], named) + [] == Fresh(target, rows[..k], named);
      }
    } else {
      assert target + [] == target;
    }
  }

  /** The rows inserted by a prefix of the staging stay in the table. */
  lemma SkipInsertKeeps(target: seq<Cells>, rows: seq<Cells>, i: nat, unique: set<nat>, x: Cells)
    requires i <= |rows|
    ensures multiset(SkipInsert(target, rows[..i], unique))[x] <= multiset(SkipInsert(target, rows, unique))[x]
  {
    var next, all := SkipInsert(target, rows[..i], unique), SkipInsert(target, rows, unique);
    assert rows == rows[..i] + rows[i..];
    SkipInsertAppend(target, rows[..i], rows[i..], unique);
    assert all == next + all[|next|..];
    assert multiset(all) == multiset(next) + multiset(all[|next|..]);
  }

  /** A row that the anti-join leaves out is in what it inserts no more often than in the target. */
  lemma LeftOutCount(target: seq<Cells>, rows: seq<Cells>, named: set<nat>, x: Cells)
    requires Hits(target, x, named)
    ensures multiset(target + Fresh(target, rows, named))[x] == multiset(target)[x]
  {
    FreshCount(target, rows, named, x);
    assert multiset(target + Fresh(target, rows, named)) == multiset(target) + multiset(Fresh(target, rows, named));
  }

  /** If both forms end with the same table, a row the anti-join leaves out cannot have been inserted by the other. */
  lemma EqualMeansRight(target: seq<Cells>, rows: seq<Cells>, i: nat, named: set<nat>, unique: set<nat>)
    requires i < |rows| && UniqueOn(target + Fresh(target, rows, named), unique)
    requires SkipInsert(target, rows, unique) == target + Fresh(target, rows, named)
    requires SkipInsert(target, rows[..i], unique) == target + Fresh(target, rows[..i], named)
    ensures LeftOutRightly(target, rows, i, named, unique)
  {
    var x, head := rows[i], target + Fresh(target, rows[..i], named);
    if Hits(target, x, named) {
      FreshOneMore(target, rows, i, named);
      SkipInsertSnoc(target, rows[..i], x, unique);
      LeftOutCount(target, rows, named, x);
      LeftOutCount(target, rows[..i], named, x);
      SkipInsertKeeps(target, rows, i + 1, unique, x);
      assert multiset(head + [x])[x] > multiset(head)[x];
    }
  }

  lemma {:induction false} EqualMeansRightBefore(target: seq<Cells>, rows: seq<Cells>, i: nat, named: set<nat>, unique: set<nat>)
    requires i <= |rows| && UniqueOn(target + Fresh(target, rows, named), unique)
    requires SkipInsert(target, rows, unique) == target + Fresh(target, rows, named)
    ensures forall k | 0 <= k < i :: LeftOutRightly(target, rows, k, named, unique)
    decreases i
  {
    if i > 0 {
      EqualMeansRightBefore(target, rows, i - 1, named, unique);
      AgreeWhileRight(target, rows, i - 1, named, unique);
      EqualMeansRight(target, rows, i - 1, named, unique);
    }
  }

  /** SQL Server's promote does what skip-on-conflict does, for any staged rows, if and only if the target accepts all
      rows the anti-join lets through, and would have refused each one it leaves out. */
  lemma PromotesAgreeIff(target: seq<Cells>, rows: seq<Cells>, named: set<nat>, unique: set<nat>, oneNull: set<nat>)
    ensures AntiJoinInsert(target, rows, named, unique, oneNull) == Inserted(SkipInsert(target, rows, unique)) <==>
            && Accepts(target + Fresh(target, rows, named), unique, oneNull)
            && forall i | 0 <= i < |rows| :: LeftOutRightly(target, rows, i, named, unique)
  {
    var t := target + Fresh(target, rows, named);
    assert rows[..|rows|] == rows;
    if Accepts(t, unique, oneNull) {
      if forall i | 0 <= i < |rows| :: LeftOutRightly(target, rows, i, named, unique) {
        AgreeWhileRight(target, rows, |rows|, named, unique);
      }
      if SkipInsert(target, rows, unique) == t {
        EqualMeansRightBefore(target, rows, |rows|, named, unique);
      }
    }
  }

  /** For staging without conflicts on the target's constraints, and NULLs that never conflict: iff, for every staged
      row, having a named key in the target already is the same as violating a constraint of the target. */
  lemma PromotesAgreeOnCleanStaging(target: seq<Cells>, rows: seq<Cells>, named: set<nat>, unique: set<nat>)
    requires UniqueOn(target, unique) && UniqueOn(rows, unique)
    ensures AntiJoinInsert(target, rows, named, unique, {}) == Inserted(SkipInsert(target, rows, unique)) <==>
            forall i | 0 <= i < |rows| :: Hits(target, rows[i], named) == Hits(target, rows[i], unique)
  {
    SkipInsertIsFresh(target, rows, unique);
    SkipInsertUnique(target, rows, unique);
    var a, b := Fresh(target, rows, named), Fresh(target, rows, unique);
    assert target + a == target + b <==> a == b by {
      assert (target + a)[|target|..] == a && (target + b)[|target|..] == b;
    }
    if forall i | 0 <= i < |rows| :: Hits(target, rows[i], named) == Hits(target, rows[i], unique) {
      SameHitsSameFresh(target, rows, named, unique);
    }
    if a == b {
      forall i | 0 <= i < |rows| ensures Hits(target, rows[i], named) == Hits(target, rows[i], unique) {
        FreshCount(target, rows, named, rows[i]);
        FreshCount(target, rows, unique, rows[i]);
        assert rows[i] in multiset(rows);
      }
    }
  }

  /** Two staged rows that the anti-join lets through and that clash on a constraint the rule set does not name: SQL
      Server's statement fails as a whole, while skip-on-conflict goes through and keeps the constraints. */
  lemma ClashingStaging(target: seq<Cells>, rows: seq<Cells>, named: set<nat>, unique: set<nat>, oneNull: set<nat>, i: nat, k: nat)
    requires i < k < |rows| && Collide(rows[i], rows[k], unique) && UniqueOn(target, unique)
    requires !Hits(target, rows[i], named) && !Hits(target, rows[k], named)
    ensures AntiJoinInsert(target, rows, named, unique, oneNull) == UniqueError
    ensures UniqueOn(SkipInsert(target, rows, unique), unique)
  {
    SkipInsertUnique(target, rows, unique);
    EarlierClashHits(target, rows, named, unique, i, k);
    if UniqueOn(target + Fresh(target, rows, named), unique) { LetThrough(target, rows, k, named, unique); }
  }

  lemma EarlierClashHits(target: seq<Cells>, rows: seq<Cells>, named: set<nat>, unique: set<nat>, i: nat, k: nat)
    requires i < k < |rows| && Collide(rows[i], rows[k], unique) && !Hits(target, rows[i], named)
    ensures Hits(target + Fresh(target, rows[..k], named), rows[k], unique)
  {
    var passed := Fresh(target, rows[..k], named);
    FreshCount(target, rows[..k], named, rows[i]);
    assert rows[i] == rows[..k][i] && rows[i] in multiset(rows[..k]);
    assert rows[i] in multiset(passed);
    var p :| 0 <= p < |passed| && passed[p] == rows[i];
    assert (target + passed)[|target| + p] == rows[i];
  }

  const X := Val("x")
  const Y := Val("y")

  /** The rule set names no column of a constraint: the anti-join lets a known key through and fails. */
  lemma UnnamedKeyDiffers()
    ensures AntiJoinInsert([[X]], [[X]], {}, {0}, {}) == UniqueError && SkipInsert([[X]], [[X]], {0}) == [[X]]
  {
    assert SameKey([X], [X], 0) && Collide([X], [X], {0});
    assert Hits([[X]], [X], {0}) by { assert Collide([[X]][0], [X], {0}); }
    assert !Hits([[X]], [X], {});
    assert [[X]][1..] == [] && Fresh([[X]], [[X]], {}) == [[X]];
    assert ([[X]] + [[X]])[0] == [X] && ([[X]] + [[X]])[1] == [X];
  }

  /** It names a column without a constraint: the anti-join leaves a row out that the others insert. */
  lemma UnconstrainedNameDiffers()
    ensures AntiJoinInsert([[X, X]], [[Y, X]], {0, 1}, {0}, {}) == Inserted([[X, X]])
    ensures SkipInsert([[X, X]], [[Y, X]], {0}) == [[X, X], [Y, X]]
  {
    assert SameKey([X, X], [Y, X], 1) && !SameKey([X, X], [Y, X], 0);
    assert Hits([[X, X]], [Y, X], {0, 1}) by { assert Collide([[X, X]][0], [Y, X], {0, 1}); }
    assert !Hits([[X, X]], [Y, X], {0});
    assert [[Y, X]][1..] == [] && Fresh([[X, X]], [[Y, X]], {0, 1}) == [];
    assert [[X, X]] + [] == [[X, X]] && [[X, X]] + [[Y, X]] == [[X, X], [Y, X]];
  }

  /** A second NULL in a column with a SQL Server UNIQUE constraint fails the statement; the others insert it. */
  lemma SecondNullDiffers()
    ensures AntiJoinInsert([[Null]], [[Null]], {0}, {0}, {0}) == UniqueError
    ensures SkipInsert([[Null]], [[Null]], {0}) == [[Null], [Null]]
  {
    assert !SameKey([Null], [Null], 0);
    assert !Hits([[Null]], [Null], {0});
    assert [[Null]][1..] == [] && Fresh([[Null]], [[Null]], {0}) == [[Null]];
    var t := [[Null]] + [[Null]];
    assert t == [[Null], [Null]] && BothNull(t[0], t[1], {0});
  }

  lemma {:induction false} SameHitsSameFresh(target: seq<Cells>, rows: seq<Cells>, named: set<nat>, unique: set<nat>)
    requires forall i | 0 <= i < |rows| :: Hits(target, rows[i], named) == Hits(target, rows[i], unique)
    ensures Fresh(target, rows, named) == Fresh(target, rows, unique)
  {
    if rows != [] {
      assert Hits(target, rows[0], named) == Hits(target, rows[0], unique);
      assert forall i | 0 <= i < |rows[1..]| :: rows[1..][i] == rows[i + 1];
      SameHitsSameFresh(target, rows[1..], named, unique);
    }
  }

  // ---------------------------------------------------------------------------------------------
  // The adapters

  /** The target's table, shared by the dialects: its rows and the columns it constrains; `oneNull` is empty except
      for constraints of SQL Server. */
  class Table {
    var rows: seq<Cells>
    const unique: set<nat>
    const oneNull: set<nat>

    constructor (rows: seq<Cells>, unique: set<nat>, oneNull: set<nat>)
      ensures this.rows == rows && this.unique == unique && this.oneNull == oneNull
    {
      this.rows, this.unique, this.oneNull := rows, unique, oneNull;
    }

    ghost predicate Valid()
      reads this
    {
      Accepts(rows, unique, oneNull)
    }

    /** `INSERT ... SELECT ... ON CONFLICT DO NOTHING` and `INSERT IGNORE ... SELECT`: the staged rows
        arrive in whatever order the SELECT delivers them. */
    method PromoteSkipping(staged: seq<Cells>) returns (count: nat, ghost order: seq<Cells>)
      requires Valid() && oneNull == {}
      modifies this
      ensures Valid() && multiset(order) == multiset(staged) && rows == SkipInsert(old(rows), order, unique)
      ensures count == |rows| - |old(rows)|
      ensures UniqueOn(staged, unique) ==>
        count == |Fresh(old(rows), staged, unique)| && multiset(rows) == multiset(old(rows) + Fresh(old(rows), staged, unique))
    {
      order := [];
      var left := multiset(staged);
      count := 0;
      while left != multiset{}
        invariant multiset(order) + left == multiset(staged)
        invariant UniqueOn(rows, unique) && rows == SkipInsert(old(rows), order, unique)
        invariant count == |rows| - |old(rows)|
        decreases |left|
      {
        var row :| row in left;
        left := left - multiset{row};
        SkipInsertSnoc(old(rows), order, row, unique);
        order := order + [row];
        if !Hits(rows, row, unique) {
          rows := rows + [row];
          count := count + 1;
        }
      }
      if UniqueOn(staged, unique) { AnyOrder(old(rows), staged, order, unique); }
    }

    /** `INSERT ... SELECT ... WHERE NOT EXISTS (...) AND ...` */
    method PromoteAntiJoin(staged: seq<Cells>, named: set<nat>) returns (ok: bool, count: nat)
      requires Valid()
      modifies this
      ensures Valid()
      ensures ok == AntiJoinInsert(old(rows), staged, named, unique, oneNull).Inserted?
      ensures rows == if ok then AntiJoinInsert(old(rows), staged, named, unique, oneNull).target else old(rows)
      ensures count == |rows| - |old(rows)|
    {
      var before := rows;
      var passed: seq<Cells> := [];
      var i := 0;
      while i < |staged|
        invariant 0 <= i <= |staged| && rows == before
        invariant passed + Fresh(before, staged[i..], named) == Fresh(before, staged, named)
      {
        FreshTurn(before, staged, i, passed, named);
        if !Hits(before, staged[i], named) { passed := passed + [staged[i]]; }
        i := i + 1;
      }
      FreshEnd(before, staged, passed, named);
      ok := Accepts(before + passed, unique, oneNull);
      if ok { rows := before + passed; }
      count := |rows| - |before|;
    }
  }

  lemma FreshTurn(target: seq<Cells>, rows: seq<Cells>, i: nat, passed: seq<Cells>, unique: set<nat>)
    requires i < |rows|
    ensures var more := if Hits(target, rows[i], unique) then passed else passed + [rows[i]];
            passed + Fresh(target, rows[i..], unique) == more + Fresh(target, rows[i + 1..], unique)
  {
    assert rows[i..][0] == rows[i] && rows[i..][1..] == rows[i + 1..];
  }

  lemma FreshEnd(target: seq<Cells>, rows: seq<Cells>, passed: seq<Cells>, unique: set<nat>)
    ensures passed + Fresh(target, rows[|rows|..], unique) == passed
  {
  }

  lemma {:induction false} SkipInsertSnoc(target: seq<Cells>, rows: seq<Cells>, row: Cells, unique: set<nat>)
    ensures var t := SkipInsert(target, rows, unique);
            SkipInsert(target, rows + [row], unique) == if Hits(t, row, unique) then t else t + [row]
    decreases rows
  {
    if rows == [] {
      assert ([] + [row])[1..] == [];
    } else {
      assert (rows + [row])[1..] == rows[1..] + [row];
      SkipInsertSnoc(if Hits(target, rows[0], unique) then target else target + [rows[0]], rows[1..], row, unique);
    }
  }
}
