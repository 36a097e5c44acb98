/** Bulk update and bulk delete: one action per row, with counters that all chunk workers add to
    (services/worker-core/src/rowPipeline.ts:45-105). The hand-out of chunks is that of ImportHandout. */
module RowJob {
  import opened Basics
  import opened ImportPlan
  import opened ImportRun
  import opened ImportHandout
  import opened ImportTally

  /** What the action did with a row. */
  datatype Outcome = Outcome(processed: bool, error: bool)

  function Processed(cfg: Config, validate: bool, act: nat -> Outcome): nat -> nat {
    (n: nat) => if validate && 0 < n <= cfg.Total() && cfg.records[n - 1].Faulty? then 0 else if act(n).processed then 1 else 0
  }

  function Errors(cfg: Config, validate: bool, act: nat -> Outcome): nat -> nat {
    (n: nat) => if validate && 0 < n <= cfg.Total() && cfg.records[n - 1].Faulty? then |cfg.records[n - 1].rules|
                else if act(n).error then 1 else 0
  }

  /** `f` summed over the rows numbered `lo + 1 .. hi`. */
  function Rows(f: nat -> nat, lo: nat, hi: nat): nat
    requires lo <= hi
    decreases hi - lo
  {
    if lo == hi then 0 else Rows(f, lo, hi - 1) + f(hi)
  }

  lemma {:induction false} RowsJoin(f: nat -> nat, lo: nat, mid: nat, hi: nat)
    requires lo <= mid <= hi
    ensures Rows(f, lo, hi) == Rows(f, lo, mid) + Rows(f, mid, hi)
    decreases hi - mid
  {
    if mid < hi { RowsJoin(f, lo, mid, hi - 1); }
  }

  /** `f` summed over chunk `c`. */
  function ChunkSum(cfg: Config, f: nat -> nat, c: nat): nat {
    if cfg.Start(c) <= cfg.End(c) then Rows(f, cfg.Start(c), cfg.End(c)) else 0
  }

  function Chunks(cfg: Config, f: nat -> nat, order: seq<nat>): nat {
    if order == [] then 0 else Chunks(cfg, f, order[..|order| - 1]) + ChunkSum(cfg, f, order[|order| - 1])
  }

  lemma {:induction false} ChunksTakeOut(cfg: Config, f: nat -> nat, order: seq<nat>, i: nat)
    requires i < |order|
    ensures Chunks(cfg, f, order) == Chunks(cfg, f, order[..i] + order[i + 1..]) + ChunkSum(cfg, f, order[i])
    decreases |order|
  {
    var k := |order| - 1;
    if i < k {
      ChunksTakeOut(cfg, f, order[..k], i);
      var rest := order[..i] + order[i + 1..];
      assert rest[..k - 1] == order[..k][..i] + order[..k][i + 1..];
      assert rest[k - 1] == order[k];
    } else {
      assert order[..i] + order[i + 1..] == order[..k];
    }
  }

  /** `order` is chunks 0 .. `n - 1` in some order. */
  predicate Ordering(order: seq<nat>, n: nat) {
    |order| == n && Distinct(order) && forall c | 0 <= c < n :: c in order
  }

  lemma TakeOutLast(order: seq<nat>, n: nat, i: nat)
    requires Ordering(order, n) && i < |order| && order[i] == n - 1
    ensures Ordering(order[..i] + order[i + 1..], n - 1)
  {
    var rest := order[..i] + order[i + 1..];
    forall c | 0 <= c < n - 1 ensures c in rest {
      assert c in order;
      var k :| 0 <= k < |order| && order[k] == c;
      assert rest[if k < i then k else k - 1] == c;
    }
  }

  /** Chunks finished in any order add up to the rows before the end of the last one. */
  lemma {:induction false} AnyOrderAddsUp(cfg: Config, f: nat -> nat, order: seq<nat>, n: nat)
    requires cfg.WellFormed() && n <= cfg.ChunkCount() && Ordering(order, n)
    ensures n > 0 ==> cfg.End(n - 1) <= cfg.Total()
    ensures Chunks(cfg, f, order) == if n == 0 then 0 else Rows(f, 0, cfg.End(n - 1))
    decreases n
  {
    if n > 0 {
      assert n - 1 in order;
      var i :| 0 <= i < |order| && order[i] == n - 1;
      ChunksTakeOut(cfg, f, order, i);
      TakeOutLast(order, n, i);
      AnyOrderAddsUp(cfg, f, order[..i] + order[i + 1..], n - 1);
      ChunkStartWithin(cfg, n - 1);
      if n > 1 {
        ChunkStartWithin(cfg, n - 2);
        RowsJoin(f, 0, cfg.Start(n - 1), cfg.End(n - 1));
      }
    }
  }

  /** The counts returned are those of all rows, each once, in whatever order the chunks are done. */
  lemma CountsAreOfAllRows(cfg: Config, f: nat -> nat, order: seq<nat>)
    requires cfg.WellFormed() && Ordering(order, cfg.ChunkCount())
    ensures Chunks(cfg, f, order) == Rows(f, 0, cfg.Total())
  {
    AnyOrderAddsUp(cfg, f, order, cfg.ChunkCount());
    ChunkStartWithin(cfg, cfg.ChunkCount() - 1);
  }

  function Erring(act: nat -> Outcome): nat -> bool { (n: nat) => act(n).error }
  function Doing(act: nat -> Outcome): nat -> bool { (n: nat) => act(n).processed }
  function Ones(p: nat -> bool): nat -> nat { (n: nat) => if p(n) then 1 else 0 }

  /** What the counts are made of. With validation a faulty row counts once for each of its errors and is never acted on,
      and every other row counts as its action went; without, every row counts as its action went. */
  lemma {:induction false} CountsExplained(cfg: Config, act: nat -> Outcome, hi: nat)
    requires hi <= cfg.Total()
    ensures Rows(Errors(cfg, true, act), 0, hi) == FaultsOf(cfg, 0, hi) + Acted(cfg, Erring(act), hi)
    ensures Rows(Processed(cfg, true, act), 0, hi) == Acted(cfg, Doing(act), hi)
    ensures Rows(Errors(cfg, false, act), 0, hi) == Rows(Ones(Erring(act)), 0, hi)
    ensures Rows(Processed(cfg, false, act), 0, hi) == Rows(Ones(Doing(act)), 0, hi)
    decreases hi
  {
    if hi > 0 { CountsExplained(cfg, act, hi - 1); }
  }

  /** Of the first `hi` rows, the valid ones with property `p`. */
  function Acted(cfg: Config, p: nat -> bool, hi: nat): nat
    requires hi <= cfg.Total()
  {
    if hi == 0 then 0 else Acted(cfg, p, hi - 1) + (if cfg.IsValid(hi) && p(hi) then 1 else 0)
  }

  function Started(starts: seq<Start>): seq<nat> {
    seq(|starts|, i requires 0 <= i < |starts| => starts[i].chunk)
  }

  /** The hand-out of any finished, uncancelled run of the chunk workers is such an ordering, so the counts are those
      of all rows. */
  lemma HandedOutAddsUp(cfg: Config, s: State, f: nat -> nat)
    requires cfg.WellFormed() && Reachable(cfg, s) && Proceeds(s)
    ensures Ordering(Started(s.starts), cfg.ChunkCount())
    ensures Chunks(cfg, f, Started(s.starts)) == Rows(f, 0, cfg.Total())
  {
    HandoutComplete(cfg, s);
    forall c | 0 <= c < cfg.ChunkCount() ensures c in Started(s.starts) {
      assert Started(s.starts)[c] == c;
    }
    CountsAreOfAllRows(cfg, f, Started(s.starts));
  }

  class Counters {
    var processed: nat
    var errors: nat

    constructor ()
      ensures processed == 0 && errors == 0
    {
      processed, errors := 0, 0;
    }

    /** One chunk: its own counters first, added to the shared ones at its end. */
    method RunChunk(cfg: Config, c: nat, validate: bool, act: nat -> Outcome)
      requires cfg.WellFormed() && c < cfg.ChunkCount()
      modifies this
      ensures processed == old(processed) + ChunkSum(cfg, Processed(cfg, validate, act), c)
      ensures errors == old(errors) + ChunkSum(cfg, Errors(cfg, validate, act), c)
    {
      ChunkStartWithin(cfg, c);
      var done, bad, r := 0, 0, cfg.Start(c);
      while r < cfg.End(c)
        invariant cfg.Start(c) <= r <= cfg.End(c)
        invariant done == Rows(Processed(cfg, validate, act), cfg.Start(c), r)
        invariant bad == Rows(Errors(cfg, validate, act), cfg.Start(c), r)
        invariant processed == old(processed) && errors == old(errors)
      {
        var number := r + 1;
        r := r + 1;
        if validate && cfg.records[number - 1].Faulty? {
          bad := bad + |cfg.records[number - 1].rules|;
          continue;
        }
        var out := act(number);
        if out.processed { done := done + 1; }
        if out.error { bad := bad + 1; }
      }
      processed, errors := processed + done, errors + bad;
    }

    /** All chunks, in the order in which they end. */
    method RunRowJob(cfg: Config, order: seq<nat>, validate: bool, act: nat -> Outcome)
      requires cfg.WellFormed() && Ordering(order, cfg.ChunkCount()) && processed == 0 && errors == 0
      modifies this
      ensures processed == Rows(Processed(cfg, validate, act), 0, cfg.Total())
      ensures errors == Rows(Errors(cfg, validate, act), 0, cfg.Total())
    {
      var k := 0;
      OrderingInRange(order, cfg.ChunkCount());
      while k < |order|
        invariant 0 <= k <= |order|
        invariant processed == Chunks(cfg, Processed(cfg, validate, act), order[..k])
        invariant errors == Chunks(cfg, Errors(cfg, validate, act), order[..k])
      {
        assert order[..k + 1][..k] == order[..k];
        assert order[k] in order;
        RunChunk(cfg, order[k], validate, act);
        k := k + 1;
      }
      assert order[..k] == order;
      CountsAreOfAllRows(cfg, Processed(cfg, validate, act), order);
      CountsAreOfAllRows(cfg, Errors(cfg, validate, act), order);
    }
  }

  /** An ordering holds nothing but chunk numbers. */
  lemma {:induction false} OrderingInRange(order: seq<nat>, n: nat)
    requires Ordering(order, n)
    ensures forall c | c in order :: c < n
    decreases n
  {
    if n > 0 {
      assert n - 1 in order;
      var i :| 0 <= i < |order| && order[i] == n - 1;
      var rest := order[..i] + order[i + 1..];
      TakeOutLast(order, n, i);
      OrderingInRange(rest, n - 1);
      forall c | c in order ensures c < n {
        var k :| 0 <= k < |order| && order[k] == c;
        if k != i { assert rest[if k < i then k else k - 1] == c && c in rest; }
      }
    }
  }
}
