/** The one-pass parser of packages/rule-engine/src/expression.ts: it evaluates while it parses.

    `Parse` is the same descent building a tree instead of a value; the methods of class `Parser`
    are proved to compute that tree's meaning. The lemmas then show what the descent recognises. */
module ExprParser {
  import opened ExprSyntax

  /** What the lexer hands over: the end marker is last and nowhere else. */
  predicate Terminated(toks: seq<Tok>) {
    && |toks| > 0
    && toks[|toks| - 1] == Eof
    && forall i | 0 <= i < |toks| - 1 :: toks[i] != Eof
  }

  datatype Parsed = Parsed(tree: Tree, next: nat) | Failed(error: Error)

  // ---------------------------------------------------------------------------------------------
  // Specification: the descent, level by level

  function Parse(toks: seq<Tok>, k: nat, pos: nat): (r: Parsed)
    requires Terminated(toks) && pos < |toks| && k <= 7
    ensures r.Parsed? ==> pos < r.next < |toks|
    decreases |toks| - pos, 7 - k, 1
  {
    if k == 7 then ParsePrimary(toks, pos)
    else if k == 6 then ParsePrefix(toks, pos)
    else if k == RELATIONAL then ParseRelational(toks, pos)
    else
      match Parse(toks, k + 1, pos)
      case Failed(e) => Failed(e)
      case Parsed(l, p) => Fold(toks, k, l, p)
  }

  function ParsePrimary(toks: seq<Tok>, pos: nat): (r: Parsed)
    requires Terminated(toks) && pos < |toks|
    ensures r.Parsed? ==> pos < r.next < |toks|
    decreases |toks| - pos, 0, 0
  {
    var tok := toks[pos];
    if tok == LParen then
      match Parse(toks, 0, pos + 1)
      case Failed(e) => Failed(e)
      case Parsed(t, p) => if toks[p] == RParen then Parsed(Paren(t), p + 1) else Failed(Expected(RParen))
    else if tok.Num? || tok.Str? || tok.Ident? then Parsed(Leaf(tok), pos + 1)
    else Failed(UnexpectedToken(tok))
  }

  function ParsePrefix(toks: seq<Tok>, pos: nat): (r: Parsed)
    requires Terminated(toks) && pos < |toks|
    ensures r.Parsed? ==> pos < r.next < |toks|
    decreases |toks| - pos, 1, 0
  {
    if toks[pos] == Bang || toks[pos] == Minus then
      match ParsePrefix(toks, pos + 1)
      case Failed(e) => Failed(e)
      case Parsed(t, p) => Parsed(Unary(toks[pos], t), p)
    else ParsePrimary(toks, pos)
  }

  function ParseRelational(toks: seq<Tok>, pos: nat): (r: Parsed)
    requires Terminated(toks) && pos < |toks|
    ensures r.Parsed? ==> pos < r.next < |toks|
    decreases |toks| - pos, 4, 0
  {
    match Parse(toks, 4, pos)
    case Failed(e) => Failed(e)
    case Parsed(l, p) =>
      if Level(toks[p]) != RELATIONAL then Parsed(l, p)
      else
        match Parse(toks, 4, p + 1)
        case Failed(e) => Failed(e)
        case Parsed(r, q) => Parsed(Binary(toks[p], l, r), q)
  }

  /** The `while (peek is an operator of level k)` loop, with `left` parsed so far. */
  function Fold(toks: seq<Tok>, k: nat, left: Tree, pos: nat): (r: Parsed)
    requires Terminated(toks) && pos < |toks| && k <= 5
    ensures r.Parsed? ==> pos <= r.next < |toks|
    decreases |toks| - pos, 7 - k, 0
  {
    if Level(toks[pos]) != k then Parsed(left, pos)
    else
      match Parse(toks, k + 1, pos + 1)
      case Failed(e) => Failed(e)
      case Parsed(r, p) => Fold(toks, k, Binary(toks[pos], left, r), p)
  }

  function ParseAll(toks: seq<Tok>): Result<Tree, Error>
    requires Terminated(toks)
  {
    match Parse(toks, 0, 0)
    case Failed(e) => Err(e)
    case Parsed(t, p) => if toks[p] == Eof then Ok(t) else Err(Trailing)
  }

  // ---------------------------------------------------------------------------------------------
  // Soundness: what is parsed is derivable and is exactly the consumed tokens

  /** `t` is derivable at level `k` and spells the tokens from `pos` up to `end`. */
  predicate Spells(toks: seq<Tok>, pos: nat, end: nat, t: Tree, k: nat) {
    pos <= end <= |toks| && Derivable(t, k) && toks[pos..end] == Yield(t)
  }

  lemma SpellsBinary(toks: seq<Tok>, pos: nat, mid: nat, end: nat, l: Tree, r: Tree)
    requires mid < end <= |toks| && Level(toks[mid]) <= 5
    requires Spells(toks, pos, mid, l, LeftLevel(toks[mid])) && Spells(toks, mid + 1, end, r, Level(toks[mid]) + 1)
    ensures Spells(toks, pos, end, Binary(toks[mid], l, r), Level(toks[mid]))
  {
    assert toks[pos..end] == toks[pos..mid] + [toks[mid]] + toks[mid + 1..end];
  }

  lemma {:induction false} ParseSound(toks: seq<Tok>, k: nat, pos: nat)
    requires Terminated(toks) && pos < |toks| && k <= 7
    ensures var r := Parse(toks, k, pos); r.Parsed? ==> Spells(toks, pos, r.next, r.tree, k)
    decreases |toks| - pos, 7 - k, 1
  {
    if k == 7 {
      PrimarySound(toks, pos);
    } else if k == 6 {
      PrefixSound(toks, pos);
    } else if k == RELATIONAL {
      RelationalSound(toks, pos);
    } else {
      ParseSound(toks, k + 1, pos);
      var l := Parse(toks, k + 1, pos);
      if l.Parsed? {
        DerivableBelow(l.tree, k + 1, k);
        FoldSound(toks, k, l.tree, l.next, pos);
      }
    }
  }

  lemma {:induction false} PrimarySound(toks: seq<Tok>, pos: nat)
    requires Terminated(toks) && pos < |toks|
    ensures var r := ParsePrimary(toks, pos); r.Parsed? ==> Spells(toks, pos, r.next, r.tree, 7)
    decreases |toks| - pos, 0, 0
  {
    var r := ParsePrimary(toks, pos);
    if toks[pos] == LParen && r.Parsed? {
      ParseSound(toks, 0, pos + 1);
      assert toks[pos..r.next] == [LParen] + toks[pos + 1..r.next - 1] + [RParen];
    }
  }

  lemma {:induction false} PrefixSound(toks: seq<Tok>, pos: nat)
    requires Terminated(toks) && pos < |toks|
    ensures var r := ParsePrefix(toks, pos); r.Parsed? ==> Spells(toks, pos, r.next, r.tree, 6)
    decreases |toks| - pos, 1, 0
  {
    var r := ParsePrefix(toks, pos);
    if toks[pos] == Bang || toks[pos] == Minus {
      PrefixSound(toks, pos + 1);
      if r.Parsed? { assert toks[pos..r.next] == [toks[pos]] + toks[pos + 1..r.next]; }
    } else {
      PrimarySound(toks, pos);
      if r.Parsed? { DerivableBelow(r.tree, 7, 6); }
    }
  }

  lemma {:induction false} RelationalSound(toks: seq<Tok>, pos: nat)
    requires Terminated(toks) && pos < |toks|
    ensures var r := ParseRelational(toks, pos); r.Parsed? ==> Spells(toks, pos, r.next, r.tree, 3)
    decreases |toks| - pos, 4, 0
  {
    ParseSound(toks, 4, pos);
    var l := Parse(toks, 4, pos);
    if l.Parsed? && Level(toks[l.next]) == RELATIONAL {
      ParseSound(toks, 4, l.next + 1);
      var r := Parse(toks, 4, l.next + 1);
      if r.Parsed? { SpellsBinary(toks, pos, l.next, r.next, l.tree, r.tree); }
    } else if l.Parsed? {
      DerivableBelow(l.tree, 4, 3);
    }
  }

  lemma {:induction false} FoldSound(toks: seq<Tok>, k: nat, left: Tree, pos: nat, start: nat)
    requires Terminated(toks) && start <= pos < |toks| && k <= 5 && k != RELATIONAL
    requires Spells(toks, start, pos, left, k)
    ensures var r := Fold(toks, k, left, pos); r.Parsed? ==> Spells(toks, start, r.next, r.tree, k)
    decreases |toks| - pos, 7 - k, 0
  {
    if Level(toks[pos]) == k {
      ParseSound(toks, k + 1, pos + 1);
      var r := Parse(toks, k + 1, pos + 1);
      if r.Parsed? {
        SpellsBinary(toks, start, pos, r.next, left, r.tree);
        FoldSound(toks, k, Binary(toks[pos], left, r.tree), r.next, start);
      }
    }
  }

  // ---------------------------------------------------------------------------------------------
  // Completeness: the descent finds every derivable tree

  /** `t` is derivable at level `k` and occurs at `pos`, before at least the end marker. */
  predicate Occurs(toks: seq<Tok>, pos: nat, t: Tree, k: nat) {
    pos + |Yield(t)| < |toks| && Spells(toks, pos, pos + |Yield(t)|, t, k)
  }

  /** The token at `pos` cannot continue a phrase of level `k`. */
  predicate Stops(toks: seq<Tok>, pos: nat, k: nat) {
    pos < |toks| && (Level(toks[pos]) < k || Level(toks[pos]) > 5)
  }

  lemma SplitSlice(toks: seq<Tok>, pos: nat, a: seq<Tok>, b: seq<Tok>)
    requires pos + |a + b| <= |toks| && toks[pos..pos + |a + b|] == a + b
    ensures toks[pos..pos + |a|] == a && toks[pos + |a|..pos + |a| + |b|] == b
  {
    var z := toks[pos..pos + |a + b|];
    assert forall i | 0 <= i < |a| :: toks[pos + i] == z[i] == a[i];
    assert forall i | 0 <= i < |b| :: toks[pos + |a| + i] == z[|a| + i] == b[i];
  }

  lemma OccursBinary(toks: seq<Tok>, pos: nat, t: Tree, k: nat)
    requires Occurs(toks, pos, t, k) && t.Binary?
    ensures |Yield(t)| == |Yield(t.left)| + 1 + |Yield(t.right)|
    ensures Occurs(toks, pos, t.left, LeftLevel(t.op))
    ensures var p := pos + |Yield(t.left)|; toks[p] == t.op && Occurs(toks, p + 1, t.right, Level(t.op) + 1)
  {
    var l, r := Yield(t.left), Yield(t.right);
    SplitSlice(toks, pos, l + [t.op], r);
    SplitSlice(toks, pos, l, [t.op]);
  }

  lemma OccursParen(toks: seq<Tok>, pos: nat, t: Tree, k: nat)
    requires Occurs(toks, pos, t, k) && t.Paren?
    ensures Occurs(toks, pos + 1, t.inner, 0) && toks[pos] == LParen && toks[pos + 1 + |Yield(t.inner)|] == RParen
  {
    SplitSlice(toks, pos, [LParen] + Yield(t.inner), [RParen]);
    SplitSlice(toks, pos, [LParen], Yield(t.inner));
  }

  lemma OccursUnary(toks: seq<Tok>, pos: nat, t: Tree, k: nat)
    requires Occurs(toks, pos, t, k) && t.Unary?
    ensures Occurs(toks, pos + 1, t.arg, 6) && toks[pos] == t.op
  {
    SplitSlice(toks, pos, [t.op], Yield(t.arg));
  }

  lemma OccursTighter(toks: seq<Tok>, pos: nat, t: Tree, k: nat)
    requires Occurs(toks, pos, t, k) && k <= 5 && !(t.Binary? && Level(t.op) == k)
    ensures Occurs(toks, pos, t, k + 1)
  {
  }

  /** A derivable tree followed by a token that cannot extend it at level `k` is parsed whole. */
  lemma {:induction false} ParseComplete(toks: seq<Tok>, k: nat, pos: nat, t: Tree)
    requires Terminated(toks) && k <= 7 && Occurs(toks, pos, t, k) && Stops(toks, pos + |Yield(t)|, k)
    ensures Parse(toks, k, pos) == Parsed(t, pos + |Yield(t)|)
    decreases t, 7 - k, 1
  {
    if k == 7 {
      PrimaryComplete(toks, pos, t);
    } else if k == 6 {
      PrefixComplete(toks, pos, t);
    } else if k == RELATIONAL {
      RelationalComplete(toks, pos, t);
    } else {
      ReachesFold(toks, k, pos, t);
    }
  }

  lemma {:induction false} PrimaryComplete(toks: seq<Tok>, pos: nat, t: Tree)
    requires Terminated(toks) && Occurs(toks, pos, t, 7)
    ensures ParsePrimary(toks, pos) == Parsed(t, pos + |Yield(t)|)
    decreases t, 0, 0
  {
    if t.Paren? {
      OccursParen(toks, pos, t, 7);
      ParseComplete(toks, 0, pos + 1, t.inner);
    } else {
      assert toks[pos] == toks[pos..pos + 1][0] == t.tok;
    }
  }

  lemma {:induction false} PrefixComplete(toks: seq<Tok>, pos: nat, t: Tree)
    requires Terminated(toks) && Occurs(toks, pos, t, 6)
    ensures ParsePrefix(toks, pos) == Parsed(t, pos + |Yield(t)|)
    decreases t, 1, 0
  {
    if t.Unary? {
      OccursUnary(toks, pos, t, 6);
      PrefixComplete(toks, pos + 1, t.arg);
    } else {
      PrimaryComplete(toks, pos, t);
      assert toks[pos] == toks[pos..pos + |Yield(t)|][0] == Yield(t)[0];
    }
  }

  lemma {:induction false} RelationalComplete(toks: seq<Tok>, pos: nat, t: Tree)
    requires Terminated(toks) && Occurs(toks, pos, t, 3) && Stops(toks, pos + |Yield(t)|, 3)
    ensures ParseRelational(toks, pos) == Parsed(t, pos + |Yield(t)|)
    decreases t, 4, 0
  {
    if t.Binary? && Level(t.op) == RELATIONAL {
      RelationalPairComplete(toks, pos, t);
    } else {
      OccursTighter(toks, pos, t, 3);
      ParseComplete(toks, 4, pos, t);
      RelationalAlone(toks, pos, t, pos + |Yield(t)|);
    }
  }

  lemma OccursOperands(toks: seq<Tok>, k: nat, pos: nat, t: Tree) returns (p: nat)
    requires k <= 5 && t.Binary? && Level(t.op) == k
    requires Occurs(toks, pos, t, k) && Stops(toks, pos + |Yield(t)|, k + 1)
    ensures p == pos + |Yield(t.left)| && p < |toks| && toks[p] == t.op
    ensures Occurs(toks, pos, t.left, LeftLevel(t.op)) && Stops(toks, p, k + 1)
    ensures p + 1 + |Yield(t.right)| == pos + |Yield(t)|
    ensures Occurs(toks, p + 1, t.right, k + 1) && Stops(toks, p + 1 + |Yield(t.right)|, k + 1)
  {
    OccursBinary(toks, pos, t, k);
    p := pos + |Yield(t.left)|;
  }

  lemma {:induction false} RelationalPairComplete(toks: seq<Tok>, pos: nat, t: Tree)
    requires Terminated(toks) && Occurs(toks, pos, t, 3) && Stops(toks, pos + |Yield(t)|, 3)
    requires t.Binary? && Level(t.op) == RELATIONAL
    ensures ParseRelational(toks, pos) == Parsed(t, pos + |Yield(t)|)
    decreases t, 3, 1
  {
    var p := OccursOperands(toks, RELATIONAL, pos, t);
    ParseComplete(toks, 4, pos, t.left);
    ParseComplete(toks, 4, p + 1, t.right);
    RelationalTurn(toks, pos, p, t.left, t.right, pos + |Yield(t)|);
  }

  lemma RelationalAlone(toks: seq<Tok>, pos: nat, t: Tree, end: nat)
    requires Terminated(toks) && pos < |toks| && Parse(toks, 4, pos) == Parsed(t, end)
    requires Level(toks[end]) != RELATIONAL
    ensures ParseRelational(toks, pos) == Parsed(t, end)
  {
  }

  lemma RelationalTurn(toks: seq<Tok>, pos: nat, p: nat, l: Tree, r: Tree, end: nat)
    requires Terminated(toks) && pos < |toks| && Parse(toks, 4, pos) == Parsed(l, p)
    requires Level(toks[p]) == RELATIONAL && Parse(toks, 4, p + 1) == Parsed(r, end)
    ensures ParseRelational(toks, pos) == Parsed(Binary(toks[p], l, r), end)
  {
  }

  lemma FoldTurn(toks: seq<Tok>, k: nat, p: nat, t: Tree, end: nat)
    requires Terminated(toks) && k <= 5 && p < |toks| - 1 && t.Binary? && toks[p] == t.op && Level(t.op) == k
    requires Parse(toks, k + 1, p + 1) == Parsed(t.right, end)
    ensures Fold(toks, k, t.left, p) == Fold(toks, k, t, end)
  {
  }

  lemma ParseDescends(toks: seq<Tok>, k: nat, pos: nat, t: Tree, p: nat)
    requires Terminated(toks) && k <= 5 && k != RELATIONAL && pos < |toks|
    requires Parse(toks, k + 1, pos) == Parsed(t, p)
    ensures Parse(toks, k, pos) == Fold(toks, k, t, p)
  {
  }

  /** Even when the next token is again an operator of level `k`, parsing at `k` gets to the loop
      with `t` as its left operand. This is what makes the loop left-associative. */
  lemma {:induction false} ReachesFold(toks: seq<Tok>, k: nat, pos: nat, t: Tree)
    requires Terminated(toks) && k <= 5 && k != RELATIONAL
    requires Occurs(toks, pos, t, k) && Stops(toks, pos + |Yield(t)|, k + 1)
    ensures Parse(toks, k, pos) == Fold(toks, k, t, pos + |Yield(t)|)
    decreases t, 7 - k, 0
  {
    if t.Binary? && Level(t.op) == k {
      ReachesFoldBinary(toks, k, pos, t);
    } else {
      OccursTighter(toks, pos, t, k);
      ParseComplete(toks, k + 1, pos, t);
      ParseDescends(toks, k, pos, t, pos + |Yield(t)|);
    }
  }

  lemma {:induction false} ReachesFoldBinary(toks: seq<Tok>, k: nat, pos: nat, t: Tree)
    requires Terminated(toks) && k <= 5 && k != RELATIONAL && t.Binary? && Level(t.op) == k
    requires Occurs(toks, pos, t, k) && Stops(toks, pos + |Yield(t)|, k + 1)
    ensures Parse(toks, k, pos) == Fold(toks, k, t, pos + |Yield(t)|)
    decreases t, 0, 0
  {
    var p := OccursOperands(toks, k, pos, t);
    ReachesFold(toks, k, pos, t.left);
    ParseComplete(toks, k + 1, p + 1, t.right);
    FoldTurn(toks, k, p, t, pos + |Yield(t)|);
  }

  lemma {:induction false} YieldHasNoEof(t: Tree, k: nat)
    requires Derivable(t, k)
    ensures Eof !in Yield(t) && |Yield(t)| > 0
  {
    match t
    case Leaf(_) =>
    case Paren(e) => YieldHasNoEof(e, 0);
    case Unary(_, e) => YieldHasNoEof(e, 6);
    case Binary(op, l, r) => YieldHasNoEof(l, LeftLevel(op)); YieldHasNoEof(r, Level(op) + 1);
  }

  /** The tokens of a derivable tree are accepted, and the tree found is that tree. */
  lemma ParseAllOfYield(t: Tree)
    requires Derivable(t, 0)
    ensures Terminated(Yield(t) + [Eof])
    ensures ParseAll(Yield(t) + [Eof]) == Ok(t)
  {
    YieldHasNoEof(t, 0);
    ParseComplete(Yield(t) + [Eof], 0, 0, t);
  }

  /** Acceptance is derivability: a token list is accepted with tree `t` iff it is `t`'s yield. */
  lemma AcceptedIffYield(toks: seq<Tok>, t: Tree)
    requires Terminated(toks)
    ensures ParseAll(toks) == Ok(t) <==> Derivable(t, 0) && toks == Yield(t) + [Eof]
  {
    if ParseAll(toks) == Ok(t) {
      ParseSound(toks, 0, 0);
      assert toks == toks[0..Parse(toks, 0, 0).next] + [Eof];
    }
    if Derivable(t, 0) && toks == Yield(t) + [Eof] {
      ParseAllOfYield(t);
    }
  }

  lemma Unambiguous(t: Tree, u: Tree)
    requires Derivable(t, 0) && Derivable(u, 0) && Yield(t) == Yield(u)
    ensures t == u
  {
    ParseAllOfYield(t);
    ParseAllOfYield(u);
  }

  /** `a < b < c`: whatever the three operands and the two relational operators, the parser stops
      at the second one and rejects the list. */
  lemma ChainedRelationalRejected(a: Tree, o: Tok, b: Tree, p: Tok, c: Tree)
    requires Derivable(a, 4) && Derivable(b, 4) && Derivable(c, 4)
    requires Level(o) == RELATIONAL && Level(p) == RELATIONAL
    ensures var toks := Yield(Binary(o, a, b)) + ([p] + Yield(c) + [Eof]);
            Terminated(toks) && ParseAll(toks) == Err(Trailing)
  {
    var ab, rest := Binary(o, a, b), [p] + Yield(c) + [Eof];
    var toks := Yield(ab) + rest;
    assert Terminated(toks) by { YieldHasNoEof(ab, 3); YieldHasNoEof(c, 4); }
    assert toks[0..|Yield(ab)|] == Yield(ab) && toks[|Yield(ab)|] == p;
    RelationalThenAnother(toks, ab);
    RelationalStops(toks, ab, 2);
    RelationalStops(toks, ab, 1);
    RelationalStops(toks, ab, 0);
  }

  /** One relational comparison is parsed even when another relational operator follows. */
  lemma RelationalThenAnother(toks: seq<Tok>, t: Tree)
    requires Terminated(toks) && Occurs(toks, 0, t, 3) && t.Binary? && Level(t.op) == RELATIONAL
    requires Level(toks[|Yield(t)|]) == RELATIONAL
    ensures Parse(toks, 3, 0) == Parsed(t, |Yield(t)|)
  {
    OccursBinary(toks, 0, t, 3);
    ParseComplete(toks, 4, 0, t.left);
    ParseComplete(toks, 4, |Yield(t.left)| + 1, t.right);
    RelationalTurn(toks, 0, |Yield(t.left)|, t.left, t.right, |Yield(t)|);
  }

  lemma RelationalStops(toks: seq<Tok>, t: Tree, k: nat)
    requires Terminated(toks) && k < 3 && |Yield(t)| < |toks|
    requires Parse(toks, k + 1, 0) == Parsed(t, |Yield(t)|) && Level(toks[|Yield(t)|]) == RELATIONAL
    ensures Parse(toks, k, 0) == Parsed(t, |Yield(t)|)
  {
  }

  // ---------------------------------------------------------------------------------------------
  // The class: one method per nonterminal, evaluating as it goes

  type Outcome<N> = Result<Value<N>, Error>

  class Parser<N> {
    const toks: seq<Tok>
    const row: Row<N>
    const js: Js<N>
    var pos: nat

    constructor (toks: seq<Tok>, row: Row<N>, js: Js<N>)
      ensures this.toks == toks && this.row == row && this.js == js && pos == 0
    {
      this.toks, this.row, this.js, pos := toks, row, js, 0;
    }

    ghost predicate Valid()
      reads this
    {
      Terminated(toks) && pos < |toks|
    }

    /** The value returned, or the error thrown, is that of the tree parsed at level `k` from `start`. */
    ghost predicate Evaluated(k: nat, start: nat, r: Outcome<N>)
      requires Terminated(toks) && start < |toks| && k <= 7
      reads this
    {
      match Parse(toks, k, start)
      case Failed(e) => r == Err(e)
      case Parsed(t, p) => Derivable(t, k) && r == Ok(Meaning(t, k)) && pos == p
    }

    ghost function Meaning(t: Tree, k: nat): Value<N>
      requires Derivable(t, k)
    {
      DerivableBelow(t, k, 0);
      Denote(t, row, js)
    }

    /** Inside the loop of level `k`, at position `p`: `left` is the value of `t`, and `t` is the
        left operand with which the descent stands at `p`. */
    ghost predicate Folding(k: nat, start: nat, t: Tree, left: Value<N>, p: nat)
      requires Terminated(toks) && start < |toks| && k <= 5
    {
      && p < |toks| && Derivable(t, k) && left == Meaning(t, k)
      && Parse(toks, k, start) == Fold(toks, k, t, p)
    }

    lemma FoldBegins(k: nat, start: nat, r: Outcome<N>) returns (t: Tree)
      requires Terminated(toks) && start < |toks| && k <= 5 && k != RELATIONAL && Evaluated(k + 1, start, r)
      ensures r.Err? ==> Evaluated(k, start, r)
      ensures r.Ok? ==> start < pos && Folding(k, start, t, r.value, pos)
    {
      var q := Parse(toks, k + 1, start);
      if q.Parsed? {
        t := q.tree;
        DerivableBelow(t, k + 1, k);
      } else {
        t := Leaf(Eof);
      }
    }

    /** One turn of the loop: the operator at `p` and the operand after it join the left operand. */
    lemma FoldTurns(k: nat, start: nat, t: Tree, left: Value<N>, p: nat, r: Outcome<N>) returns (u: Tree)
      requires Terminated(toks) && start < |toks| && k <= 5 && k != RELATIONAL
      requires Folding(k, start, t, left, p) && Level(toks[p]) == k && p < |toks| - 1
      requires Evaluated(k + 1, p + 1, r)
      ensures r.Err? ==> Evaluated(k, start, r)
      ensures r.Ok? ==> p < pos && Folding(k, start, u, js.Apply(toks[p], left, r.value), pos)
    {
      var q := Parse(toks, k + 1, p + 1);
      u := if q.Parsed? then Binary(toks[p], t, q.tree) else t;
    }

    lemma FoldEnds(k: nat, start: nat, t: Tree, left: Value<N>)
      requires Terminated(toks) && start < |toks| && k <= 5
      requires Folding(k, start, t, left, pos) && Level(toks[pos]) != k
      ensures Evaluated(k, start, Ok(left))
    {
    }

    function Peek(): Tok
      requires Valid()
      reads this
    {
      toks[pos]
    }

    method Next() returns (t: Tok)
      requires Valid()
      modifies `pos
      ensures t == toks[old(pos)] && pos == old(pos) + 1
    {
      t := toks[pos];
      pos := pos + 1;
    }

    /** `parse()` */
    method Run() returns (r: Outcome<N>)
      requires Valid() && pos == 0
      modifies `pos
      ensures match ParseAll(toks)
              case Err(e) => r == Err(e)
              case Ok(t) => Derivable(t, 0) && r == Ok(Denote(t, row, js))
    {
      r := Or();
      if r.Ok? && Peek() != Eof {
        r := Err(Trailing);
      }
    }

    method Or() returns (r: Outcome<N>)
      requires Valid()
      modifies `pos
      ensures Evaluated(0, old(pos), r)
      decreases |toks| - pos, 7
    {
      r := And();
      ghost var t := FoldBegins(0, old(pos), r);
      if r.Err? { return; }
      while Peek() == OrOr
        invariant r.Ok? && Valid() && old(pos) < pos
        invariant Folding(0, old(pos), t, r.value, pos)
        decreases |toks| - pos
      {
        ghost var p := pos;
        var op := Next();
        var right := And();
        t := FoldTurns(0, old(pos), t, r.value, p, right);
        if right.Err? { return right; }
        r := Ok(Bool(js.Truthy(r.value) || js.Truthy(right.value)));
      }
      FoldEnds(0, old(pos), t, r.value);
    }

    method And() returns (r: Outcome<N>)
      requires Valid()
      modifies `pos
      ensures Evaluated(1, old(pos), r)
      decreases |toks| - pos, 6
    {
      r := Equality();
      ghost var t := FoldBegins(1, old(pos), r);
      if r.Err? { return; }
      while Peek() == AndAnd
        invariant r.Ok? && Valid() && old(pos) < pos
        invariant Folding(1, old(pos), t, r.value, pos)
        decreases |toks| - pos
      {
        ghost var p := pos;
        var op := Next();
        var right := Equality();
        t := FoldTurns(1, old(pos), t, r.value, p, right);
        if right.Err? { return right; }
        r := Ok(Bool(js.Truthy(r.value) && js.Truthy(right.value)));
      }
      FoldEnds(1, old(pos), t, r.value);
    }

    method Equality() returns (r: Outcome<N>)
      requires Valid()
      modifies `pos
      ensures Evaluated(2, old(pos), r)
      decreases |toks| - pos, 5
    {
      r := Comparison();
      ghost var t := FoldBegins(2, old(pos), r);
      if r.Err? { return; }
      while Peek() == EqEq || Peek() == BangEq
        invariant r.Ok? && Valid() && old(pos) < pos
        invariant Folding(2, old(pos), t, r.value, pos)
        decreases |toks| - pos
      {
        ghost var p := pos;
        var op := Next();
        var right := Comparison();
        t := FoldTurns(2, old(pos), t, r.value, p, right);
        if right.Err? { return right; }
        r := Ok(Bool(if op == EqEq then js.LooseEq(r.value, right.value) else !js.LooseEq(r.value, right.value)));
      }
      FoldEnds(2, old(pos), t, r.value);
    }

    /** The relational operators convert both operands to numbers. */
    function Compare(op: Tok, x: Value<N>, y: Value<N>): (v: Value<N>)
      requires op == Lt || op == Le || op == Gt || op == Ge
      ensures v == js.Apply(op, x, y)
    {
      var a, b := js.ToNumber(x), js.ToNumber(y);
      Bool(if op == Lt then js.lt(a, b) else if op == Le then js.le(a, b) else if op == Gt then js.gt(a, b) else js.ge(a, b))
    }

    method Comparison() returns (r: Outcome<N>)
      requires Valid()
      modifies `pos
      ensures Evaluated(3, old(pos), r)
      decreases |toks| - pos, 4
    {
      r := Additive();
      if r.Err? { return; }
      RelationalMeaning(old(pos));
      var op := Peek();
      if op == Lt || op == Le || op == Gt || op == Ge {
        var _ := Next();
        var right := Additive();
        if right.Err? { return right; }
        r := Ok(Compare(op, r.value, right.value));
      }
    }

    lemma RelationalMeaning(start: nat)
      requires Terminated(toks) && start < |toks| && Parse(toks, 4, start).Parsed?
      ensures var l := Parse(toks, 4, start);
        && Derivable(l.tree, 4) && Derivable(l.tree, 3)
        && if Level(toks[l.next]) != RELATIONAL then Parse(toks, 3, start) == l else
           var r := Parse(toks, 4, l.next + 1);
           if r.Failed? then Parse(toks, 3, start) == r else
           var u := Binary(toks[l.next], l.tree, r.tree);
           && Parse(toks, 3, start) == Parsed(u, r.next)
           && Derivable(r.tree, 4) && Derivable(u, 3)
           && Meaning(u, 3) == js.Apply(toks[l.next], Meaning(l.tree, 4), Meaning(r.tree, 4))
    {
      ParseSound(toks, 4, start);
      var l := Parse(toks, 4, start);
      DerivableBelow(l.tree, 4, 3);
      if Level(toks[l.next]) == RELATIONAL {
        ParseSound(toks, 4, l.next + 1);
      }
    }

    method Additive() returns (r: Outcome<N>)
      requires Valid()
      modifies `pos
      ensures Evaluated(4, old(pos), r)
      decreases |toks| - pos, 3
    {
      r := Multiplicative();
      ghost var t := FoldBegins(4, old(pos), r);
      if r.Err? { return; }
      while Peek() == Plus || Peek() == Minus
        invariant r.Ok? && Valid() && old(pos) < pos
        invariant Folding(4, old(pos), t, r.value, pos)
        decreases |toks| - pos
      {
        ghost var p := pos;
        var op := Next();
        var right := Multiplicative();
        t := FoldTurns(4, old(pos), t, r.value, p, right);
        if right.Err? { return right; }
        r := Ok(
          if op == Plus then
            if r.value.Text? || right.value.Text?
            then Text(js.ToText(r.value) + js.ToText(right.value))
            else Number(js.add(js.ToNumber(r.value), js.ToNumber(right.value)))
          else Number(js.sub(js.ToNumber(r.value), js.ToNumber(right.value))));
      }
      FoldEnds(4, old(pos), t, r.value);
    }

    method Multiplicative() returns (r: Outcome<N>)
      requires Valid()
      modifies `pos
      ensures Evaluated(5, old(pos), r)
      decreases |toks| - pos, 2
    {
      r := Prefix();
      ghost var t := FoldBegins(5, old(pos), r);
      if r.Err? { return; }
      while Peek() == Star || Peek() == Slash
        invariant r.Ok? && Valid() && old(pos) < pos
        invariant Folding(5, old(pos), t, r.value, pos)
        decreases |toks| - pos
      {
        ghost var p := pos;
        var op := Next();
        var right := Prefix();
        t := FoldTurns(5, old(pos), t, r.value, p, right);
        if right.Err? { return right; }
        r := Ok(Number(
          if op == Star then js.mul(js.ToNumber(r.value), js.ToNumber(right.value))
          else js.div(js.ToNumber(r.value), js.ToNumber(right.value))));
      }
      FoldEnds(5, old(pos), t, r.value);
    }

    /** `unary()` */
    method Prefix() returns (r: Outcome<N>)
      requires Valid()
      modifies `pos
      ensures Evaluated(6, old(pos), r)
      decreases |toks| - pos, 1
    {
      ParseSound(toks, 6, pos);
      if Peek() == Bang {
        var _ := Next();
        r := Prefix();
        if r.Ok? { r := Ok(Bool(!js.Truthy(r.value))); }
      } else if Peek() == Minus {
        var _ := Next();
        r := Prefix();
        if r.Ok? { r := Ok(Number(js.neg(js.ToNumber(r.value)))); }
      } else {
        r := Primary();
      }
    }

    method Primary() returns (r: Outcome<N>)
      requires Valid()
      modifies `pos
      ensures Evaluated(7, old(pos), r)
      decreases |toks| - pos, 0
    {
      ParseSound(toks, 7, pos);
      var tok := Next();
      match tok {
        case LParen =>
          r := Or();
          if r.Ok? {
            var close := Next();
            if close != RParen { r := Err(Expected(RParen)); }
          }
        case Num(s) => r := Ok(Number(js.parse(s)));
        case Str(s) => r := Ok(Text(s));
        case Ident(s) =>
          if s == "true" { r := Ok(Bool(true)); }
          else if s == "false" { r := Ok(Bool(false)); }
          else if s == "null" { r := Ok(Null); }
          else { r := Ok(Lookup(row, s)); }
        case _ => r := Err(UnexpectedToken(tok));
      }
    }
  }
}
