/** From what a rule author means to text and back: every expression, printed with as few
    parentheses as the grammar allows and any white space, evaluates to its own value
    (packages/rule-engine/src/expression.ts, `evalExpression`). */
module ExprPrint {
  import opened ExprSyntax
  import opened ExprLexer
  import opened ExprParser

  datatype Expr =
    | NumLit(text: string) | StrLit(text: string) | BoolLit(b: bool) | NullLit | Field(name: string)
    | Not(arg: Expr) | Neg(arg: Expr)
    | Op(op: Tok, left: Expr, right: Expr)

  const RESERVED := {"true", "false", "null"}

  /** Can be written down at all: field names are identifiers that are not keywords, a string lacks
      one of the two quotes (the language has no escapes), a number is digits and dots. */
  predicate Writable(e: Expr) {
    match e
    case NumLit(s) => Spellable(Num(s))
    case StrLit(s) => Spellable(Str(s))
    case BoolLit(_) => true
    case NullLit => true
    case Field(n) => Spellable(Ident(n)) && n !in RESERVED
    case Not(a) => Writable(a)
    case Neg(a) => Writable(a)
    case Op(op, l, r) => Level(op) <= 5 && Writable(l) && Writable(r)
  }

  function ValueOf<N>(e: Expr, row: Row<N>, js: Js<N>): Value<N>
    requires Writable(e)
  {
    match e
    case NumLit(s) => Number(js.parse(s))
    case StrLit(s) => Text(s)
    case BoolLit(b) => Bool(b)
    case NullLit => Null
    case Field(n) => Lookup(row, n)
    case Not(a) => js.ApplyUnary(Bang, ValueOf(a, row, js))
    case Neg(a) => js.ApplyUnary(Minus, ValueOf(a, row, js))
    case Op(op, l, r) => js.Apply(op, ValueOf(l, row, js), ValueOf(r, row, js))
  }

  // ---------------------------------------------------------------------------------------------
  // Minimal parentheses

  function OwnLevel(e: Expr): nat {
    match e
    case Op(op, _, _) => Level(op)
    case Not(_) | Neg(_) => 6
    case _ => 7
  }

  /** The tree to print where the grammar asks for level `k`: parenthesised only if it must be. */
  function ToTree(e: Expr, k: nat): Tree
    decreases e, 1
  {
    if OwnLevel(e) < k then Paren(Bare(e)) else Bare(e)
  }

  function Bare(e: Expr): Tree
    decreases e, 0
  {
    match e
    case NumLit(s) => Leaf(Num(s))
    case StrLit(s) => Leaf(Str(s))
    case BoolLit(b) => Leaf(Ident(if b then "true" else "false"))
    case NullLit => Leaf(Ident("null"))
    case Field(n) => Leaf(Ident(n))
    case Not(a) => Unary(Bang, ToTree(a, 6))
    case Neg(a) => Unary(Minus, ToTree(a, 6))
    case Op(op, l, r) => Binary(op, ToTree(l, LeftLevel(op)), ToTree(r, Level(op) + 1))
  }

  lemma {:induction false} ToTreeDerivable(e: Expr, k: nat)
    requires Writable(e) && k <= 7
    ensures Derivable(ToTree(e, k), k)
    decreases e, 1
  {
    BareDerivable(e);
    DerivableBelow(Bare(e), OwnLevel(e), if OwnLevel(e) < k then 0 else k);
  }

  lemma {:induction false} BareDerivable(e: Expr)
    requires Writable(e)
    ensures Derivable(Bare(e), OwnLevel(e))
    decreases e, 0
  {
    if e.Not? || e.Neg? {
      ToTreeDerivable(e.arg, 6);
    } else if e.Op? {
      ToTreeDerivable(e.left, LeftLevel(e.op));
      ToTreeDerivable(e.right, Level(e.op) + 1);
    }
  }

  /** Parenthesising does not change the meaning. */
  lemma {:induction false} ToTreeMeans<N>(e: Expr, k: nat, row: Row<N>, js: Js<N>)
    requires Writable(e) && k <= 7
    ensures Derivable(ToTree(e, k), 0) && Denote(ToTree(e, k), row, js) == ValueOf(e, row, js)
    decreases e, 1
  {
    ToTreeDerivable(e, k);
    DerivableBelow(ToTree(e, k), k, 0);
    BareMeans(e, row, js);
  }

  lemma {:induction false} BareMeans<N>(e: Expr, row: Row<N>, js: Js<N>)
    requires Writable(e)
    ensures Derivable(Bare(e), 0) && Denote(Bare(e), row, js) == ValueOf(e, row, js)
    decreases e, 0
  {
    BareDerivable(e);
    DerivableBelow(Bare(e), OwnLevel(e), 0);
    match e
    case Not(a) => ToTreeMeans(a, 6, row, js);
    case Neg(a) => ToTreeMeans(a, 6, row, js);
    case Op(op, l, r) => ToTreeMeans(l, LeftLevel(op), row, js); ToTreeMeans(r, Level(op) + 1, row, js);
    case _ =>
  }

  /** The expression a concrete tree writes down: parentheses forgotten, keywords recognised. */
  function Strip(t: Tree): Expr
    requires Derivable(t, 0)
  {
    match t
    case Leaf(Num(s)) => NumLit(s)
    case Leaf(Str(s)) => StrLit(s)
    case Leaf(Ident(s)) =>
      if s == "true" then BoolLit(true) else if s == "false" then BoolLit(false)
      else if s == "null" then NullLit else Field(s)
    case Paren(e) => Strip(e)
    case Unary(op, e) => DerivableBelow(e, 6, 0); if op == Bang then Not(Strip(e)) else Neg(Strip(e))
    case Binary(op, l, r) =>
      DerivableBelow(l, LeftLevel(op), 0);
      DerivableBelow(r, Level(op) + 1, 0);
      Op(op, Strip(l), Strip(r))
  }

  /** No way of writing the same expression takes fewer tokens than the printer's. */
  lemma {:induction false} ToTreeMinimal(t: Tree, k: nat)
    requires Derivable(t, k) && Derivable(t, 0) && k <= 7
    ensures |Yield(ToTree(Strip(t), k))| <= |Yield(t)|
  {
    match t
    case Leaf(_) =>
    case Paren(e) =>
      ToTreeMinimal(e, 0);
    case Unary(op, e) =>
      DerivableBelow(e, 6, 0);
      ToTreeMinimal(e, 6);
    case Binary(op, l, r) =>
      DerivableBelow(l, LeftLevel(op), 0);
      DerivableBelow(r, Level(op) + 1, 0);
      ToTreeMinimal(l, LeftLevel(op));
      ToTreeMinimal(r, Level(op) + 1);
  }

  // ---------------------------------------------------------------------------------------------
  // Printing a tree without any white space is safe: no two neighbouring tokens run together

  /** A phrase ends in an operand and begins like one, so only separable tokens ever meet. */
  predicate StartsPhrase(t: Tok) { t.Num? || t.Str? || t.Ident? || t == LParen || t == Bang || t == Minus }
  predicate EndsPhrase(t: Tok) { t.Num? || t.Str? || t.Ident? || t == RParen }

  predicate Phrase(y: seq<Tok>) {
    |y| > 0 && StartsPhrase(y[0]) && EndsPhrase(y[|y| - 1]) && AllMayTouch(y) && forall t | t in y :: Spellable(t)
  }

  predicate TreeSpellable(t: Tree) {
    match t
    case Leaf(tok) => Spellable(tok)
    case Paren(e) => TreeSpellable(e)
    case Unary(_, e) => TreeSpellable(e)
    case Binary(_, l, r) => TreeSpellable(l) && TreeSpellable(r)
  }

  lemma {:induction false} YieldIsPhrase(t: Tree, k: nat)
    requires Derivable(t, k) && TreeSpellable(t)
    ensures Phrase(Yield(t))
  {
    match t
    case Leaf(_) =>
    case Paren(e) => YieldIsPhrase(e, 0); Bracketed(Yield(e));
    case Unary(op, e) => YieldIsPhrase(e, 6); Joined([op], Yield(e));
    case Binary(op, l, r) =>
      YieldIsPhrase(l, LeftLevel(op));
      YieldIsPhrase(r, Level(op) + 1);
      Infixed(Yield(l), op, Yield(r));
  }

  lemma Bracketed(y: seq<Tok>)
    requires Phrase(y)
    ensures Phrase([LParen] + y + [RParen])
  {
    Joined([LParen], y);
    Joined([LParen] + y, [RParen]);
  }

  lemma Infixed(y: seq<Tok>, op: Tok, z: seq<Tok>)
    requires Phrase(y) && Phrase(z) && Level(op) <= 5
    ensures Phrase(y + [op] + z)
  {
    Joined(y, [op]);
    Joined(y + [op], z);
  }

  lemma Joined(a: seq<Tok>, b: seq<Tok>)
    requires a != [] && b != [] && AllMayTouch(a) && AllMayTouch(b) && MayTouch(a[|a| - 1], b[0])
    ensures AllMayTouch(a + b) && (a + b)[0] == a[0] && (a + b)[|a + b| - 1] == b[|b| - 1]
  {
    var y := a + b;
    forall i | 0 <= i < |y| - 1 ensures MayTouch(y[i], y[i + 1]) {
      if i < |a| - 1 {
        assert MayTouch(a[i], a[i + 1]);
      } else if i > |a| - 1 {
        assert MayTouch(b[i - |a|], b[i - |a| + 1]);
      }
    }
  }

  lemma {:induction false} ToTreeSpellable(e: Expr, k: nat)
    requires Writable(e)
    ensures TreeSpellable(ToTree(e, k)) && TreeSpellable(Bare(e))
    decreases e
  {
    match e
    case BoolLit(b) => assert Spellable(Ident("true")) && Spellable(Ident("false"));
    case NullLit => assert Spellable(Ident("null"));
    case Not(a) => ToTreeSpellable(a, 6);
    case Neg(a) => ToTreeSpellable(a, 6);
    case Op(op, l, r) => ToTreeSpellable(l, LeftLevel(op)); ToTreeSpellable(r, Level(op) + 1);
    case _ =>
  }

  // ---------------------------------------------------------------------------------------------
  // evalExpression

  function Eval<N>(text: string, row: Row<N>, js: Js<N>): Outcome<N> {
    match Lex(text)
    case Err(e) => Err(e)
    case Ok(toks) =>
      LexTerminated(text);
      match ParseAll(toks)
      case Err(e) => Err(e)
      case Ok(t) => AcceptedIffYield(toks, t); Ok(Denote(t, row, js))
  }

  method EvalExpression<N>(text: string, row: Row<N>, js: Js<N>) returns (r: Outcome<N>)
    ensures r == Eval(text, row, js)
  {
    var toks := Tokenize(text);
    if toks.Err? { return Err(toks.error); }
    LexTerminated(text);
    var parser := new Parser(toks.value, row, js);
    r := parser.Run();
  }

  /** The tokens the printer writes for `e`. */
  function Print(e: Expr): seq<Tok> {
    Yield(ToTree(e, 0))
  }

  lemma PrintIsPhrase(e: Expr)
    requires Writable(e)
    ensures Phrase(Print(e))
  {
    ToTreeDerivable(e, 0);
    ToTreeSpellable(e, 0);
    YieldIsPhrase(ToTree(e, 0), 0);
  }

  /** Print then evaluate: whatever the white space, the text evaluates to the expression's value. */
  lemma PrintThenEvaluate<N>(e: Expr, gaps: seq<string>, row: Row<N>, js: Js<N>)
    requires Writable(e) && |gaps| == |Print(e)| + 1 && forall g | g in gaps :: Blank(g)
    ensures forall t | t in Print(e) :: Spellable(t)
    ensures Eval(Render(Print(e), gaps), row, js) == Ok(ValueOf(e, row, js))
  {
    PrintIsPhrase(e);
    LexRender(Print(e), gaps);
    ToTreeMeans(e, 0, row, js);
    ParseAllOfYield(ToTree(e, 0));
  }

  /** Evaluation by meaning: the text's value is `v` exactly when the text lexes to the tokens of
      some tree with that meaning. Anything else is an error. */
  lemma EvalIffTree<N(!new)>(text: string, row: Row<N>, js: Js<N>, v: Value<N>)
    ensures Eval(text, row, js) == Ok(v) <==> exists t :: Reads(text, t) && Denote(t, row, js) == v
  {
    if Eval(text, row, js) == Ok(v) {
      var t := TreeRead(text, row, js);
      assert Reads(text, t) && Denote(t, row, js) == v;
    }
    if t :| Reads(text, t) && Denote(t, row, js) == v {
      ParseAllOfYield(t);
    }
  }

  predicate Reads(text: string, t: Tree) {
    Derivable(t, 0) && Lex(text) == Ok(Yield(t) + [Eof])
  }

  lemma TreeRead<N>(text: string, row: Row<N>, js: Js<N>) returns (t: Tree)
    requires Eval(text, row, js).Ok?
    ensures Reads(text, t) && Eval(text, row, js) == Ok(Denote(t, row, js))
  {
    var toks := Lex(text).value;
    LexTerminated(text);
    t := ParseAll(toks).value;
    AcceptedIffYield(toks, t);
  }
}
