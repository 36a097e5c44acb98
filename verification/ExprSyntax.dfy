/** Tokens, JavaScript values, the grammar of the rule expression language and its meaning
    (packages/rule-engine/src/expression.ts).

    Two trees are kept apart. `Tree` is the concrete syntax: parentheses are nodes and keywords are
    still identifiers, so its yield is the exact token list. `Expr` is what a rule author means. */
module ExprSyntax {

  datatype Result<+T, +E> = Ok(value: T) | Err(error: E)

  // ---------------------------------------------------------------------------------------------
  // Tokens

  datatype Tok =
    | OrOr | AndAnd | EqEq | BangEq | Lt | Le | Gt | Ge | Plus | Minus | Star | Slash
    | Bang | LParen | RParen
    | Str(text: string) | Num(text: string) | Ident(text: string)
    | Eof

  /** The `throw new Error(..)` sites of the lexer and the parser. */
  datatype Error =
    | UnexpectedChar(c: char)
    | Expected(tok: Tok)
    | Trailing
    | UnexpectedToken(tok: Tok)

  // ---------------------------------------------------------------------------------------------
  // Values. JavaScript numbers stay abstract: `N` is any type, `Js` any choice of the operations on it.

  datatype Value<N> = Undefined | Null | Bool(b: bool) | Number(n: N) | Text(s: string) | Object(ref: nat)

  type Row<N> = map<string, Value<N>>

  datatype Js<!N> = Js(
    nan: N, zero: N, one: N,
    parse: string -> N, show: N -> string, isTruthy: N -> bool,
    objectNumber: nat -> N, objectText: nat -> string,
    neg: N -> N, add: (N, N) -> N, sub: (N, N) -> N, mul: (N, N) -> N, div: (N, N) -> N,
    eq: (N, N) -> bool, lt: (N, N) -> bool, le: (N, N) -> bool, gt: (N, N) -> bool, ge: (N, N) -> bool)
  {
    /** `Number(v)` */
    function ToNumber(v: Value<N>): N {
      match v
      case Undefined => nan
      case Null => zero
      case Bool(b) => if b then one else zero
      case Number(n) => n
      case Text(s) => parse(s)
      case Object(r) => objectNumber(r)
    }

    /** `String(v)` */
    function ToText(v: Value<N>): string {
      match v
      case Undefined => "undefined"
      case Null => "null"
      case Bool(b) => if b then "true" else "false"
      case Number(n) => show(n)
      case Text(s) => s
      case Object(r) => objectText(r)
    }

    /** `!!v` */
    predicate Truthy(v: Value<N>) {
      match v
      case Undefined => false
      case Null => false
      case Bool(b) => b
      case Number(n) => isTruthy(n)
      case Text(s) => s != ""
      case Object(_) => true
    }

    predicate LooseEq(a: Value<N>, b: Value<N>) {
      if a.Number? || b.Number? then eq(ToNumber(a), ToNumber(b)) else ToText(a) == ToText(b)
    }

    function Apply(op: Tok, a: Value<N>, b: Value<N>): Value<N>
      requires Level(op) <= 5
    {
      match op
      case OrOr => Bool(Truthy(a) || Truthy(b))
      case AndAnd => Bool(Truthy(a) && Truthy(b))
      case EqEq => Bool(LooseEq(a, b))
      case BangEq => Bool(!LooseEq(a, b))
      case Lt => Bool(lt(ToNumber(a), ToNumber(b)))
      case Le => Bool(le(ToNumber(a), ToNumber(b)))
      case Gt => Bool(gt(ToNumber(a), ToNumber(b)))
      case Ge => Bool(ge(ToNumber(a), ToNumber(b)))
      case Plus =>
        if a.Text? || b.Text? then Text(ToText(a) + ToText(b)) else Number(add(ToNumber(a), ToNumber(b)))
      case Minus => Number(sub(ToNumber(a), ToNumber(b)))
      case Star => Number(mul(ToNumber(a), ToNumber(b)))
      case Slash => Number(div(ToNumber(a), ToNumber(b)))
    }

    function ApplyUnary(op: Tok, a: Value<N>): Value<N>
      requires op == Bang || op == Minus
    {
      if op == Bang then Bool(!Truthy(a)) else Number(neg(ToNumber(a)))
    }
  }

  // ---------------------------------------------------------------------------------------------
  // Grammar: precedence levels 0 (`||`) to 5 (`* /`), 6 for prefix operators, 7 for primaries.

  function Level(t: Tok): nat {
    match t
    case OrOr => 0
    case AndAnd => 1
    case EqEq | BangEq => 2
    case Lt | Le | Gt | Ge => 3
    case Plus | Minus => 4
    case Star | Slash => 5
    case _ => 8
  }

  const RELATIONAL := 3

  datatype Tree = Leaf(tok: Tok) | Paren(inner: Tree) | Unary(op: Tok, arg: Tree) | Binary(op: Tok, left: Tree, right: Tree)

  /** `t` is derivable from the nonterminal of level `k`. Every binary level is left-associative
      except the relational one, whose left operand may not itself be relational. */
  predicate Derivable(t: Tree, k: nat) {
    match t
    case Leaf(tok) => tok.Num? || tok.Str? || tok.Ident?
    case Paren(e) => Derivable(e, 0)
    case Unary(op, e) => (op == Bang || op == Minus) && k <= 6 && Derivable(e, 6)
    case Binary(op, l, r) =>
      && k <= Level(op) <= 5
      && Derivable(l, LeftLevel(op))
      && Derivable(r, Level(op) + 1)
  }

  function LeftLevel(op: Tok): nat {
    if Level(op) == RELATIONAL then 4 else Level(op)
  }

  function Yield(t: Tree): seq<Tok> {
    match t
    case Leaf(tok) => [tok]
    case Paren(e) => [LParen] + Yield(e) + [RParen]
    case Unary(op, e) => [op] + Yield(e)
    case Binary(op, l, r) => Yield(l) + [op] + Yield(r)
  }

  function Denote<N>(t: Tree, row: Row<N>, js: Js<N>): Value<N>
    requires Derivable(t, 0)
  {
    match t
    case Leaf(tok) => LeafValue(tok, row, js)
    case Paren(e) => Denote(e, row, js)
    case Unary(op, e) => DerivableBelow(e, 6, 0); js.ApplyUnary(op, Denote(e, row, js))
    case Binary(op, l, r) =>
      DerivableBelow(l, LeftLevel(op), 0);
      DerivableBelow(r, Level(op) + 1, 0);
      js.Apply(op, Denote(l, row, js), Denote(r, row, js))
  }

  function LeafValue<N>(tok: Tok, row: Row<N>, js: Js<N>): Value<N>
    requires tok.Num? || tok.Str? || tok.Ident?
  {
    match tok
    case Num(s) => Number(js.parse(s))
    case Str(s) => Text(s)
    case Ident(s) =>
      if s == "true" then Bool(true)
      else if s == "false" then Bool(false)
      else if s == "null" then Null
      else Lookup(row, s)
  }

  function Lookup<N>(row: Row<N>, field: string): Value<N> {
    if field in row then row[field] else Undefined
  }

  lemma DerivableBelow(t: Tree, k: nat, j: nat)
    requires Derivable(t, k) && j <= k
    ensures Derivable(t, j)
  {
  }
}
