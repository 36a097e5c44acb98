/** What a rule author may rely on: which characters make up a token, how operators group, and what they mean on mixed
    values (packages/rule-engine/src/expression.ts:12-62 and 88-194). */
module ExprLaws {
  import opened ExprSyntax
  import opened ExprLexer
  import opened ExprParser
  import opened ExprPrint

  const DIGITS := "0123456789"
  const CAPITALS := "ABCDEFGHIJKLMNOPQRSTUVWXYZ"
  const SMALL := "abcdefghijklmnopqrstuvwxyz"

  /** The character classes, spelled out. */
  lemma CharacterClasses(c: char)
    ensures IsSpace(c) <==> c in " \t\n"
    ensures IsQuote(c) <==> c in "\"'"
    ensures IsNumberChar(c) <==> c in DIGITS + "."
    ensures IsWordStart(c) <==> c in CAPITALS + SMALL + "_"
    ensures IsWordChar(c) <==> c in CAPITALS + SMALL + "_" + DIGITS
  {
    Digits(c);
    Capitals(c);
    Smalls(c);
  }

  lemma Digits(c: char)
    ensures '0' <= c <= '9' <==> c in DIGITS
  {
    if '0' <= c <= '9' {
      var i := c as int - '0' as int;
      assert DIGITS[i] == c;
    }
  }

  lemma Capitals(c: char)
    ensures 'A' <= c <= 'Z' <==> c in CAPITALS
  {
    if 'A' <= c <= 'Z' {
      var i := c as int - 'A' as int;
      assert CAPITALS[i] == c;
    }
  }

  lemma Smalls(c: char)
    ensures 'a' <= c <= 'z' <==> c in SMALL
  {
    if 'a' <= c <= 'z' {
      var i := c as int - 'a' as int;
      assert SMALL[i] == c;
    }
  }

  lemma OpenString(q: char, text: string)
    requires IsQuote(q) && q !in text
    ensures First([q] + text) == Lexeme(Str(text), |text| + 2)
  {
    var s := [q] + text;
    assert s[1..] == text;
    SpanUnique(s[1..], d => d != q, |text|);
    assert s[1..1 + |text|] == text;
  }

  lemma ClosedString(q: char, text: string)
    requires IsQuote(q) && q !in text
    ensures First([q] + text + [q]) == Lexeme(Str(text), |text| + 2)
  {
    var s := [q] + text + [q];
    assert s[1..] == text + [q];
    SpanUnique(s[1..], d => d != q, |text|);
    assert s[1..1 + |text|] == text;
  }

  /** A string that is never closed is accepted just like the closed one. */
  lemma ClosingQuoteIsOptional(q: char, text: string)
    requires IsQuote(q) && q !in text
    ensures Lex([q] + text) == Ok([Str(text), Eof])
    ensures Lex([q] + text + [q]) == Ok([Str(text), Eof])
  {
    OpenString(q, text);
    ClosedString(q, text);
    WholeText([q] + text, Str(text), |text| + 2);
    WholeText([q] + text + [q], Str(text), |text| + 2);
  }

  lemma WholeText(s: string, t: Tok, n: nat)
    requires s != "" && First(s) == Lexeme(t, n) && n >= |s|
    ensures Lex(s) == Ok([t, Eof])
  {
    assert Drop(s, n) == "" && [t] + [Eof] == [t, Eof];
  }

  // ---------------------------------------------------------------------------------------------
  // Grouping

  /** Tightest first: `* /`, then `+ -`, the relational ones, `== !=`, `&&`, `||`. */
  lemma Precedence()
    ensures Level(OrOr) < Level(AndAnd) < Level(EqEq) == Level(BangEq) < Level(Lt) == Level(Le) == Level(Gt) == Level(Ge)
    ensures Level(Ge) < Level(Plus) == Level(Minus) < Level(Star) == Level(Slash)
  {
  }

  /** `a o b p c` for operands that are primaries: the tighter operator first, and from the left among equals. */
  lemma Grouping(a: Tree, o: Tok, b: Tree, p: Tok, c: Tree)
    requires Derivable(a, 7) && Derivable(b, 7) && Derivable(c, 7) && Level(o) <= 5 && Level(p) <= 5
    requires !(Level(o) == RELATIONAL && Level(p) == RELATIONAL)
    ensures var toks := Yield(a) + [o] + Yield(b) + [p] + Yield(c) + [Eof];
      && Terminated(toks)
      && ParseAll(toks) == Ok(if Level(o) < Level(p) then Binary(o, a, Binary(p, b, c)) else Binary(p, Binary(o, a, b), c))
  {
    var t := if Level(o) < Level(p) then Binary(o, a, Binary(p, b, c)) else Binary(p, Binary(o, a, b), c);
    OperandOf(a, LeftLevel(o));
    OperandOf(a, LeftLevel(p));
    OperandOf(b, Level(o) + 1);
    OperandOf(b, LeftLevel(p));
    OperandOf(c, Level(p) + 1);
    assert Derivable(t, 0);
    if Level(o) < Level(p) {
      assert Yield(t) == Yield(a) + [o] + (Yield(b) + [p] + Yield(c));
      assert Yield(a) + [o] + (Yield(b) + [p] + Yield(c)) == Yield(a) + [o] + Yield(b) + [p] + Yield(c);
    } else {
      assert Yield(t) == Yield(a) + [o] + Yield(b) + [p] + Yield(c);
    }
    ParseAllOfYield(t);
  }

  /** A prefix operator takes the primary after it, and no more. */
  lemma PrefixGroups(u: Tok, a: Tree, o: Tok, b: Tree)
    requires (u == Bang || u == Minus) && Derivable(a, 7) && Derivable(b, 7) && Level(o) <= 5
    ensures var toks := [u] + Yield(a) + [o] + Yield(b) + [Eof];
      Terminated(toks) && ParseAll(toks) == Ok(Binary(o, Unary(u, a), b))
  {
    OperandOf(a, 6);
    OperandOf(b, Level(o) + 1);
    var t := Binary(o, Unary(u, a), b);
    assert Yield(t.left) == [u] + Yield(a) && Yield(t) == Yield(t.left) + [o] + Yield(b);
    assert Derivable(t, 0);
    ParseAllOfYield(t);
  }

  lemma OperandOf(t: Tree, k: nat)
    requires Derivable(t, 7) && k <= 7
    ensures Derivable(t, k)
  {
    DerivableBelow(t, 7, k);
  }

  // ---------------------------------------------------------------------------------------------
  // Mixed values

  /** `==` is numeric as soon as one operand is a number; otherwise it compares texts, so that null equals 'null' and
      true equals 'true', but null and a missing field differ. `!=` is its negation. */
  lemma EqualityLaws<N>(js: Js<N>, a: Value<N>, b: Value<N>)
    ensures a.Number? || b.Number? ==> js.Apply(EqEq, a, b) == Bool(js.eq(js.ToNumber(a), js.ToNumber(b)))
    ensures !a.Number? && !b.Number? ==> js.Apply(EqEq, a, b) == Bool(js.ToText(a) == js.ToText(b))
    ensures js.Apply(EqEq, Null, Text("null")) == Bool(true) && js.Apply(EqEq, Bool(true), Text("true")) == Bool(true)
    ensures js.Apply(EqEq, Undefined, Null) == Bool(false)
    ensures js.Apply(BangEq, a, b) == Bool(js.Apply(EqEq, a, b) == Bool(false))
  {
    assert "undefined"[0] != "null"[0];
  }

  /** Without numbers `==` is an equivalence. */
  lemma EqualityIsEquivalence<N>(js: Js<N>, a: Value<N>, b: Value<N>, c: Value<N>)
    requires !a.Number? && !b.Number? && !c.Number?
    ensures js.Apply(EqEq, a, a) == Bool(true) && js.Apply(EqEq, a, b) == js.Apply(EqEq, b, a)
    ensures js.Apply(EqEq, a, b) == Bool(true) && js.Apply(EqEq, b, c) == Bool(true) ==> js.Apply(EqEq, a, c) == Bool(true)
  {
  }

  /** `+` concatenates as soon as one operand is a text and adds otherwise. */
  lemma PlusLaws<N>(js: Js<N>, a: Value<N>, b: Value<N>)
    ensures a.Text? ==> js.Apply(Plus, a, b) == Text(a.s + js.ToText(b))
    ensures b.Text? ==> js.Apply(Plus, a, b) == Text(js.ToText(a) + b.s)
    ensures !a.Text? && !b.Text? ==> js.Apply(Plus, a, b) == Number(js.add(js.ToNumber(a), js.ToNumber(b)))
  {
  }

  /** The other operators of arithmetic and the relational ones take both operands as numbers. */
  lemma NumericLaws<N>(js: Js<N>, a: Value<N>, b: Value<N>)
    ensures var x, y := js.ToNumber(a), js.ToNumber(b);
      && js.Apply(Minus, a, b) == Number(js.sub(x, y)) && js.Apply(Star, a, b) == Number(js.mul(x, y))
      && js.Apply(Slash, a, b) == Number(js.div(x, y)) && js.ApplyUnary(Minus, a) == Number(js.neg(x))
      && js.Apply(Lt, a, b) == Bool(js.lt(x, y)) && js.Apply(Ge, a, b) == Bool(js.ge(x, y))
      && js.Apply(Gt, a, b) == Bool(js.gt(x, y)) && js.Apply(Le, a, b) == Bool(js.le(x, y))
  {
  }

  /** `&&`, `||` and `!` give truth values, never an operand; a missing field, null, false and the empty text are false,
      every other text and every object is true. */
  lemma TruthLaws<N>(js: Js<N>, a: Value<N>, b: Value<N>)
    ensures js.Apply(AndAnd, a, b) == Bool(js.Truthy(a) && js.Truthy(b)) && js.Apply(OrOr, a, b) == Bool(js.Truthy(a) || js.Truthy(b))
    ensures js.ApplyUnary(Bang, a) == Bool(!js.Truthy(a))
    ensures js.ApplyUnary(Bang, js.ApplyUnary(Bang, js.Apply(AndAnd, a, b))) == js.Apply(AndAnd, a, b)
    ensures js.ApplyUnary(Bang, js.Apply(AndAnd, a, b)) == js.Apply(OrOr, js.ApplyUnary(Bang, a), js.ApplyUnary(Bang, b))
    ensures !js.Truthy(Undefined) && !js.Truthy(Null) && !js.Truthy(Bool(false)) && !js.Truthy(Text(""))
    ensures (a.Text? && a.s != "") || a.Object? || a == Bool(true) ==> js.Truthy(a)
  {
  }

  // ---------------------------------------------------------------------------------------------
  // Errors and fields

  /** No token begins with such a character: the lexer names it. */
  lemma BadCharacter(c: char, rest: string)
    requires c !in CAPITALS + SMALL + "_" + DIGITS + "." + " \t\n" + "\"'" + "()+-*/<>!"
    requires rest == "" || PairOp(c, rest[0]) == Eof
    ensures Lex([c] + rest) == Err(UnexpectedChar(c))
  {
    CharacterClasses(c);
    var s := [c] + rest;
    assert s[0] == c && (rest != "" ==> s[1] == rest[0]);
    Singles(c);
    assert First(s) == Bad;
  }

  lemma Singles(c: char)
    requires c !in "()+-*/<>!"
    ensures SingleOp(c) == Eof
  {
    var ops := "()+-*/<>!";
    assert ops[0] == '(' && ops[1] == ')' && ops[2] == '+' && ops[3] == '-' && ops[4] == '*';
    assert ops[5] == '/' && ops[6] == '<' && ops[7] == '>' && ops[8] == '!';
  }

  /** What fails in the primary a text begins with fails the whole. */
  lemma {:induction false} FailsThroughout(toks: seq<Tok>, k: nat, e: Error)
    requires Terminated(toks) && toks[0] != Bang && toks[0] != Minus && ParsePrimary(toks, 0) == Failed(e) && k <= 7
    ensures Parse(toks, k, 0) == Failed(e)
    decreases 7 - k
  {
    if k < 7 { FailsThroughout(toks, k + 1, e); }
  }

  /** No text is no expression, and neither is one that begins with a token that begins none. */
  lemma NoExpression(t: Tok, rest: seq<Tok>)
    requires !(t.Num? || t.Str? || t.Ident? || t == LParen || t == Bang || t == Minus) && Terminated([t] + rest)
    ensures ParseAll([t] + rest) == Err(UnexpectedToken(t))
  {
    FailsThroughout([t] + rest, 0, UnexpectedToken(t));
  }

  /** A parenthesis that is not closed. */
  lemma MissingParenthesis(t: Tree)
    requires Derivable(t, 0)
    ensures var toks := [LParen] + Yield(t) + [Eof];
      Terminated(toks) && ParseAll(toks) == Err(Expected(RParen))
  {
    var toks := [LParen] + Yield(t) + [Eof];
    YieldHasNoEof(t, 0);
    assert toks[1..1 + |Yield(t)|] == Yield(t) && toks[1 + |Yield(t)|] == Eof;
    ParseComplete(toks, 0, 1, t);
    FailsThroughout(toks, 0, Expected(RParen));
  }

  /** After a whole expression only the end may come. */
  lemma NothingMayFollow(t: Tree, u: Tok, rest: seq<Tok>)
    requires Derivable(t, 0) && Level(u) > 5 && u != Eof && Terminated(Yield(t) + [u] + rest)
    ensures ParseAll(Yield(t) + [u] + rest) == Err(Trailing)
  {
    var toks := Yield(t) + [u] + rest;
    assert toks[0..|Yield(t)|] == Yield(t) && toks[|Yield(t)|] == u;
    assert rest != [];
    ParseComplete(toks, 0, 0, t);
  }

  /** The name of a field evaluates to the field's value, and to undefined if the row has none. */
  lemma FieldText<N>(name: string, row: Row<N>, js: Js<N>)
    requires Spellable(Ident(name)) && name !in RESERVED
    ensures Eval(name, row, js) == Ok(if name in row then row[name] else Undefined)
  {
    var e := Field(name);
    assert Writable(e) && Bare(e) == Leaf(Ident(name)) && ToTree(e, 0) == Bare(e);
    assert Print(e) == [Ident(name)];
    PrintThenEvaluate(e, ["", ""], row, js);
    assert [Ident(name)][1..] == [] && ["", ""][1..] == [""];
    assert Render([Ident(name)], ["", ""]) == name;
  }
}
