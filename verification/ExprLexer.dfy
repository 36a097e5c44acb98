/** The hand-written lexer of packages/rule-engine/src/expression.ts. */
module ExprLexer {
  import opened ExprSyntax

  predicate IsSpace(c: char) { c == ' ' || c == '\t' || c == '\n' }
  predicate IsQuote(c: char) { c == '"' || c == '\'' }
  predicate IsNumberChar(c: char) { '0' <= c <= '9' || c == '.' }
  predicate IsWordStart(c: char) { 'A' <= c <= 'Z' || 'a' <= c <= 'z' || c == '_' }
  predicate IsWordChar(c: char) { IsWordStart(c) || '0' <= c <= '9' }

  /** The two-character operators, tried before the one-character ones. */
  function PairOp(a: char, b: char): Tok {
    if a == '=' && b == '=' then EqEq
    else if a == '!' && b == '=' then BangEq
    else if a == '<' && b == '=' then Le
    else if a == '>' && b == '=' then Ge
    else if a == '&' && b == '&' then AndAnd
    else if a == '|' && b == '|' then OrOr
    else Eof
  }

  function SingleOp(c: char): Tok {
    match c
    case '(' => LParen
    case ')' => RParen
    case '+' => Plus
    case '-' => Minus
    case '*' => Star
    case '/' => Slash
    case '<' => Lt
    case '>' => Gt
    case '!' => Bang
    case _ => Eof
  }

  /** Length of the longest prefix of `s` whose characters all satisfy `p`. */
  function Span(s: string, p: char -> bool): (n: nat)
    ensures n <= |s| && (n < |s| ==> !p(s[n]))
    ensures forall i | 0 <= i < n :: p(s[i])
  {
    if s == "" || !p(s[0]) then 0 else 1 + Span(s[1..], p)
  }

  lemma {:induction false} SpanUnique(s: string, p: char -> bool, n: nat)
    requires n <= |s| && (n < |s| ==> !p(s[n])) && forall i | 0 <= i < n :: p(s[i])
    ensures Span(s, p) == n
  {
    if n > 0 { SpanUnique(s[1..], p, n - 1); }
  }

  /** One lexeme at the front of `s`, and how many characters it takes; a quote that is never
      closed takes one character more than there are. */
  datatype Lexeme = Lexeme(tok: Tok, length: nat) | Space | Bad

  function First(s: string): (l: Lexeme)
    requires s != ""
    ensures l.Lexeme? ==> 0 < l.length <= |s| + 1 && l.tok != Eof
  {
    var c := s[0];
    if IsSpace(c) then Space
    else if |s| > 1 && PairOp(c, s[1]) != Eof then Lexeme(PairOp(c, s[1]), 2)
    else if SingleOp(c) != Eof then Lexeme(SingleOp(c), 1)
    else if IsQuote(c) then
      var n := Span(s[1..], d => d != c);
      Lexeme(Str(s[1..1 + n]), n + 2)
    else if IsNumberChar(c) then
      var n := Span(s, IsNumberChar);
      assert n > 0;
      Lexeme(Num(s[..n]), n)
    else if IsWordStart(c) then
      var n := Span(s, IsWordChar);
      assert n > 0;
      Lexeme(Ident(s[..n]), n)
    else Bad
  }

  function Drop(s: string, n: nat): string {
    if n <= |s| then s[n..] else ""
  }

  function Lex(s: string): Result<seq<Tok>, Error>
    decreases |s|
  {
    if s == "" then Ok([Eof]) else
    match First(s)
    case Space => Lex(s[1..])
    case Bad => Err(UnexpectedChar(s[0]))
    case Lexeme(t, n) => Prepend([t], Lex(Drop(s, n)))
  }

  function Prepend(toks: seq<Tok>, r: Result<seq<Tok>, Error>): Result<seq<Tok>, Error> {
    match r
    case Err(e) => Err(e)
    case Ok(rest) => Ok(toks + rest)
  }

  // ---------------------------------------------------------------------------------------------
  // The index loop

  /** The scan loops `while (j < src.length && p(src[j])) j++`. */
  method Scan(src: string, i: nat, p: char -> bool) returns (j: nat)
    requires i <= |src|
    ensures i <= j <= |src| && j - i == Span(src[i..], p)
  {
    j := i;
    while j < |src| && p(src[j])
      invariant i <= j <= |src| && forall k | i <= k < j :: p(src[k])
    {
      j := j + 1;
    }
    SpanUnique(src[i..], p, j - i);
  }

  /** The body of the loop for a character that is not white space. */
  method LexemeAt(src: string, i: nat) returns (l: Lexeme)
    requires i < |src| && !IsSpace(src[i])
    ensures l == First(src[i..])
  {
    var c := src[i];
    assert src[i..][1..] == src[i + 1..];
    if i + 1 < |src| && PairOp(c, src[i + 1]) != Eof {
      l := Lexeme(PairOp(c, src[i + 1]), 2);
    } else if SingleOp(c) != Eof {
      l := Lexeme(SingleOp(c), 1);
    } else if c == '"' || c == '\'' {
      var j := Scan(src, i + 1, d => d != c);
      assert src[i..][1..j - i] == src[i + 1..j];
      l := Lexeme(Str(src[i + 1..j]), j + 1 - i);
    } else if IsNumberChar(c) {
      var j := Scan(src, i, IsNumberChar);
      assert src[i..][..j - i] == src[i..j];
      l := Lexeme(Num(src[i..j]), j - i);
    } else if IsWordStart(c) {
      var j := Scan(src, i, IsWordChar);
      assert src[i..][..j - i] == src[i..j];
      l := Lexeme(Ident(src[i..j]), j - i);
    } else {
      l := Bad;
    }
  }

  method Tokenize(src: string) returns (r: Result<seq<Tok>, Error>)
    ensures r == Lex(src)
  {
    var toks: seq<Tok> := [];
    var i := 0;
    assert Drop(src, 0) == src;
    PrependNothing(Lex(src));
    while i < |src|
      invariant 0 <= i <= |src| + 1
      invariant Lex(src) == Prepend(toks, Lex(Drop(src, i)))
    {
      if src[i] == ' ' || src[i] == '\t' || src[i] == '\n' {
        assert src[i..][1..] == Drop(src, i + 1);
        i := i + 1;
        continue;
      }
      LexStep(src, i, toks);
      var l := LexemeAt(src, i);
      if l.Bad? {
        return Err(UnexpectedChar(src[i]));
      }
      toks := toks + [l.tok];
      i := i + l.length;
    }
    r := Ok(toks + [Eof]);
  }

  lemma PrependNothing(r: Result<seq<Tok>, Error>)
    ensures Prepend([], r) == r
  {
    if r.Ok? { assert [] + r.value == r.value; }
  }

  lemma LexStep(src: string, i: nat, toks: seq<Tok>)
    requires i < |src| && Lex(src) == Prepend(toks, Lex(Drop(src, i))) && !First(src[i..]).Space?
    ensures var l := First(src[i..]);
            if l.Bad? then Lex(src) == Err(UnexpectedChar(src[i]))
            else Lex(src) == Prepend(toks + [l.tok], Lex(Drop(src, i + l.length)))
  {
    var l := First(src[i..]);
    if l.Lexeme? {
      var tail := Lex(Drop(src, i + l.length));
      assert Drop(src[i..], l.length) == Drop(src, i + l.length);
      if tail.Ok? { assert toks + ([l.tok] + tail.value) == toks + [l.tok] + tail.value; }
    }
  }

  /** The lexer hands the parser a list that ends with the one end marker. */
  lemma {:induction false} LexTerminated(s: string)
    requires Lex(s).Ok?
    ensures var toks := Lex(s).value;
            |toks| > 0 && toks[|toks| - 1] == Eof && forall i | 0 <= i < |toks| - 1 :: toks[i] != Eof
    decreases |s|
  {
    if s != "" {
      match First(s)
      case Space => LexTerminated(s[1..]);
      case Lexeme(_, n) => LexTerminated(Drop(s, n));
    }
  }

  // ---------------------------------------------------------------------------------------------
  // Round trip: spelled-out tokens, with any white space between them, lex back to themselves

  predicate Spellable(t: Tok) {
    match t
    case Str(s) => '"' !in s || '\'' !in s
    case Num(s) => s != "" && forall i | 0 <= i < |s| :: IsNumberChar(s[i])
    case Ident(s) => s != "" && IsWordStart(s[0]) && forall i | 0 <= i < |s| :: IsWordChar(s[i])
    case Eof => false
    case _ => true
  }

  function Spell(t: Tok): (s: string)
    requires Spellable(t)
    ensures s != ""
  {
    match t
    case OrOr => "||"
    case AndAnd => "&&"
    case EqEq => "=="
    case BangEq => "!="
    case Lt => "<"
    case Le => "<="
    case Gt => ">"
    case Ge => ">="
    case Plus => "+"
    case Minus => "-"
    case Star => "*"
    case Slash => "/"
    case Bang => "!"
    case LParen => "("
    case RParen => ")"
    case Str(s) => if '"' !in s then "\"" + s + "\"" else "'" + s + "'"
    case Num(s) => s
    case Ident(s) => s
  }

  /** `next` may follow `t`'s spelling directly without being swallowed by it. */
  predicate Separate(t: Tok, next: string) {
    next == "" ||
    match t
    case Num(_) => !IsNumberChar(next[0])
    case Ident(_) => !IsWordChar(next[0])
    case Bang | Lt | Gt => next[0] != '='
    case _ => true
  }

  lemma LexSpelled(t: Tok, rest: string)
    requires Spellable(t) && Separate(t, rest)
    ensures Lex(Spell(t) + rest) == Prepend([t], Lex(rest))
  {
    var s := Spell(t) + rest;
    FirstSpelled(t, rest);
    assert Drop(s, |Spell(t)|) == rest;
  }

  lemma FirstSpelled(t: Tok, rest: string)
    requires Spellable(t) && Separate(t, rest)
    ensures First(Spell(t) + rest) == Lexeme(t, |Spell(t)|)
  {
    match t
    case Num(text) => NumberSpelled(text, rest);
    case Ident(text) => IdentSpelled(text, rest);
    case Str(text) => StringSpelled(text, if '"' !in text then '"' else '\'', rest);
    case _ => OperatorSpelled(t, rest);
  }

  lemma NumberSpelled(text: string, rest: string)
    requires Spellable(Num(text)) && Separate(Num(text), rest)
    ensures First(text + rest) == Lexeme(Num(text), |text|)
  {
    WordSpelled(text, rest, IsNumberChar);
  }

  lemma IdentSpelled(text: string, rest: string)
    requires Spellable(Ident(text)) && Separate(Ident(text), rest)
    ensures First(text + rest) == Lexeme(Ident(text), |text|)
  {
    WordSpelled(text, rest, IsWordChar);
  }

  lemma WordSpelled(text: string, rest: string, p: char -> bool)
    requires text != "" && (forall i | 0 <= i < |text| :: p(text[i])) && (rest != "" ==> !p(rest[0]))
    ensures Span(text + rest, p) == |text| && (text + rest)[..|text|] == text && (text + rest)[0] == text[0]
  {
    SpanUnique(text + rest, p, |text|);
  }

  lemma StringSpelled(text: string, q: char, rest: string)
    requires IsQuote(q) && q !in text
    ensures First([q] + text + [q] + rest) == Lexeme(Str(text), |text| + 2)
  {
    var s := [q] + text + [q] + rest;
    assert s[1..] == text + [q] + rest;
    assert s[1..1 + |text|] == text;
    SpanUnique(s[1..], d => d != q, |text|);
  }

  lemma OperatorSpelled(t: Tok, rest: string)
    requires Spellable(t) && Separate(t, rest) && !t.Num? && !t.Ident? && !t.Str?
    ensures First(Spell(t) + rest) == Lexeme(t, |Spell(t)|)
  {
    var p, s := Spell(t), Spell(t) + rest;
    assert s[0] == p[0];
    if |p| == 2 {
      assert s[1] == p[1] && PairOp(p[0], p[1]) == t;
    } else {
      assert |p| == 1 && SingleOp(p[0]) == t;
      if rest != "" { assert s[1] == rest[0] && PairOp(p[0], rest[0]) == Eof; }
    }
  }

  predicate Blank(s: string) {
    forall i | 0 <= i < |s| :: IsSpace(s[i])
  }

  lemma {:induction false} LexBlank(gap: string, s: string)
    requires Blank(gap)
    ensures Lex(gap + s) == Lex(s)
  {
    if gap == "" {
      assert gap + s == s;
    } else {
      assert (gap + s)[1..] == gap[1..] + s;
      LexBlank(gap[1..], s);
    }
  }

  /** The tokens spelled in order, `gaps[i]` in front of the i-th and the last gap at the end. */
  function Render(toks: seq<Tok>, gaps: seq<string>): string
    requires |gaps| == |toks| + 1 && forall t | t in toks :: Spellable(t)
  {
    if toks == [] then gaps[0] else gaps[0] + (Spell(toks[0]) + Render(toks[1..], gaps[1..]))
  }

  /** Two neighbours that need no white space between them. */
  predicate MayTouch(t: Tok, u: Tok) {
    && !(t.Num? && u.Num?)
    && !(t.Ident? && (u.Ident? || u.Num?))
    && !((t == Bang || t == Lt || t == Gt) && u == EqEq)
  }

  predicate AllMayTouch(toks: seq<Tok>) {
    forall i | 0 <= i < |toks| - 1 :: MayTouch(toks[i], toks[i + 1])
  }

  lemma MayTouchSeparates(t: Tok, u: Tok, rest: string)
    requires Spellable(u) && MayTouch(t, u)
    ensures Separate(t, Spell(u) + rest)
  {
    SpellStart(u);
    assert (Spell(u) + rest)[0] == Spell(u)[0];
  }

  lemma SpellStart(u: Tok)
    requires Spellable(u)
    ensures var c := Spell(u)[0];
            (c == '=' ==> u == EqEq) && (IsNumberChar(c) ==> u.Num?) && (IsWordChar(c) ==> u.Num? || u.Ident?)
  {
    if u.Str? {
    } else if u.Num? || u.Ident? {
    } else {
      OperatorStart(u);
    }
  }

  lemma OperatorStart(u: Tok)
    requires Spellable(u) && !u.Str? && !u.Num? && !u.Ident?
    ensures var c := Spell(u)[0]; (c == '=' ==> u == EqEq) && !IsNumberChar(c) && !IsWordChar(c)
  {
  }

  lemma {:induction false} LexRender(toks: seq<Tok>, gaps: seq<string>)
    requires |gaps| == |toks| + 1 && forall t | t in toks :: Spellable(t)
    requires forall g | g in gaps :: Blank(g)
    requires AllMayTouch(toks)
    ensures Lex(Render(toks, gaps)) == Ok(toks + [Eof])
  {
    if toks == [] {
      LexBlank(gaps[0], "");
      assert gaps[0] + "" == gaps[0];
      assert toks + [Eof] == [Eof];
    } else {
      var rest := Render(toks[1..], gaps[1..]);
      LexBlank(gaps[0], Spell(toks[0]) + rest);
      LexRender(toks[1..], gaps[1..]);
      RenderSeparate(toks, gaps);
      LexSpelled(toks[0], rest);
      assert [toks[0]] + (toks[1..] + [Eof]) == toks + [Eof];
    }
  }

  lemma RenderSeparate(toks: seq<Tok>, gaps: seq<string>)
    requires toks != [] && |gaps| == |toks| + 1 && forall t | t in toks :: Spellable(t)
    requires forall g | g in gaps :: Blank(g)
    requires AllMayTouch(toks)
    ensures Separate(toks[0], Render(toks[1..], gaps[1..]))
  {
    var rest, gap := Render(toks[1..], gaps[1..]), gaps[1];
    assert gap in gaps;
    if gap != "" {
      assert rest[0] == gap[0] && IsSpace(gap[0]);
    } else if |toks| > 1 {
      var more := Render(toks[1..][1..], gaps[1..][1..]);
      assert rest == Spell(toks[1]) + more;
      MayTouchSeparates(toks[0], toks[1], more);
    }
  }
}
