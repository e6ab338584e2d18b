/**
 * A printer for trees that writes as few parentheses as the grammar allows, and
 * the proof that the parser reads every printed tree back unchanged. Since the
 * printer leaves out every parenthesis that precedence and left associativity
 * make redundant, the round trip is the statement that the parser gives `*` and
 * `/` precedence over `+` and `-` and groups each of them to the left.
 */
module Printing {
  import opened Tokens
  import opened Errors
  import opened Syntax
  import opened Lexing
  import opened Grammar

  function OpChar(k: TokenKind): char {
    match k
    case Plus => '+'
    case Minus => '-'
    case Mul => '*'
    case Div => '/'
    case _ => '?'
  }

  /** A tree as an `expr`: an additive node bare, anything else as a term. */
  function RenderExpr(e: Ast): seq<char>
    decreases e, 3
  {
    if e.BinOp? && IsAdditive(e.op) then RenderOperation(e) else RenderTerm(e)
  }

  /** A tree as a `term`: a multiplicative node bare, anything else as a factor. */
  function RenderTerm(e: Ast): seq<char>
    decreases e, 2
  {
    if e.BinOp? && !IsAdditive(e.op) then RenderOperation(e) else RenderFactor(e)
  }

  /** A tree as a `factor`: a number, or an operation in parentheses. */
  function RenderFactor(e: Ast): seq<char>
    decreases e, 1
  {
    match e
    case Num(v) => Spell(v)
    case BinOp(_, _, _) => "(" + RenderOperation(e) + ")"
  }

  /**
   * An operation: its left operand at its own level (which is where a left-nested
   * chain stays unparenthesised), its right operand one level tighter.
   */
  function RenderOperation(e: Ast): seq<char>
    requires e.BinOp?
    decreases e, 0
  {
    if IsAdditive(e.op) then RenderExpr(e.left) + [OpChar(e.op)] + RenderTerm(e.right)
    else RenderTerm(e.left) + [OpChar(e.op)] + RenderFactor(e.right)
  }

  /** Every number fits the lexer's 32-digit buffer. */
  predicate FitsBuffer(e: Ast) {
    match e
    case Num(v) => |Spell(v)| <= MaxDigits
    case BinOp(l, _, r) => FitsBuffer(l) && FitsBuffer(r)
  }

  predicate Printable(e: Ast) {
    WellFormed(e) && FitsBuffer(e)
  }

  /** Text that may follow a printed tree: it does not extend a number, and its first token lexes. */
  predicate Follows(tail: seq<char>) {
    (tail == [] || !IsDigit(tail[0])) && Fetch(tail).Ok?
  }

  lemma FetchSymbol(c: char, s: seq<char>)
    requires IsSymbol(c)
    ensures Fetch([c] + s) == Ok(State(Token(SymbolKind(c), 0), s))
  {
  }

  /** A printed factor is read back as that tree by `factor`. */
  lemma {:induction false} FactorRoundTrip(e: Ast, tail: seq<char>)
    requires Printable(e) && Follows(tail)
    ensures Fetch(RenderFactor(e) + tail).Ok?
    ensures Factor(Fetch(RenderFactor(e) + tail).value) == Ok((e, Fetch(tail).value))
    decreases e, if e.Num? then 0 else if IsAdditive(e.op) then 1 else 2
  {
    match e
    case Num(v) =>
      ScanSpelled(v, tail);
    case BinOp(_, _, _) =>
      var inner := RenderOperation(e);
      assert RenderFactor(e) + tail == ['('] + (inner + ([')'] + tail));
      FetchSymbol('(', inner + ([')'] + tail));
      FetchSymbol(')', tail);
      ExprRoundTrip(e, [')'] + tail);
  }

  /**
   * A printed term is read by `term` as far as the tree, and the loop of `term`
   * then goes on from the tree as its accumulated operand.
   */
  lemma {:induction false} TermRoundTrip(e: Ast, tail: seq<char>)
    requires Printable(e) && Follows(tail)
    ensures Fetch(RenderTerm(e) + tail).Ok?
    ensures Term(Fetch(RenderTerm(e) + tail).value) == TermTail(e, Fetch(tail).value)
    decreases e, if e.Num? then 1 else if IsAdditive(e.op) then 2 else 0
  {
    if e.BinOp? && !IsAdditive(e.op) {
      var t1 := [OpChar(e.op)] + (RenderFactor(e.right) + tail);
      assert RenderTerm(e) + tail == RenderTerm(e.left) + t1;
      FetchSymbol(OpChar(e.op), RenderFactor(e.right) + tail);
      TermRoundTrip(e.left, t1);
      FactorRoundTrip(e.right, tail);
    } else {
      FactorRoundTrip(e, tail);
    }
  }

  /**
   * A printed expression followed by anything but `*` or `/` is read by `expr`
   * as far as the tree, and the loop of `expr` then goes on from the tree.
   */
  lemma {:induction false} ExprRoundTrip(e: Ast, tail: seq<char>)
    requires Printable(e) && Follows(tail) && !IsMultiplicative(Fetch(tail).value.current.kind)
    ensures Fetch(RenderExpr(e) + tail).Ok?
    ensures Expr(Fetch(RenderExpr(e) + tail).value) == ExprTail(e, Fetch(tail).value)
    decreases e, if e.Num? then 2 else if IsAdditive(e.op) then 0 else 1
  {
    if e.BinOp? && IsAdditive(e.op) {
      var t1 := [OpChar(e.op)] + (RenderTerm(e.right) + tail);
      assert RenderExpr(e) + tail == RenderExpr(e.left) + t1;
      FetchSymbol(OpChar(e.op), RenderTerm(e.right) + tail);
      ExprRoundTrip(e.left, t1);
      TermRoundTrip(e.right, tail);
    } else {
      TermRoundTrip(e, tail);
    }
  }

  /**
   * Parsing a printed tree gives the tree back, whatever follows it as long as
   * that does not start with an operator: trailing tokens are left unread.
   */
  lemma ParseRendered(e: Ast, tail: seq<char>)
    requires Printable(e) && Follows(tail) && !IsOperator(Fetch(tail).value.current.kind)
    ensures ParseText(RenderExpr(e) + tail) == Ok(e)
  {
    ExprRoundTrip(e, tail);
  }

  /** Parsing a printed tree on its own gives the tree back. */
  lemma ParseRenderedAlone(e: Ast)
    requires Printable(e)
    ensures ParseText(RenderExpr(e)) == Ok(e)
  {
    assert RenderExpr(e) + [] == RenderExpr(e);
    ParseRendered(e, []);
  }
}
