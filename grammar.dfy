/**
 * The parser of zeta.c as functions: one-token-lookahead recursive descent for
 *
 *   expr   := term ((PLUS | MINUS) term)*
 *   term   := factor ((MUL | DIV) factor)*
 *   factor := INTEGER | LPAREN expr RPAREN
 *
 * Each function takes the parser's state (the lookahead token and the characters
 * the lexer has not read yet) and returns the tree it built with the state after
 * it. The loops of `term` and `expr` are the tail functions `TermTail` and
 * `ExprTail`, which carry the tree accumulated so far.
 */
module Grammar {
  import opened Tokens
  import opened Errors
  import opened Syntax
  import opened Lexing

  /** The lookahead token and the characters not read yet. */
  datatype State = State(current: Token, rest: seq<char>)

  /**
   * Decreases with every token consumed: the unread characters, plus one while
   * the lookahead is not END OF INPUT.
   */
  function Measure(st: State): nat {
    |st.rest| + if st.current.kind == EofToken then 0 else 1
  }

  /** `get_next_token` on the unread characters: the next lookahead. */
  function Fetch(rest: seq<char>): (r: Result<State>)
    ensures r.Ok? ==> Measure(r.value) <= |rest|
  {
    match Scan(rest)
    case Err(e) => Err(e)
    case Ok((tok, rest')) => Ok(State(tok, rest'))
  }

  /** `eat`: consumes a lookahead of the expected type; any other is invalid syntax. */
  function Eat(st: State, kind: TokenKind): (r: Result<State>)
    ensures r.Ok? && kind != EofToken ==> Measure(r.value) < Measure(st)
  {
    if st.current.kind == kind then Fetch(st.rest) else Err(InvalidSyntax)
  }

  /** `factor`: an INTEGER, or an expression in parentheses. */
  function Factor(st: State): (r: Result<(Ast, State)>)
    ensures r.Ok? ==> Measure(r.value.1) < Measure(st) && WellFormed(r.value.0)
    decreases Measure(st), 0
  {
    if st.current.kind == Integer then
      match Eat(st, Integer)
      case Err(e) => Err(e)
      case Ok(st1) => Ok((Num(st.current.value), st1))
    else if st.current.kind == LParen then
      match Eat(st, LParen)
      case Err(e) => Err(e)
      case Ok(st1) =>
        match Expr(st1)
        case Err(e) => Err(e)
        case Ok((node, st2)) =>
          match Eat(st2, RParen)
          case Err(e) => Err(e)
          case Ok(st3) => Ok((node, st3))
    else
      Err(UnexpectedToken(st.current.kind))
  }

  /** `term`: a factor, then the loop over `*` and `/`. */
  function Term(st: State): (r: Result<(Ast, State)>)
    ensures r.Ok? ==> Measure(r.value.1) < Measure(st) && WellFormed(r.value.0)
    decreases Measure(st), 2
  {
    match Factor(st)
    case Err(e) => Err(e)
    case Ok((node, st1)) => TermTail(node, st1)
  }

  /**
   * The loop of `term`: while the lookahead is MUL or DIV, consume it, parse a
   * factor and make the tree so far its left operand.
   */
  function TermTail(acc: Ast, st: State): (r: Result<(Ast, State)>)
    ensures r.Ok? ==> Measure(r.value.1) <= Measure(st) && OnLeftSpine(acc, r.value.0)
    ensures r.Ok? && WellFormed(acc) ==> WellFormed(r.value.0)
    ensures r.Ok? ==> !IsMultiplicative(r.value.1.current.kind)
    decreases Measure(st), 1
  {
    if IsMultiplicative(st.current.kind) then
      match Eat(st, st.current.kind)
      case Err(e) => Err(e)
      case Ok(st1) =>
        match Factor(st1)
        case Err(e) => Err(e)
        case Ok((right, st2)) =>
          var r := TermTail(BinOp(acc, st.current.kind, right), st2);
          if r.Ok? then OnLeftSpineOfWrapped(acc, st.current.kind, right, r.value.0); r else r
    else
      Ok((acc, st))
  }

  /** `expr`: a term, then the loop over `+` and `-`. */
  function Expr(st: State): (r: Result<(Ast, State)>)
    ensures r.Ok? ==> Measure(r.value.1) < Measure(st) && WellFormed(r.value.0)
    decreases Measure(st), 4
  {
    match Term(st)
    case Err(e) => Err(e)
    case Ok((node, st1)) => ExprTail(node, st1)
  }

  /**
   * The loop of `expr`: while the lookahead is PLUS or MINUS, consume it, parse a
   * term and make the tree so far its left operand.
   */
  function ExprTail(acc: Ast, st: State): (r: Result<(Ast, State)>)
    ensures r.Ok? ==> Measure(r.value.1) <= Measure(st) && OnLeftSpine(acc, r.value.0)
    ensures r.Ok? && WellFormed(acc) ==> WellFormed(r.value.0)
    ensures r.Ok? && !IsMultiplicative(st.current.kind) ==> !IsOperator(r.value.1.current.kind)
    decreases Measure(st), 3
  {
    if IsAdditive(st.current.kind) then
      match Eat(st, st.current.kind)
      case Err(e) => Err(e)
      case Ok(st1) =>
        match Term(st1)
        case Err(e) => Err(e)
        case Ok((right, st2)) =>
          var r := ExprTail(BinOp(acc, st.current.kind, right), st2);
          if r.Ok? then OnLeftSpineOfWrapped(acc, st.current.kind, right, r.value.0); r else r
    else
      Ok((acc, st))
  }

  /**
   * What `main` does with one line: `Lexer_Init`, `Parser_Init` (which fetches the
   * first lookahead) and `parse`. The parser does not ask for END OF INPUT
   * afterwards, so whatever follows the expression is left unread.
   */
  function ParseText(text: seq<char>): Result<Ast> {
    match Fetch(text)
    case Err(e) => Err(e)
    case Ok(st) =>
      match Expr(st)
      case Err(e) => Err(e)
      case Ok((tree, _)) => Ok(tree)
  }

  /** `eat` succeeds exactly on a lookahead of the expected type whose successor lexes. */
  lemma EatIff(st: State, kind: TokenKind)
    ensures Eat(st, kind).Ok? <==> st.current.kind == kind && Fetch(st.rest).Ok?
    ensures st.current.kind != kind ==> Eat(st, kind) == Err(InvalidSyntax)
  {
  }

  /** `factor` refuses every lookahead but INTEGER and LPAREN. */
  lemma FactorRejects(st: State)
    requires st.current.kind != Integer && st.current.kind != LParen
    ensures Factor(st) == Err(UnexpectedToken(st.current.kind))
  {
  }

  /** A leading sign is no part of the grammar: the text is refused at its first token. */
  lemma LeadingSignRejected(sign: char, s: seq<char>)
    requires sign == '-' || sign == '+'
    ensures ParseText([sign] + s) == Err(UnexpectedToken(SymbolKind(sign)))
  {
    ScanSymbol(sign, s);
    var st := State(Token(SymbolKind(sign), 0), s);
    assert Fetch([sign] + s) == Ok(st);
    assert Factor(st) == Err(UnexpectedToken(SymbolKind(sign)));
    assert Term(st) == Err(UnexpectedToken(SymbolKind(sign)));
  }
}
