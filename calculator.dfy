/**
 * One line of zeta.c's read-evaluate loop without its input and output: lex,
 * parse and evaluate the text, and the properties that tie the three together.
 */
module Calculator {
  import opened Tokens
  import opened Errors
  import opened Syntax
  import opened Lexing
  import opened Grammar
  import opened Interpreter
  import opened Printing
  import Parsing

  /** The value of a line of text, or the error that stops it. */
  function Interpret(text: seq<char>): Result<real> {
    match ParseText(text)
    case Err(e) => Err(e)
    case Ok(tree) => Eval(tree)
  }

  /**
   * The body of `main`'s loop for one line: `Lexer_Init`, `Parser_Init`, `parse`
   * and `interpret`.
   */
  method EvaluateLine(text: seq<char>) returns (r: Result<real>)
    requires CString(text)
    ensures r == Interpret(text)
  {
    var lexer := new Lexing.Lexer(text);
    var parser := Parsing.Parser.Init(lexer);
    if parser.Err? {
      return Err(parser.error);
    }
    var tree := parser.value.Parse();
    if tree.Err? {
      return Err(tree.error);
    }
    r := Eval(tree.value);
  }

  /** Evaluating the printed form of a tree is evaluating the tree. */
  lemma InterpretRendered(e: Ast)
    requires Printable(e)
    ensures Interpret(RenderExpr(e)) == Eval(e)
  {
    ParseRenderedAlone(e);
  }

  /** `*` binds tighter than `+`: `1+2*3` is `1+(2*3)`, which is 7. */
  lemma MulBindsTighter()
    ensures ParseText("1+2*3") == Ok(BinOp(Num(1), Plus, BinOp(Num(2), Mul, Num(3))))
    ensures Interpret("1+2*3") == Ok(7.0)
  {
    var e := BinOp(Num(1), Plus, BinOp(Num(2), Mul, Num(3)));
    assert RenderExpr(e) == "1+2*3";
    ParseRenderedAlone(e);
  }

  /** Parentheses override precedence: `(1+2)*3` is 9. */
  lemma ParenthesesOverride()
    ensures ParseText("(1+2)*3") == Ok(BinOp(BinOp(Num(1), Plus, Num(2)), Mul, Num(3)))
    ensures Interpret("(1+2)*3") == Ok(9.0)
  {
    var e := BinOp(BinOp(Num(1), Plus, Num(2)), Mul, Num(3));
    assert RenderExpr(e) == "(1+2)*3";
    ParseRenderedAlone(e);
  }

  /** `-` groups to the left: `1-2-3` is `(1-2)-3`, which is -4. */
  lemma MinusGroupsLeft()
    ensures ParseText("1-2-3") == Ok(BinOp(BinOp(Num(1), Minus, Num(2)), Minus, Num(3)))
    ensures Interpret("1-2-3") == Ok(-4.0)
  {
    var e := BinOp(BinOp(Num(1), Minus, Num(2)), Minus, Num(3));
    assert RenderExpr(e) == "1-2-3";
    ParseRenderedAlone(e);
  }

  /** A divisor equal to zero stops evaluation. */
  lemma DivideByZero()
    ensures Interpret("1/0") == Err(DivisionByZero)
  {
    var e := BinOp(Num(1), Div, Num(0));
    assert RenderExpr(e) == "1/0";
    ParseRenderedAlone(e);
  }

  /**
   * The parser stops after one expression: in `1 2 $` the `2` is only the
   * lookahead, and the `$` after it is never read.
   */
  lemma TrailingTextIgnored()
    ensures ParseText("1 2 $") == Ok(Num(1))
  {
    var tail := " 2 $";
    assert Spell(2) == "2";
    assert tail == [' '] + (Spell(2) + " $");
    ScanSkipsSpace(' ', Spell(2) + " $");
    ScanSpelled(2, " $");
    assert Fetch(tail) == Ok(State(Token(Integer, 2), " $"));
    assert "1 2 $" == RenderExpr(Num(1)) + tail;
    ParseRendered(Num(1), tail);
  }

  /** An invalid character is reported when the lexer reaches it as the next lookahead. */
  lemma InvalidCharacterAfterNumber()
    ensures ParseText("1%") == Err(InvalidCharacter('%'))
  {
    assert "1%" == Spell(1) + "%";
    ScanSpelled(1, "%");
    ScanInvalid('%', []);
    assert "%" == ['%'] + [];
  }
}
