/**
 * The parser of zeta.c as it runs: an object holding the lexer and the lookahead
 * token, whose methods consume tokens in place. Each method is proved to do what
 * the function of the same name in `Grammar` describes.
 */
module Parsing {
  import opened Tokens
  import opened Errors
  import opened Syntax
  import opened Lexing
  import G = Grammar

  class Parser {
    const lexer: Lexer
    var currentToken: Token

    ghost predicate Valid()
      reads this, lexer
    {
      lexer.Valid()
    }

    /** The parser's state as the functions of `Grammar` see it. */
    ghost function State(): G.State
      reads this, lexer
      requires Valid()
    {
      G.State(currentToken, lexer.Rest())
    }

    /**
     * The outcome `r` of a method is the one `spec` gives, and on success the
     * parser has reached the state `spec` ends in.
     */
    ghost predicate Agrees<T>(r: Result<T>, spec: Result<(T, G.State)>)
      reads this, lexer
      requires Valid()
    {
      match spec
      case Ok((v, st)) => r == Ok(v) && State() == st
      case Err(e) => r == Err(e)
    }

    constructor (lexer: Lexer, first: Token)
      ensures this.lexer == lexer && currentToken == first
    {
      this.lexer := lexer;
      currentToken := first;
    }

    /** `Parser_Init`: a parser over `lexer` whose lookahead is the lexer's first token. */
    static method Init(lexer: Lexer) returns (r: Result<Parser>)
      requires lexer.Valid()
      modifies lexer
      ensures lexer.Valid()
      ensures r.Ok? <==> G.Fetch(old(lexer.Rest())).Ok?
      ensures r.Ok? ==> fresh(r.value) && r.value.lexer == lexer && r.value.Valid()
      ensures r.Ok? ==> r.value.State() == G.Fetch(old(lexer.Rest())).value
      ensures r.Err? ==> r.error == G.Fetch(old(lexer.Rest())).error
    {
      var first := lexer.GetNextToken();
      if first.Err? {
        return Err(first.error);
      }
      var p := new Parser(lexer, first.value);
      return Ok(p);
    }

    /**
     * `eat`: on a lookahead of the expected type, fetches the next token; on any
     * other, fails with invalid syntax and changes nothing.
     */
    method Eat(kind: TokenKind) returns (r: Result<()>)
      requires Valid()
      modifies this, lexer
      ensures Valid()
      ensures r.Ok? <==> G.Eat(old(State()), kind).Ok?
      ensures r.Ok? ==> State() == G.Eat(old(State()), kind).value
      ensures r.Err? ==> r.error == G.Eat(old(State()), kind).error
      ensures old(currentToken.kind) != kind ==> r == Err(InvalidSyntax)
      ensures old(currentToken.kind) != kind ==> currentToken == old(currentToken) && lexer.pos == old(lexer.pos)
    {
      if currentToken.kind == kind {
        var next := lexer.GetNextToken();
        if next.Err? {
          return Err(next.error);
        }
        currentToken := next.value;
        r := Ok(());
      } else {
        r := Err(InvalidSyntax);
      }
    }

    /** `factor`. */
    method Factor() returns (r: Result<Ast>)
      requires Valid()
      modifies this, lexer
      ensures Valid() && Agrees(r, G.Factor(old(State())))
      decreases G.Measure(State()), 0
    {
      var token := currentToken;
      if token.kind == Integer {
        var ok := Eat(Integer);
        if ok.Err? {
          return Err(ok.error);
        }
        return Ok(Num(token.value));
      } else if token.kind == LParen {
        var ok := Eat(LParen);
        if ok.Err? {
          return Err(ok.error);
        }
        var node := Expr();
        if node.Err? {
          return node;
        }
        ok := Eat(RParen);
        if ok.Err? {
          return Err(ok.error);
        }
        return node;
      }
      return Err(UnexpectedToken(token.kind));
    }

    /** `term`: the accumulated tree becomes the left operand of each new `*` or `/`. */
    method Term() returns (r: Result<Ast>)
      requires Valid()
      modifies this, lexer
      ensures Valid() && Agrees(r, G.Term(old(State())))
      decreases G.Measure(State()), 1
    {
      var first := Factor();
      if first.Err? {
        return first;
      }
      var node := first.value;
      while currentToken.kind == Mul || currentToken.kind == Div
        invariant Valid()
        invariant G.Measure(State()) < old(G.Measure(State()))
        invariant G.Term(old(State())) == G.TermTail(node, State())
        decreases G.Measure(State())
      {
        var token := currentToken;
        var ok: Result<()>;
        if token.kind == Mul {
          ok := Eat(Mul);
        } else {
          ok := Eat(Div);
        }
        if ok.Err? {
          return Err(ok.error);
        }
        var right := Factor();
        if right.Err? {
          return right;
        }
        node := BinOp(node, token.kind, right.value);
      }
      return Ok(node);
    }

    /** `expr`: the accumulated tree becomes the left operand of each new `+` or `-`. */
    method Expr() returns (r: Result<Ast>)
      requires Valid()
      modifies this, lexer
      ensures Valid() && Agrees(r, G.Expr(old(State())))
      decreases G.Measure(State()), 2
    {
      var first := Term();
      if first.Err? {
        return first;
      }
      var node := first.value;
      while currentToken.kind == Plus || currentToken.kind == Minus
        invariant Valid()
        invariant G.Measure(State()) < old(G.Measure(State()))
        invariant G.Expr(old(State())) == G.ExprTail(node, State())
        decreases G.Measure(State())
      {
        var token := currentToken;
        var ok: Result<()>;
        if token.kind == Plus {
          ok := Eat(Plus);
        } else {
          ok := Eat(Minus);
        }
        if ok.Err? {
          return Err(ok.error);
        }
        var right := Term();
        if right.Err? {
          return right;
        }
        node := BinOp(node, token.kind, right.value);
      }
      return Ok(node);
    }

    /** `parse`: one expression; the tokens after it are left where they are. */
    method Parse() returns (r: Result<Ast>)
      requires Valid()
      modifies this, lexer
      ensures Valid() && Agrees(r, G.Expr(old(State())))
    {
      r := Expr();
    }
  }
}
