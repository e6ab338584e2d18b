/** Tokens produced by the lexer of zeta.c (its `TokenType` and `Token`). */
module Tokens {

  /** The eight token types, in the order zeta.c declares them. */
  datatype TokenKind = Integer | Plus | Minus | Mul | Div | LParen | RParen | EofToken

  /**
   * A token. zeta.c keeps the token's text in a 32-byte buffer; the model keeps
   * what that text stands for: the value of an INTEGER token's digit run, and 0
   * for every other token.
   */
  datatype Token = Token(kind: TokenKind, value: nat)

  /** The token `get_next_token` returns at the end of the text. */
  const EofTok := Token(EofToken, 0)

  /** PLUS and MINUS: the operators `expr` loops over. */
  predicate IsAdditive(k: TokenKind) {
    k == Plus || k == Minus
  }

  /** MUL and DIV: the operators `term` loops over. */
  predicate IsMultiplicative(k: TokenKind) {
    k == Mul || k == Div
  }

  /** The token types the evaluator knows how to apply. */
  predicate IsOperator(k: TokenKind) {
    IsAdditive(k) || IsMultiplicative(k)
  }
}
