/**
 * Every `error(...)` and `exit(1)` of zeta.c ends the process with a message.
 * The model turns each of them into an error outcome that is returned instead.
 */
module Errors {
  import opened Tokens

  datatype Error =
    | InvalidCharacter(c: char)        // lexer: a character that starts no token
    | NumberTooLong                    // lexer: a digit run longer than the 32-byte buffer
    | InvalidSyntax                    // eat: the lookahead is not the expected type
    | UnexpectedToken(kind: TokenKind) // factor: the lookahead is neither INTEGER nor LPAREN
    | DivisionByZero                   // evaluator: a divisor equal to zero
    | UnknownOperator                  // evaluator: a BinOp whose token is no operator

  datatype Result<+T> = Ok(value: T) | Err(error: Error)
}
