# zeta.c calculator core in Dafny

zeta.c is a read-evaluate-print loop for integer arithmetic. It reads one line,
lexes it into tokens (`INTEGER`, `+ - * /`, parentheses, end of input), parses
it by recursive descent into an abstract syntax tree of numbers and binary
operations, evaluates the tree over doubles and prints the result.

This project models that core and proves what the code promises:

- `Tokens`, `Errors`: token types and tokens, and the outcomes that replace
  `error(...)` / `exit(1)` (the model returns an error instead of ending the
  process).
- `Lexing`: the lexer. The functions `SkipSpaces`, `DigitRun`, `Scan` and
  `ScanToken` describe one call of `get_next_token` on the unread characters.
  The class `Lexing.Lexer` is the in-place cursor (`text`, `pos`,
  `current_char`), and each of its methods is proved against those functions.
- `Grammar`: the parser as functions over a state made of the lookahead token
  and the unread text. `TermTail` and `ExprTail` are the `while` loops of `term`
  and `expr`.
- `Parsing`: the class `Parsing.Parser`, which holds the lexer and the current
  token. Its methods `Eat`, `Factor`, `Term`, `Expr` and `Parse` are proved to
  agree with `Grammar`.
- `Syntax`, `Interpreter`: the tree and `visit`.
- `Printing`: a printer with as few parentheses as possible. Parsing what it
  prints gives back the tree. Because of this round trip, `*` and `/` bind
  tighter than `+` and `-`, and both levels group to the left.
- `Calculator`: one line of the loop. It covers `Lexer_Init`, `Parser_Init`,
  `parse` and `interpret`, plus lemmas about sample lines.

zeta.c has no statements, variables, unary signs or decimal numbers, and
neither does this model. For example, a leading `-` is rejected
(`Grammar.LeadingSignRejected`), and `.` is an invalid character.

Numbers are exact: token and tree values are `nat` and evaluation is over
`real`. The loop's I/O is not modelled.

## Model

| member | source | states |
|---|---|---|
| Lexing.Lexer.constructor | zeta.c:77-83 | `Lexer_Init`: the cursor starts at 0 on the first character (the terminator for an empty line), with all of the text unread |
| Lexing.Lexer.Advance | zeta.c:86-91 | the cursor moves one position; the character under it is the next one, or the terminator at the end; exactly one character leaves the unread text |
| Lexing.SkipSpaces | zeta.c:94-98 | what is left after the whitespace is skipped starts with no whitespace, and it is strictly shorter when the input started with whitespace |
| Lexing.Lexer.SkipWhitespace | zeta.c:94-98 | the unread text becomes `SkipSpaces` of what it was, and the character under the cursor is not whitespace |
| Lexing.DigitRun | zeta.c:105 | the length of the maximal run of digits at the start: all of it is digits, and it is followed by a non-digit or by the end |
| Lexing.DecimalValueOfSpell | zeta.c:111 | the value of the decimal digits of `n` is `n` |
| Lexing.ReadBuffer | zeta.c:102-111 | the C string in a buffer is its prefix before the first terminator; it runs past the end exactly when the buffer holds no terminator |
| Lexing.DigitBuffer | zeta.c:102-107 | the buffer holds the digits stored so far, followed by zero bytes |
| Lexing.FullBufferUnterminated | zeta.c:102-107 | as written, 32 digits fill the 32-byte buffer and leave no terminator |
| Lexing.ReadDigitBuffer | zeta.c:102-111 | a buffer larger than the digits stored in it reads back exactly those digits |
| Lexing.Lexer.Number | zeta.c:101-112 | succeeds exactly when the maximal digit run has at most 32 digits, and fails with "too long" otherwise; the value is the decimal value of the run; the cursor ends just past the run, on a non-digit |
| Lexing.Scan | zeta.c:115-157 | a token other than END OF INPUT consumes at least one character; END OF INPUT leaves nothing unread |
| Lexing.ScanToken | zeta.c:123-156 | the same facts for text that starts with no whitespace; END OF INPUT is returned only for empty text |
| Lexing.ScanEofIffBlank | zeta.c:115-157 | END OF INPUT is returned exactly when everything unread is whitespace |
| Lexing.ScanSkipsSpace | zeta.c:117-121 | a leading whitespace character does not change the token that is read |
| Lexing.ScanNumber | zeta.c:123-127 | a digit starts an INTEGER whose value is that of the maximal digit run, or a "too long" error past 32 digits |
| Lexing.ScanSymbol | zeta.c:131-149 | each of `+ - * / ( )` is a token of its own type and consumes one character |
| Lexing.ScanInvalid | zeta.c:150-151 | any other character that is not whitespace or a digit is an invalid character |
| Lexing.ScanSpelled | zeta.c:123-127 | the decimal spelling of `n`, followed by a non-digit, is read as INTEGER `n` |
| Lexing.Lexer.GetNextToken | zeta.c:115-157 | returns the token and leaves the unread text that `Scan` gives, or the error `Scan` gives; END OF INPUT leaves the cursor on the terminator; any other token moves the cursor forward |
| Grammar.Fetch | zeta.c:186 | the next lookahead plus the text left unread measure no more than the unread text before: a token other than END OF INPUT consumes at least one character |
| Grammar.Eat | zeta.c:192-198 | a successful `eat` of any type but END OF INPUT strictly decreases what is left to read (the measure that makes the recursive descent terminate) |
| Grammar.EatIff | zeta.c:192-198 | `eat` fails with "invalid syntax" exactly when the lookahead type differs, and otherwise gives the state after the next token |
| Grammar.Factor | zeta.c:201-216 | the result is a well-formed tree (every node's token is an operator), and at least one token is consumed |
| Grammar.FactorRejects | zeta.c:204-214 | a lookahead that is neither INTEGER nor `(` fails with "unexpected token" |
| Grammar.LeadingSignRejected | zeta.c:201-216 | a factor that starts with `+` or `-` fails (the code has no unary operators) |
| Grammar.Term | zeta.c:219-236 | the result is a well-formed tree, and at least one token is consumed |
| Grammar.TermTail | zeta.c:222-233 | each `*` or `/` turns the tree so far into the left operand of a new node, so the first factor sits on the left spine of the result; the loop stops at a lookahead other than `*` or `/` |
| Grammar.Expr | zeta.c:239-257 | the result is a well-formed tree, and at least one token is consumed |
| Grammar.ExprTail | zeta.c:243-254 | each `+` or `-` turns the tree so far into the left operand of a new node, so the first term sits on the left spine of the result; entered after a term, the loop stops at a lookahead that is no operator |
| Parsing.Parser.Init | zeta.c:183-189 | `Parser_Init`: reads the first token into the lookahead, or reports the lexer's error |
| Parsing.Parser.Eat | zeta.c:192-198 | agrees with `Grammar.Eat`; on a type mismatch nothing changes and the result is "invalid syntax" |
| Parsing.Parser.Factor | zeta.c:201-216 | agrees with `Grammar.Factor` on the tree, the error and the new lexer and lookahead state |
| Parsing.Parser.Term | zeta.c:219-236 | agrees with `Grammar.Term`; the loop keeps the invariant that the rest of the parse is `TermTail` of the tree built so far |
| Parsing.Parser.Expr | zeta.c:239-257 | agrees with `Grammar.Expr`; the loop keeps the invariant that the rest of the parse is `ExprTail` of the tree built so far |
| Parsing.Parser.Parse | zeta.c:259-261 | agrees with `Grammar.Expr`: one expression is parsed, and whatever follows it is left unread |
| Printing.FactorRoundTrip | zeta.c:201-216 | for a well-formed tree whose numbers have at most 32 digits, printed as a factor and followed by text that lexes and starts with no digit, `factor` gives back the tree and stops at the first token of that text |
| Printing.TermRoundTrip | zeta.c:219-236 | printed as a term, the tree is read back by `term` as the tree so far of its loop: `*` and `/` group to the left, and only a right operand that is itself an operation needs parentheses |
| Printing.ExprRoundTrip | zeta.c:239-257 | printed as an expression, the tree is read back by `expr` as the tree so far of its loop: `+` and `-` bind more loosely than `*` and `/`, and both group to the left |
| Printing.ParseRendered | zeta.c:259-261 | parsing a printed tree followed by text whose first token is no operator gives back exactly the tree |
| Printing.ParseRenderedAlone | zeta.c:259-261 | parsing a printed tree on its own line gives back the tree |
| Interpreter.Eval | zeta.c:312-350 | `visit`: on a well-formed tree, the only possible failure is division by zero |
| Interpreter.EvalFailsIffZeroDivisor | zeta.c:325-345 | evaluation of a well-formed tree fails exactly when some `/` node's right operand evaluates to zero |
| Interpreter.ChildrenBeforeOperator | zeta.c:325-327 | a failing left operand decides the result before the right operand and the operator are considered |
| Interpreter.UnknownOperatorAfterChildren | zeta.c:328-344 | a node whose token is not an operator fails with "unknown operator" once both operands evaluate |
| Calculator.EvaluateLine | zeta.c:394-399 | one line of the loop gives the outcome of parsing the line and evaluating the tree |
| Calculator.InterpretRendered | zeta.c:360-362 | the printed form of a tree evaluates to the tree's value |
| Calculator.MulBindsTighter | zeta.c:219-257 | `1+2*3` evaluates to 7 |
| Calculator.ParenthesesOverride | zeta.c:207-211 | `(1+2)*3` evaluates to 9 |
| Calculator.MinusGroupsLeft | zeta.c:243-254 | `1-2-3` evaluates to -4 |
| Calculator.DivideByZero | zeta.c:335-339 | `1/0` fails with division by zero |
| Calculator.TrailingTextIgnored | zeta.c:259-261 | `1 2 $` parses as `1`: `parse` never asks for END OF INPUT, so only the first token after the expression (`2`) is lexed, as the lookahead, and the `$` after it is never read |
| Calculator.InvalidCharacterAfterNumber | zeta.c:150-151 | `1%` fails on the invalid character, because `eat` reads the token after `1` |

## Findings

| source | as written | input that shows it | evidently intended | confidence | as-written member | corrected member |
|---|---|---|---|---|---|---|
| zeta.c:102-111 | `number` stores up to 32 digits in `char result[32]`, so a run of exactly 32 digits leaves no terminator, and `atof` reads past the buffer | a line holding 32 digits, e.g. `11111111111111111111111111111111` | the buffer holds every accepted digit plus the terminator (33 bytes) | high; not executed | Lexing.FullBufferUnterminated | Lexing.ReadDigitBuffer (used by Lexing.Lexer.Number with a buffer of `BufferSize` bytes) |

## Left out

- The loop of `main`: the prompt, `fgets` into a 1024-byte buffer, removing the
  newline, skipping empty lines, the `exit` command and printing with `%g`. This
  is console I/O. `Calculator.EvaluateLine` models what happens to one line.
- The messages printed by `error` and by `visit_BinOp`. An outcome `Err(...)`
  names the failure, but its text is not modelled.
- `TokenType_ToString`: it only builds the message text.
- Floating point. Numbers go through `atof`, `sprintf("%lf")` into the token's
  32-byte `value` and `atof` again, and evaluation is over `double`. The model
  keeps exact integers and exact reals. It does not capture:
  - rounding of large integers above 2^53;
  - rounding of every inexact division, at any magnitude. This changes when a
    divisor is zero, in both directions. For `1/(1/10*3-3/10)` the double divisor
    is about 5.55e-17, so zeta.c prints a large number, while the model's divisor
    is exactly 0 and the model gives division by zero. Conversely, a quotient
    that underflows to 0 in double (1 divided by 10^29 twelve times, about 1e-348) makes a
    later division fail in zeta.c, but is a non-zero real in the model. So
    `Interpreter.EvalFailsIffZeroDivisor` holds over exact reals, not over
    doubles;
  - infinities, NaN (from inf - inf) and `-0.0`;
  - the token's `value` field: `%lf` needs more than 32 bytes for numbers of 25
    digits or more, so such numbers overflow it.
- `malloc` and `free` of tree nodes: the tree is a value.
- `Interpreter_Init` and the `parser` field of `Interpreter`: `visit` never uses
  them.
- The `default` branch of `visit` (an unknown node type): a closed datatype has
  no third case.
- `isspace` and `isdigit` are applied to a plain `char`. For negative values
  this is undefined behaviour; the model uses their meaning in the C locale.
- Lexing.Lexer.Advance: requires the cursor to be on a character. The C
  function would also step past the terminator, but no caller does that.
- Lexing.Lexer.constructor: requires the text to hold no NUL before its end,
  which a C string always satisfies.
