/** The abstract syntax tree built by the parser of zeta.c (its `struct Ast`). */
module Syntax {
  import opened Tokens

  /**
   * AST_NUM carries the value of its INTEGER token (`Ast_Num_Init`); AST_BINOP
   * carries its two children and the type of its operator token (`Ast_BinOp_Init`).
   */
  datatype Ast = Num(value: nat) | BinOp(left: Ast, op: TokenKind, right: Ast)

  /** Every operator node holds one of `+ - * /`. */
  predicate WellFormed(e: Ast) {
    match e
    case Num(_) => true
    case BinOp(l, op, r) => IsOperator(op) && WellFormed(l) && WellFormed(r)
  }

  /**
   * `acc` lies on the left spine of `e`: `e` was obtained from `acc` by wrapping
   * it, zero or more times, as the left child of a new operator node. This is
   * what the accumulating loops of `term` and `expr` do.
   */
  predicate OnLeftSpine(acc: Ast, e: Ast) {
    e == acc || (e.BinOp? && OnLeftSpine(acc, e.left))
  }

  /** Wrapping a tree as a left operand keeps whatever lay on its left spine there. */
  lemma {:induction false} OnLeftSpineOfWrapped(acc: Ast, op: TokenKind, right: Ast, e: Ast)
    requires OnLeftSpine(BinOp(acc, op, right), e)
    ensures OnLeftSpine(acc, e)
  {
    if e != BinOp(acc, op, right) {
      OnLeftSpineOfWrapped(acc, op, right, e.left);
    }
  }
}
