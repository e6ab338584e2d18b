/**
 * The tree-walking evaluator of zeta.c (`visit`, `visit_BinOp`, `visit_Num`).
 * Numbers are `double` in the source; here they are exact reals.
 */
module Interpreter {
  import opened Tokens
  import opened Errors
  import opened Syntax

  /** The operator switch of `visit_BinOp`, applied to the two child values. */
  function Apply(op: TokenKind, a: real, b: real): Result<real> {
    match op
    case Plus => Ok(a + b)
    case Minus => Ok(a - b)
    case Mul => Ok(a * b)
    case Div => if b == 0.0 then Err(DivisionByZero) else Ok(a / b)
    case _ => Err(UnknownOperator)
  }

  /**
   * `visit`: a number evaluates to its value; an operator node evaluates its left
   * child, then its right child, and only then looks at its operator.
   * On a well-formed tree the only failure left is a division by zero.
   */
  function Eval(e: Ast): (r: Result<real>)
    ensures WellFormed(e) && r.Err? ==> r.error == DivisionByZero
  {
    match e
    case Num(v) => Ok(v as real)
    case BinOp(l, op, r) =>
      match Eval(l)
      case Err(err) => Err(err)
      case Ok(a) =>
        match Eval(r)
        case Err(err) => Err(err)
        case Ok(b) => Apply(op, a, b)
  }

  /** Some DIV node of `e` has a right child that evaluates to exactly zero. */
  predicate HasZeroDivisor(e: Ast) {
    match e
    case Num(_) => false
    case BinOp(l, op, r) =>
      HasZeroDivisor(l) || HasZeroDivisor(r) || (op == Div && Eval(r) == Ok(0.0))
  }

  /** A well-formed tree fails to evaluate exactly when it divides by zero somewhere. */
  lemma {:induction false} EvalFailsIffZeroDivisor(e: Ast)
    requires WellFormed(e)
    ensures Eval(e).Err? <==> HasZeroDivisor(e)
  {
    match e
    case Num(_) =>
    case BinOp(l, op, r) =>
      EvalFailsIffZeroDivisor(l);
      EvalFailsIffZeroDivisor(r);
  }

  /**
   * Both children are visited before the operator is examined: a failing child
   * decides the outcome, the left one first, whatever the operator token is.
   */
  lemma ChildrenBeforeOperator(l: Ast, op: TokenKind, r: Ast)
    ensures Eval(l).Err? ==> Eval(BinOp(l, op, r)) == Eval(l)
    ensures Eval(l).Ok? && Eval(r).Err? ==> Eval(BinOp(l, op, r)) == Eval(r)
  {
  }

  /** A node whose token is not an operator fails only once both children have evaluated. */
  lemma UnknownOperatorAfterChildren(l: Ast, op: TokenKind, r: Ast)
    requires !IsOperator(op) && Eval(l).Ok? && Eval(r).Ok?
    ensures Eval(BinOp(l, op, r)) == Err(UnknownOperator)
  {
  }
}
