/**
 * The numeric domain of formula values.  The source computes in IEEE-754
 * doubles; the model is generic in the number type and takes the four
 * operations and the default value as parameters, so a statement proved here
 * holds for doubles operation by operation, and for reals as a special case.
 */
module Numbers {
  import opened ExpressionTokens

  /** A number type with the default value of an unset Value field and the four operations. */
  datatype Arithmetic<!N> = Arithmetic(
    zero: N,
    add: (N, N) -> N,
    sub: (N, N) -> N,
    mul: (N, N) -> N,
    div: (N, N) -> N)

  /** What `Evaluate` computes for one operator node. */
  function Apply<N>(ar: Arithmetic<N>, op: Operation, a: N, b: N): N
  {
    match op
    case Plus => ar.add(a, b)
    case Minus => ar.sub(a, b)
    case Mul => ar.mul(a, b)
    case Div => ar.div(a, b)
  }

  /**
   * Real arithmetic.  Division by zero, which gives an infinity or NaN on
   * doubles, has no real counterpart; here it yields 0.
   */
  const Reals: Arithmetic<real> := Arithmetic(
    0.0,
    (a: real, b: real) => a + b,
    (a: real, b: real) => a - b,
    (a: real, b: real) => a * b,
    (a: real, b: real) => if b == 0.0 then 0.0 else a / b)
}
