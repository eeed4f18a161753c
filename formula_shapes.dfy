/**
 * What the parser makes of the simplest formula shapes, for any number type
 * and any arithmetic: a single operator applies to the variable and the
 * number, a higher-priority operator binds tighter whichever side it is on,
 * operators of one priority group to the left, and a bracket that is never
 * opened or never closed makes the parse fail.
 */
module FormulaShapes {
  import opened Wrappers
  import opened Numbers
  import opened ParseSteps
  import opened ShapeTraces
  import opened ExpressionTokens
  import Formulas

  /** The formula a final parser state compiles to. */
  function Snapshot<N>(s: ParserState<N>, src: string): Formulas.CompiledFormula<N>
  {
    Formulas.CompiledFormula(s.tokens, s.values, s.operands, s.order, src)
  }

  /** The single operator of the compiled "x+2" adds the number to the input. */
  lemma SumReplays<N>(ar: Arithmetic<N>, zero: N, n2: N, x: N)
    requires Formulas.ValidImage(Snapshot(SumState4(zero, n2), SumSource))
    ensures Formulas.Result(ar, Snapshot(SumState4(zero, n2), SumSource), x) == Ok(ar.add(x, n2))
  {
    var f := Snapshot(SumState4(zero, n2), SumSource);
    var v0 := [x, zero, n2];
    assert f.values[f.operands["x"] := x] == v0;
    assert Formulas.Replay(ar, f.tokens, f.order, v0, 1) == (v0[1 := ar.add(x, n2)], None);
  }

  /** A fresh parser reads "x+2" as a formula that evaluates to x + n2, where n2 is the value read for "2". */
  lemma SumComputes<N>(num: string -> Option<N>, ar: Arithmetic<N>, zero: N, n2: N, x: N)
    requires OperandNumbers(num, "2", n2)
    ensures ParseSpec(SumSource, num, zero, false, -1).Ok?
    ensures Formulas.Result(ar, ParseSpec(SumSource, num, zero, false, -1).value, x) == Ok(ar.add(x, n2))
  {
    SumRun(num, zero, n2);
    SumReplays(ar, zero, n2, x);
  }

  /** The single operator of the compiled "x-2" subtracts the number from the input. */
  lemma DifferenceReplays<N>(ar: Arithmetic<N>, zero: N, n2: N, x: N)
    requires Formulas.ValidImage(Snapshot(DifferenceState4(zero, n2), DifferenceSource))
    ensures Formulas.Result(ar, Snapshot(DifferenceState4(zero, n2), DifferenceSource), x) == Ok(ar.sub(x, n2))
  {
    var f := Snapshot(DifferenceState4(zero, n2), DifferenceSource);
    var v0 := [x, zero, n2];
    assert f.values[f.operands["x"] := x] == v0;
    assert Formulas.Replay(ar, f.tokens, f.order, v0, 1) == (v0[1 := ar.sub(x, n2)], None);
  }

  /** A fresh parser reads "x-2" as a formula that evaluates to x - n2. */
  lemma DifferenceComputes<N>(num: string -> Option<N>, ar: Arithmetic<N>, zero: N, n2: N, x: N)
    requires OperandNumbers(num, "2", n2)
    ensures ParseSpec(DifferenceSource, num, zero, false, -1).Ok?
    ensures Formulas.Result(ar, ParseSpec(DifferenceSource, num, zero, false, -1).value, x) == Ok(ar.sub(x, n2))
  {
    DifferenceRun(num, zero, n2);
    DifferenceReplays(ar, zero, n2, x);
  }

  /** The single operator of the compiled "x*2" multiplies the input by the number. */
  lemma ProductReplays<N>(ar: Arithmetic<N>, zero: N, n2: N, x: N)
    requires Formulas.ValidImage(Snapshot(ProductState4(zero, n2), ProductSource))
    ensures Formulas.Result(ar, Snapshot(ProductState4(zero, n2), ProductSource), x) == Ok(ar.mul(x, n2))
  {
    var f := Snapshot(ProductState4(zero, n2), ProductSource);
    var v0 := [x, zero, n2];
    assert f.values[f.operands["x"] := x] == v0;
    assert Formulas.Replay(ar, f.tokens, f.order, v0, 1) == (v0[1 := ar.mul(x, n2)], None);
  }

  /** A fresh parser reads "x*2" as a formula that evaluates to x * n2. */
  lemma ProductComputes<N>(num: string -> Option<N>, ar: Arithmetic<N>, zero: N, n2: N, x: N)
    requires OperandNumbers(num, "2", n2)
    ensures ParseSpec(ProductSource, num, zero, false, -1).Ok?
    ensures Formulas.Result(ar, ParseSpec(ProductSource, num, zero, false, -1).value, x) == Ok(ar.mul(x, n2))
  {
    ProductRun(num, zero, n2);
    ProductReplays(ar, zero, n2, x);
  }

  /** The single operator of the compiled "x/2" divides the input by the number. */
  lemma QuotientReplays<N>(ar: Arithmetic<N>, zero: N, n2: N, x: N)
    requires Formulas.ValidImage(Snapshot(QuotientState4(zero, n2), QuotientSource))
    ensures Formulas.Result(ar, Snapshot(QuotientState4(zero, n2), QuotientSource), x) == Ok(ar.div(x, n2))
  {
    var f := Snapshot(QuotientState4(zero, n2), QuotientSource);
    var v0 := [x, zero, n2];
    assert f.values[f.operands["x"] := x] == v0;
    assert Formulas.Replay(ar, f.tokens, f.order, v0, 1) == (v0[1 := ar.div(x, n2)], None);
  }

  /** A fresh parser reads "x/2" as a formula that evaluates to x / n2. */
  lemma QuotientComputes<N>(num: string -> Option<N>, ar: Arithmetic<N>, zero: N, n2: N, x: N)
    requires OperandNumbers(num, "2", n2)
    ensures ParseSpec(QuotientSource, num, zero, false, -1).Ok?
    ensures Formulas.Result(ar, ParseSpec(QuotientSource, num, zero, false, -1).value, x) == Ok(ar.div(x, n2))
  {
    QuotientRun(num, zero, n2);
    QuotientReplays(ar, zero, n2, x);
  }

  /** The compiled "x+2*3" computes the product first and the sum takes it as its right operand. */
  lemma SumOfProductReplays<N>(ar: Arithmetic<N>, zero: N, n2: N, n3: N, x: N)
    requires Formulas.ValidImage(Snapshot(SumOfProductState6(zero, n2, n3), SumOfProductSource))
    ensures Formulas.Result(ar, Snapshot(SumOfProductState6(zero, n2, n3), SumOfProductSource), x) == Ok(ar.add(x, ar.mul(n2, n3)))
  {
    var f := Snapshot(SumOfProductState6(zero, n2, n3), SumOfProductSource);
    var v0 := [x, zero, n2, zero, n3];
    assert f.values[f.operands["x"] := x] == v0;
    assert Formulas.Replay(ar, f.tokens, f.order, v0, 1) == (v0[3 := ar.mul(n2, n3)], None);
    assert Formulas.Replay(ar, f.tokens, f.order, v0, 2) == (v0[3 := ar.mul(n2, n3)][1 := ar.add(x, ar.mul(n2, n3))], None);
  }

  /** A fresh parser reads "x+2*3" as x + n2 * n3: the later, higher-priority product binds tighter. */
  lemma SumOfProductComputes<N>(num: string -> Option<N>, ar: Arithmetic<N>, zero: N, n2: N, n3: N, x: N)
    requires TwoOperandNumbers(num, n2, n3)
    ensures ParseSpec(SumOfProductSource, num, zero, false, -1).Ok?
    ensures Formulas.Result(ar, ParseSpec(SumOfProductSource, num, zero, false, -1).value, x) == Ok(ar.add(x, ar.mul(n2, n3)))
  {
    SumOfProductRun(num, zero, n2, n3);
    SumOfProductReplays(ar, zero, n2, n3, x);
  }

  /** The compiled "x*2+3" computes the product first and the sum takes it as its left operand. */
  lemma ProductThenSumReplays<N>(ar: Arithmetic<N>, zero: N, n2: N, n3: N, x: N)
    requires Formulas.ValidImage(Snapshot(ProductThenSumState6(zero, n2, n3), ProductThenSumSource))
    ensures Formulas.Result(ar, Snapshot(ProductThenSumState6(zero, n2, n3), ProductThenSumSource), x) == Ok(ar.add(ar.mul(x, n2), n3))
  {
    var f := Snapshot(ProductThenSumState6(zero, n2, n3), ProductThenSumSource);
    var v0 := [x, zero, n2, zero, n3];
    assert f.values[f.operands["x"] := x] == v0;
    assert Formulas.Replay(ar, f.tokens, f.order, v0, 1) == (v0[1 := ar.mul(x, n2)], None);
    assert Formulas.Replay(ar, f.tokens, f.order, v0, 2) == (v0[1 := ar.mul(x, n2)][3 := ar.add(ar.mul(x, n2), n3)], None);
  }

  /** A fresh parser reads "x*2+3" as x * n2 + n3: the earlier, higher-priority product binds tighter. */
  lemma ProductThenSumComputes<N>(num: string -> Option<N>, ar: Arithmetic<N>, zero: N, n2: N, n3: N, x: N)
    requires TwoOperandNumbers(num, n2, n3)
    ensures ParseSpec(ProductThenSumSource, num, zero, false, -1).Ok?
    ensures Formulas.Result(ar, ParseSpec(ProductThenSumSource, num, zero, false, -1).value, x) == Ok(ar.add(ar.mul(x, n2), n3))
  {
    ProductThenSumRun(num, zero, n2, n3);
    ProductThenSumReplays(ar, zero, n2, n3, x);
  }

  /** The compiled "x-2-3" computes the first difference, then subtracts the second number from it. */
  lemma DifferencesReplays<N>(ar: Arithmetic<N>, zero: N, n2: N, n3: N, x: N)
    requires Formulas.ValidImage(Snapshot(DifferencesState6(zero, n2, n3), DifferencesSource))
    ensures Formulas.Result(ar, Snapshot(DifferencesState6(zero, n2, n3), DifferencesSource), x) == Ok(ar.sub(ar.sub(x, n2), n3))
  {
    var f := Snapshot(DifferencesState6(zero, n2, n3), DifferencesSource);
    var v0 := [x, zero, n2, zero, n3];
    assert f.values[f.operands["x"] := x] == v0;
    assert Formulas.Replay(ar, f.tokens, f.order, v0, 1) == (v0[1 := ar.sub(x, n2)], None);
    assert Formulas.Replay(ar, f.tokens, f.order, v0, 2) == (v0[1 := ar.sub(x, n2)][3 := ar.sub(ar.sub(x, n2), n3)], None);
  }

  /** A fresh parser reads "x-2-3" as (x - n2) - n3: operators of one priority group to the left. */
  lemma DifferencesComputes<N>(num: string -> Option<N>, ar: Arithmetic<N>, zero: N, n2: N, n3: N, x: N)
    requires TwoOperandNumbers(num, n2, n3)
    ensures ParseSpec(DifferencesSource, num, zero, false, -1).Ok?
    ensures Formulas.Result(ar, ParseSpec(DifferencesSource, num, zero, false, -1).value, x) == Ok(ar.sub(ar.sub(x, n2), n3))
  {
    DifferencesRun(num, zero, n2, n3);
    DifferencesReplays(ar, zero, n2, n3, x);
  }

  /** The compiled "x/2/3" computes the first quotient, then divides it by the second number. */
  lemma QuotientsReplays<N>(ar: Arithmetic<N>, zero: N, n2: N, n3: N, x: N)
    requires Formulas.ValidImage(Snapshot(QuotientsState6(zero, n2, n3), QuotientsSource))
    ensures Formulas.Result(ar, Snapshot(QuotientsState6(zero, n2, n3), QuotientsSource), x) == Ok(ar.div(ar.div(x, n2), n3))
  {
    var f := Snapshot(QuotientsState6(zero, n2, n3), QuotientsSource);
    var v0 := [x, zero, n2, zero, n3];
    assert f.values[f.operands["x"] := x] == v0;
    assert Formulas.Replay(ar, f.tokens, f.order, v0, 1) == (v0[1 := ar.div(x, n2)], None);
    assert Formulas.Replay(ar, f.tokens, f.order, v0, 2) == (v0[1 := ar.div(x, n2)][3 := ar.div(ar.div(x, n2), n3)], None);
  }

  /** A fresh parser reads "x/2/3" as (x / n2) / n3: operators of one priority group to the left. */
  lemma QuotientsComputes<N>(num: string -> Option<N>, ar: Arithmetic<N>, zero: N, n2: N, n3: N, x: N)
    requires TwoOperandNumbers(num, n2, n3)
    ensures ParseSpec(QuotientsSource, num, zero, false, -1).Ok?
    ensures Formulas.Result(ar, ParseSpec(QuotientsSource, num, zero, false, -1).value, x) == Ok(ar.div(ar.div(x, n2), n3))
  {
    QuotientsRun(num, zero, n2, n3);
    QuotientsReplays(ar, zero, n2, n3, x);
  }

  /**
   * The `+` of the compiled "x+2" renders as `[x]Plus[2]`: the variable by
   * its name and the number by its value.
   */
  lemma SumRenders<N>(zero: N, n2: N, show: N -> string)
    requires Formulas.ValidImage(Snapshot(SumState4(zero, n2), SumSource))
    ensures var f := Snapshot(SumState4(zero, n2), SumSource);
            Render(f.tokens, f.values, show, Ptr(1), 1) == Some("[x]Plus[" + show(n2) + "]")
  {
    var f := Snapshot(SumState4(zero, n2), SumSource);
    assert Render(f.tokens, f.values, show, Ptr(0), 0) == Some("x");
    assert Render(f.tokens, f.values, show, Ptr(2), 0) == Some(show(n2));
    assert f.tokens[1] == ExpressionToken(Plus, 1, Ptr(0), Ptr(2));
    assert Render(f.tokens, f.values, show, Ptr(1), 1)
        == Some("[" + "x" + "]" + OperationName(Plus) + "[" + show(n2) + "]");
    assert "[" + "x" + "]" + "Plus" + "[" + show(n2) + "]" == "[x]Plus[" + show(n2) + "]";
  }

  /** "x+1)": the `)` finds no bracket marker on the stack, so the parse fails with EmptyStack. */
  lemma UnopenedFails<N>(num: string -> Option<N>, zero: N, n1: N)
    requires OperandNumbers(num, "1", n1)
    ensures ParseSpec(UnopenedSource, num, zero, false, -1) == Err(EmptyStack)
  {
    UnopenedRun(num, zero, n1);
  }

  /** "(x+1": the final drain finds the bracket marker of the `(`, and the cast fails. */
  lemma UnclosedFails<N>(num: string -> Option<N>, zero: N, n1: N)
    requires OperandNumbers(num, "1", n1)
    ensures ParseSpec(UnclosedSource, num, zero, false, -1) == Err(InvalidCast)
  {
    UnclosedRun(num, zero, n1);
  }
}
