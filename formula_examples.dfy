/**
 * What the parser and the evaluator do on particular formulas: the unit-test
 * formula compiles and evaluates to its infix value, and a handful of inputs
 * show the parser's known defects (a lost operand, a self-linked operator,
 * crashes on short bracket groups, state carried over from a failed parse).
 */
module FormulaExamples {
  import opened Wrappers
  import opened ExpressionTokens
  import opened Numbers
  import opened ParseSteps
  import opened FormulaTraces
  import Formulas

  /** The compiled form of the unit-test formula, for numbers a = 54.32, b = 1.3, c = 12, d = 5. */
  function TestCompiled<N>(zero: N, a: N, b: N, c: N, d: N): Formulas.CompiledFormula<N>
  {
    var s := TestState27(zero, a, b, c, d);
    Formulas.CompiledFormula(s.tokens, s.values, s.operands, s.order, TestSource)
  }

  /**
   * A fresh parser compiles the unit-test formula: the arena holds one shared
   * "x" variable, the four numbers and the five operators, and the order
   * recomputes x/1.3, then 54.32 + ., then x * (.), then ./12, then . + 5.
   */
  lemma TestFormulaParses<N>(num: string -> Option<N>, zero: N, a: N, b: N, c: N, d: N)
    requires TestNumbers(num, a, b, c, d)
    ensures ParseSpec(TestSource, num, zero, false, -1) == Ok(TestCompiled(zero, a, b, c, d))
  {
    TestRun(num, zero, a, b, c, d);
  }

  /** In the compiled unit-test formula every operator's operands are computed before it. */
  lemma TestFormulaSettled<N>(zero: N, a: N, b: N, c: N, d: N)
    requires Formulas.ValidImage(TestCompiled(zero, a, b, c, d))
    ensures Formulas.Settled(TestCompiled(zero, a, b, c, d).tokens, TestCompiled(zero, a, b, c, d).order)
  {
    var f := TestCompiled(zero, a, b, c, d);
    assert f.order[..1] == [5] && f.order[..2] == [5, 4] && f.order[..3] == [5, 4, 1] && f.order[..4] == [5, 4, 1, 7];
    forall k | 0 <= k < |f.order|
      ensures Formulas.SettledBefore(f.tokens, f.order, k, f.tokens[f.order[k]].left)
      ensures Formulas.SettledBefore(f.tokens, f.order, k, f.tokens[f.order[k]].right)
    {
    }
  }

  /** Replaying the freshly compiled unit-test formula at x computes x * (a + x / b) / c + d. */
  lemma TestFormulaReplays<N>(ar: Arithmetic<N>, zero: N, a: N, b: N, c: N, d: N, x: N)
    requires Formulas.ValidImage(TestCompiled(zero, a, b, c, d))
    ensures Formulas.Result(ar, TestCompiled(zero, a, b, c, d), x) == Ok(ar.add(ar.div(ar.mul(x, ar.add(a, ar.div(x, b))), c), d))
  {
    var f := TestCompiled(zero, a, b, c, d);
    var v0 := [x, zero, zero, a, zero, zero, b, zero, c, zero, d];
    assert f.values[f.operands["x"] := x] == v0;
    var v1 := v0[5 := ar.div(x, b)];
    var v2 := v1[4 := ar.add(a, ar.div(x, b))];
    var v3 := v2[1 := ar.mul(x, ar.add(a, ar.div(x, b)))];
    var v4 := v3[7 := ar.div(ar.mul(x, ar.add(a, ar.div(x, b))), c)];
    var v5 := v4[9 := ar.add(ar.div(ar.mul(x, ar.add(a, ar.div(x, b))), c), d)];
    assert Formulas.Replay(ar, f.tokens, f.order, v0, 1) == (v1, None);
    assert Formulas.Replay(ar, f.tokens, f.order, v0, 2) == (v2, None);
    assert Formulas.Replay(ar, f.tokens, f.order, v0, 3) == (v3, None);
    assert Formulas.Replay(ar, f.tokens, f.order, v0, 4) == (v4, None);
    assert Formulas.Replay(ar, f.tokens, f.order, v0, 5) == (v5, None);
  }

  /**
   * Evaluating the compiled unit-test formula at x computes
   * x * (a + x / b) / c + d, whatever values earlier evaluations left in its
   * operators: only the numbers must keep their parsed values.
   */
  lemma TestFormulaEvaluates<N>(num: string -> Option<N>, ar: Arithmetic<N>, zero: N, a: N, b: N, c: N, d: N,
                                g: Formulas.CompiledFormula<N>, x: N)
    requires TestNumbers(num, a, b, c, d)
    requires g == TestCompiled(zero, a, b, c, d).(values := g.values)
    requires Formulas.SameConstants(g.tokens, TestCompiled(zero, a, b, c, d).values, g.values)
    ensures Formulas.ValidImage(g)
    ensures Formulas.Result(ar, g, x) == Ok(ar.add(ar.div(ar.mul(x, ar.add(a, ar.div(x, b))), c), d))
  {
    TestFormulaParses(num, zero, a, b, c, d);
    var f := TestCompiled(zero, a, b, c, d);
    TestFormulaSettled(zero, a, b, c, d);
    TestFormulaReplays(ar, zero, a, b, c, d, x);
    Formulas.HistoryIndependent(ar, f, g, x);
  }

  /** The unit-test formula's operations, over the reals. */
  lemma RealsTestValue(a: real, b: real, c: real, d: real, i: real)
    requires b != 0.0 && c != 0.0
    ensures Reals.add(Reals.div(Reals.mul(i, Reals.add(a, Reals.div(i, b))), c), d) == i * (a + i / b) / c + d
  {
  }

  /** Replaying the compiled unit-test formula over the reals computes i * (a + i / b) / c + d. */
  lemma TestFormulaReplaysOnReals(zero: real, a: real, b: real, c: real, d: real, i: real)
    requires Formulas.ValidImage(TestCompiled(zero, a, b, c, d)) && b != 0.0 && c != 0.0
    ensures Formulas.Result(Reals, TestCompiled(zero, a, b, c, d), i) == Ok(i * (a + i / b) / c + d)
  {
    TestFormulaReplays(Reals, zero, a, b, c, d, i);
    RealsTestValue(a, b, c, d, i);
  }

  /**
   * The unit test's claim over the reals: for every input i, the formula
   * parsed by a fresh parser evaluates to i * (a + i / b) / c + d, where a, b,
   * c and d are the values read for "54.32", "1.3", "12" and "5".
   */
  lemma TestFormulaOnReals(num: string -> Option<real>, zero: real, a: real, b: real, c: real, d: real, i: real)
    requires TestNumbers(num, a, b, c, d) && b != 0.0 && c != 0.0
    ensures ParseSpec(TestSource, num, zero, false, -1) == Ok(TestCompiled(zero, a, b, c, d))
    ensures Formulas.ValidImage(TestCompiled(zero, a, b, c, d))
    ensures Formulas.Result(Reals, TestCompiled(zero, a, b, c, d), i) == Ok(i * (a + i / b) / c + d)
  {
    TestFormulaParses(num, zero, a, b, c, d);
    TestFormulaReplaysOnReals(zero, a, b, c, d, i);
  }

  /** The compiled form of the chain, for the values read for "2", "3", "4" and "5". */
  function ChainCompiled<N>(zero: N, n2: N, n3: N, n4: N, n5: N): Formulas.CompiledFormula<N>
  {
    var s := ChainState18(zero, n2, n3, n4, n5);
    Formulas.CompiledFormula(s.tokens, s.values, s.operands, s.order, ChainSource)
  }

  /**
   * In "x + 2 * 3 * 4 - 5" the reduce loop emits both products, then "+" and
   * "-", but does not relink the operators it pops: "+" keeps the first
   * product 2 * 3 as its Right.
   */
  lemma ChainParses<N>(num: string -> Option<N>, zero: N, n2: N, n3: N, n4: N, n5: N)
    requires ChainNumbers(num, n2, n3, n4, n5)
    ensures ParseSpec(ChainSource, num, zero, false, -1) == Ok(ChainCompiled(zero, n2, n3, n4, n5))
  {
    ChainRun(num, zero, n2, n3, n4, n5);
  }

  /** Every operator of the chain is computed after its operands: the order is settled, only wrongly linked. */
  lemma ChainSettled<N>(zero: N, n2: N, n3: N, n4: N, n5: N)
    requires Formulas.ValidImage(ChainCompiled(zero, n2, n3, n4, n5))
    ensures Formulas.Settled(ChainCompiled(zero, n2, n3, n4, n5).tokens, ChainCompiled(zero, n2, n3, n4, n5).order)
  {
    var f := ChainCompiled(zero, n2, n3, n4, n5);
    assert f.order[..1] == [3] && f.order[..2] == [3, 5] && f.order[..3] == [3, 5, 1];
    forall k | 0 <= k < |f.order|
      ensures Formulas.SettledBefore(f.tokens, f.order, k, f.tokens[f.order[k]].left)
      ensures Formulas.SettledBefore(f.tokens, f.order, k, f.tokens[f.order[k]].right)
    {
    }
  }

  /** The chain, replayed at x over the reals: the second product 24 is computed but never read. */
  lemma ChainReplays(zero: real, x: real)
    requires Formulas.ValidImage(ChainCompiled(zero, 2.0, 3.0, 4.0, 5.0))
    ensures Formulas.Result(Reals, ChainCompiled(zero, 2.0, 3.0, 4.0, 5.0), x) == Ok(x + 1.0)
  {
    var f := ChainCompiled(zero, 2.0, 3.0, 4.0, 5.0);
    var v0 := [x, zero, 2.0, zero, 3.0, zero, 4.0, zero, 5.0];
    assert f.values[f.operands["x"] := x] == v0;
    assert Formulas.Replay(Reals, f.tokens, f.order, v0, 1) == (v0[3 := 6.0], None);
    assert Formulas.Replay(Reals, f.tokens, f.order, v0, 2) == (v0[3 := 6.0][5 := 24.0], None);
    assert Formulas.Replay(Reals, f.tokens, f.order, v0, 3) == (v0[3 := 6.0][5 := 24.0][1 := x + 6.0], None);
    assert Formulas.Replay(Reals, f.tokens, f.order, v0, 4) == (v0[3 := 6.0][5 := 24.0][1 := x + 6.0][7 := x + 1.0], None);
  }

  /**
   * The lost operand: over the reals, the parsed chain evaluates to
   * x + 6 - 5 instead of x + 2 * 3 * 4 - 5 = x + 19, whatever values it held
   * before.
   */
  lemma ChainLosesOperand(num: string -> Option<real>, zero: real, g: Formulas.CompiledFormula<real>, x: real)
    requires ChainNumbers(num, 2.0, 3.0, 4.0, 5.0)
    requires g == ChainCompiled(zero, 2.0, 3.0, 4.0, 5.0).(values := g.values)
    requires Formulas.SameConstants(g.tokens, ChainCompiled(zero, 2.0, 3.0, 4.0, 5.0).values, g.values)
    ensures g.order == [3, 5, 1, 7] && g.tokens[1].right == Ptr(3)
    ensures Formulas.ValidImage(g)
    ensures Formulas.Result(Reals, g, x) == Ok(x + 1.0) != Ok(x + 2.0 * 3.0 * 4.0 - 5.0)
  {
    ChainParses(num, zero, 2.0, 3.0, 4.0, 5.0);
    ChainSettled(zero, 2.0, 3.0, 4.0, 5.0);
    ChainReplays(zero, x);
    Formulas.HistoryIndependent(Reals, ChainCompiled(zero, 2.0, 3.0, 4.0, 5.0), g, x);
  }

  /** The compiled form of "((x+1))", for the value read for "1". */
  function NestedCompiled<N>(zero: N, n1: N): Formulas.CompiledFormula<N>
  {
    var s := NestedState8(zero, n1);
    Formulas.CompiledFormula(s.tokens, s.values, s.operands, s.order, NestedSource)
  }

  /**
   * "((x+1))": the inner ")" finds one buffered item, so the stale slot makes
   * "+" its own Left, and the order lists "+" three times.
   */
  lemma NestedParses<N>(num: string -> Option<N>, zero: N, n1: N)
    requires NestedNumbers(num, n1)
    ensures ParseSpec(NestedSource, num, zero, false, -1) == Ok(NestedCompiled(zero, n1))
  {
    NestedRun(num, zero, n1);
  }

  /**
   * Each evaluation of "((x+1))" adds 3 to what the previous one left in
   * "+", ignoring x: over the reals it gives 3 the first time and 6 the next.
   */
  lemma NestedSelfLoop(num: string -> Option<real>, x: real, y: real)
    requires NestedNumbers(num, 1.0)
    ensures ParseSpec(NestedSource, num, 0.0, false, -1) == Ok(NestedCompiled(0.0, 1.0))
    ensures NestedCompiled(0.0, 1.0).tokens[3].left == Ptr(3) && NestedCompiled(0.0, 1.0).order == [3, 3, 3]
    ensures Formulas.ValidImage(NestedCompiled(0.0, 1.0))
    ensures Formulas.Result(Reals, NestedCompiled(0.0, 1.0), x) == Ok(3.0)
    ensures Formulas.Result(Reals, Formulas.AfterEvaluate(Reals, NestedCompiled(0.0, 1.0), x), y) == Ok(6.0)
  {
    NestedParses(num, 0.0, 1.0);
    NestedReplaysTwice(x, y);
  }

  /**
   * Because "+" of "((x+1))" is its own Left, its ToString never bottoms
   * out: no amount of fuel renders it (the source overflows its stack).
   */
  lemma {:induction false} NestedRenderOverflows<N>(zero: N, n1: N, show: N -> string, fuel: nat)
    requires Formulas.ValidImage(NestedCompiled(zero, n1))
    ensures Render(NestedCompiled(zero, n1).tokens, NestedCompiled(zero, n1).values, show, Ptr(3), fuel) == None
    decreases fuel
  {
    if fuel > 0 {
      NestedRenderOverflows(zero, n1, show, fuel - 1);
    }
  }

  /** Two replays of "((x+1))" over the reals, from the freshly compiled values. */
  lemma NestedReplaysTwice(x: real, y: real)
    requires Formulas.ValidImage(NestedCompiled(0.0, 1.0))
    ensures Formulas.Result(Reals, NestedCompiled(0.0, 1.0), x) == Ok(3.0)
    ensures Formulas.Result(Reals, Formulas.AfterEvaluate(Reals, NestedCompiled(0.0, 1.0), x), y) == Ok(6.0)
  {
    var f := NestedCompiled(0.0, 1.0);
    var v0 := [0.0, 0.0, x, 0.0, 1.0];
    assert f.values[f.operands["x"] := x] == v0;
    assert Formulas.Replay(Reals, f.tokens, f.order, v0, 1) == (v0[3 := 1.0], None);
    assert v0[3 := 1.0][3 := 2.0] == v0[3 := 2.0];
    assert Formulas.Replay(Reals, f.tokens, f.order, v0, 2) == (v0[3 := 2.0], None);
    assert v0[3 := 2.0][3 := 3.0] == v0[3 := 3.0];
    assert Formulas.Replay(Reals, f.tokens, f.order, v0, 3) == (v0[3 := 3.0], None);
    var g := Formulas.AfterEvaluate(Reals, f, x);
    assert g.values == v0[3 := 3.0];
    var w0 := [0.0, 0.0, y, 3.0, 1.0];
    assert g.values[g.operands["x"] := y] == w0;
    assert Formulas.Replay(Reals, g.tokens, g.order, w0, 1) == (w0[3 := 4.0], None);
    assert w0[3 := 4.0][3 := 5.0] == w0[3 := 5.0];
    assert Formulas.Replay(Reals, g.tokens, g.order, w0, 2) == (w0[3 := 5.0], None);
    assert w0[3 := 5.0][3 := 6.0] == w0[3 := 6.0];
    assert Formulas.Replay(Reals, g.tokens, g.order, w0, 3) == (w0[3 := 6.0], None);
  }

  /** "(x)": the ")" finds no buffered operator and dereferences null. */
  lemma BracketedOperandFails<N>(num: string -> Option<N>, zero: N)
    requires num("x") == None
    ensures ParseSpec(BareSource, num, zero, false, -1) == Err(NullReference)
  {
    BareRun(num, zero);
  }

  /** "x": a lone operand is not an operator, and the final cast fails. */
  lemma SingleOperandFails<N>(num: string -> Option<N>, zero: N)
    requires num("x") == None
    ensures ParseSpec(SingleSource, num, zero, false, -1) == Err(InvalidCast)
  {
    SingleRun(num, zero);
  }

  /** "x(": an identifier followed by "(" is a function call, which is not supported. */
  lemma CallFails<N>(num: string -> Option<N>, zero: N)
    requires num("x") == None
    ensures Run(CallSource, num, zero, false, -1) == Err(Failure(NotSupported, true, 0))
    ensures ParseSpec(CallSource, num, zero, false, -1) == Err(NotSupported)
  {
    CallRun(num, zero);
  }

  /** "1 2 3 4 5": the fifth operand finds the four-slot buffer full. */
  lemma CrowdedBufferFails<N>(num: string -> Option<N>, zero: N, n1: N, n2: N, n3: N, n4: N, n5: N)
    requires DigitNumbers(num, n1, n2, n3, n4, n5)
    ensures ParseSpec(CrowdedSource, num, zero, false, -1) == Err(IndexOutOfRange)
  {
    CrowdedRun(num, zero, n1, n2, n3, n4, n5);
  }

  /**
   * The operand flag and its start index outlive a failed parse: a fresh
   * parser rejects " 5", but after "x(" has failed inside its operand the
   * same parser reads the leading space as the end of an empty operand and
   * accepts " 5", with an empty order.
   */
  lemma FailedParseLeaksIntoNext<N>(num: string -> Option<N>, zero: N, n5: N)
    requires num("x") == None && num("5") == Some(n5) && num("") == None
    ensures Run(CallSource, num, zero, false, -1) == Err(Failure(NotSupported, true, 0))
    ensures ParseSpec(SpacedSource, num, zero, false, -1) == Err(InvalidCast)
    ensures ParseSpec(SpacedSource, num, zero, true, 0).Ok?
    ensures ParseSpec(SpacedSource, num, zero, true, 0).value.order == []
  {
    CallRun(num, zero);
    FreshRun(num, zero, n5);
    CarriedRun(num, zero, n5);
  }
}
