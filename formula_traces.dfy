/**
 * Step-by-step traces of the parser on fixed inputs: the state after every
 * character, and the lemmas that each step and the whole scan produce them.
 * The interesting statements about these inputs are in FormulaExamples.
 */
module FormulaTraces {
  import opened Wrappers
  import opened ExpressionTokens
  import opened ParseSteps

  /** The formula of the parser's unit test. */
  const TestSource: string := "x * (54.32 + x/1.3)/12 + 5"
  /** A chain in which a run of higher-priority operators follows a lower-priority one. */
  const ChainSource: string := "x + 2 * 3 * 4 - 5"
  /** A doubly bracketed sum. */
  const NestedSource: string := "((x+1))"
  /** A bracketed single operand. */
  const BareSource: string := "(x)"
  /** A single operand. */
  const SingleSource: string := "x"
  /** An identifier followed by an opening bracket, as in a function call. */
  const CallSource: string := "x("
  /** Five operands with no operator between them. */
  const CrowdedSource: string := "1 2 3 4 5"
  /** A space and one number. */
  const SpacedSource: string := " 5"

  /** Number recognition on the operand texts of the unit-test formula. */
  ghost predicate TestNumbers<N>(num: string -> Option<N>, a: N, b: N, c: N, d: N)
  {
    num("x") == None && num("54.32") == Some(a) && num("1.3") == Some(b) && num("12") == Some(c) && num("5") == Some(d)
  }

  /** Number recognition on the operand texts of the chain. */
  ghost predicate ChainNumbers<N>(num: string -> Option<N>, n2: N, n3: N, n4: N, n5: N)
  {
    num("x") == None && num("2") == Some(n2) && num("3") == Some(n3) && num("4") == Some(n4) && num("5") == Some(n5)
  }

  /** Number recognition on the digits 1 to 5. */
  ghost predicate DigitNumbers<N>(num: string -> Option<N>, n1: N, n2: N, n3: N, n4: N, n5: N)
  {
    num("1") == Some(n1) && num("2") == Some(n2) && num("3") == Some(n3) && num("4") == Some(n4) && num("5") == Some(n5)
  }

  /** Number recognition on the operand texts of the nested sum. */
  ghost predicate NestedNumbers<N>(num: string -> Option<N>, n1: N)
  {
    num("x") == None && num("1") == Some(n1)
  }

  function TestState1<N>(zero: N, a: N, b: N, c: N, d: N): ParserState<N> {
    ParserState([], [], map[], [], [Null, Null, Null, Null], 0, true, 0, Null, Null, [])
  }

  function TestState2<N>(zero: N, a: N, b: N, c: N, d: N): ParserState<N> {
    ParserState([VariableToken("x")], [zero], map["x" := 0], [], [Ptr(0), Null, Null, Null], 1, false, 0, Null, Null, [])
  }

  function TestState3<N>(zero: N, a: N, b: N, c: N, d: N): ParserState<N> {
    ParserState([VariableToken("x"), ExpressionToken(Mul, 2, Null, Null)], [zero, zero], map["x" := 0], [], [Ptr(0), Ptr(1), Null, Null], 2, false, 0, Null, Ptr(1), [])
  }

  function TestState4<N>(zero: N, a: N, b: N, c: N, d: N): ParserState<N> {
    ParserState([VariableToken("x"), ExpressionToken(Mul, 2, Null, Null)], [zero, zero], map["x" := 0], [], [Ptr(0), Ptr(1), Null, Null], 2, false, 0, Null, Ptr(1), [])
  }

  function TestState5<N>(zero: N, a: N, b: N, c: N, d: N): ParserState<N> {
    ParserState([VariableToken("x"), ExpressionToken(Mul, 2, Ptr(0), Null), OpenBracketToken], [zero, zero, zero], map["x" := 0], [1, 2], [Ptr(0), Ptr(1), Null, Null], 0, false, 0, Null, Ptr(1), [])
  }

  function TestState6<N>(zero: N, a: N, b: N, c: N, d: N): ParserState<N> {
    ParserState([VariableToken("x"), ExpressionToken(Mul, 2, Ptr(0), Null), OpenBracketToken], [zero, zero, zero], map["x" := 0], [1, 2], [Ptr(0), Ptr(1), Null, Null], 0, true, 5, Null, Ptr(1), [])
  }

  function TestState7<N>(zero: N, a: N, b: N, c: N, d: N): ParserState<N> {
    ParserState([VariableToken("x"), ExpressionToken(Mul, 2, Ptr(0), Null), OpenBracketToken], [zero, zero, zero], map["x" := 0], [1, 2], [Ptr(0), Ptr(1), Null, Null], 0, true, 5, Null, Ptr(1), [])
  }

  function TestState8<N>(zero: N, a: N, b: N, c: N, d: N): ParserState<N> {
    ParserState([VariableToken("x"), ExpressionToken(Mul, 2, Ptr(0), Null), OpenBracketToken], [zero, zero, zero], map["x" := 0], [1, 2], [Ptr(0), Ptr(1), Null, Null], 0, true, 5, Null, Ptr(1), [])
  }

  function TestState9<N>(zero: N, a: N, b: N, c: N, d: N): ParserState<N> {
    ParserState([VariableToken("x"), ExpressionToken(Mul, 2, Ptr(0), Null), OpenBracketToken], [zero, zero, zero], map["x" := 0], [1, 2], [Ptr(0), Ptr(1), Null, Null], 0, true, 5, Null, Ptr(1), [])
  }

  function TestState10<N>(zero: N, a: N, b: N, c: N, d: N): ParserState<N> {
    ParserState([VariableToken("x"), ExpressionToken(Mul, 2, Ptr(0), Null), OpenBracketToken], [zero, zero, zero], map["x" := 0], [1, 2], [Ptr(0), Ptr(1), Null, Null], 0, true, 5, Null, Ptr(1), [])
  }

  function TestState11<N>(zero: N, a: N, b: N, c: N, d: N): ParserState<N> {
    ParserState([VariableToken("x"), ExpressionToken(Mul, 2, Ptr(0), Null), OpenBracketToken, NumberToken], [zero, zero, zero, a], map["x" := 0], [1, 2], [Ptr(3), Ptr(1), Null, Null], 1, false, 5, Null, Ptr(1), [])
  }

  function TestState12<N>(zero: N, a: N, b: N, c: N, d: N): ParserState<N> {
    ParserState([VariableToken("x"), ExpressionToken(Mul, 2, Ptr(0), Null), OpenBracketToken, NumberToken, ExpressionToken(Plus, 1, Null, Null)], [zero, zero, zero, a, zero], map["x" := 0], [1, 2], [Ptr(3), Ptr(4), Null, Null], 2, false, 5, Null, Ptr(4), [])
  }

  function TestState13<N>(zero: N, a: N, b: N, c: N, d: N): ParserState<N> {
    ParserState([VariableToken("x"), ExpressionToken(Mul, 2, Ptr(0), Null), OpenBracketToken, NumberToken, ExpressionToken(Plus, 1, Null, Null)], [zero, zero, zero, a, zero], map["x" := 0], [1, 2], [Ptr(3), Ptr(4), Null, Null], 2, false, 5, Null, Ptr(4), [])
  }

  function TestState14<N>(zero: N, a: N, b: N, c: N, d: N): ParserState<N> {
    ParserState([VariableToken("x"), ExpressionToken(Mul, 2, Ptr(0), Null), OpenBracketToken, NumberToken, ExpressionToken(Plus, 1, Null, Null)], [zero, zero, zero, a, zero], map["x" := 0], [1, 2], [Ptr(3), Ptr(4), Null, Null], 2, true, 13, Null, Ptr(4), [])
  }

  function TestState15<N>(zero: N, a: N, b: N, c: N, d: N): ParserState<N> {
    ParserState([VariableToken("x"), ExpressionToken(Mul, 2, Ptr(0), Null), OpenBracketToken, NumberToken, ExpressionToken(Plus, 1, Ptr(3), Ptr(5)), ExpressionToken(Div, 2, Null, Null)], [zero, zero, zero, a, zero, zero], map["x" := 0], [1, 2, 4], [Ptr(0), Ptr(5), Ptr(0), Ptr(5)], 2, false, 13, Ptr(4), Ptr(5), [])
  }

  function TestState16<N>(zero: N, a: N, b: N, c: N, d: N): ParserState<N> {
    ParserState([VariableToken("x"), ExpressionToken(Mul, 2, Ptr(0), Null), OpenBracketToken, NumberToken, ExpressionToken(Plus, 1, Ptr(3), Ptr(5)), ExpressionToken(Div, 2, Null, Null)], [zero, zero, zero, a, zero, zero], map["x" := 0], [1, 2, 4], [Ptr(0), Ptr(5), Ptr(0), Ptr(5)], 2, true, 15, Ptr(4), Ptr(5), [])
  }

  function TestState17<N>(zero: N, a: N, b: N, c: N, d: N): ParserState<N> {
    ParserState([VariableToken("x"), ExpressionToken(Mul, 2, Ptr(0), Null), OpenBracketToken, NumberToken, ExpressionToken(Plus, 1, Ptr(3), Ptr(5)), ExpressionToken(Div, 2, Null, Null)], [zero, zero, zero, a, zero, zero], map["x" := 0], [1, 2, 4], [Ptr(0), Ptr(5), Ptr(0), Ptr(5)], 2, true, 15, Ptr(4), Ptr(5), [])
  }

  function TestState18<N>(zero: N, a: N, b: N, c: N, d: N): ParserState<N> {
    ParserState([VariableToken("x"), ExpressionToken(Mul, 2, Ptr(0), Null), OpenBracketToken, NumberToken, ExpressionToken(Plus, 1, Ptr(3), Ptr(5)), ExpressionToken(Div, 2, Null, Null)], [zero, zero, zero, a, zero, zero], map["x" := 0], [1, 2, 4], [Ptr(0), Ptr(5), Ptr(0), Ptr(5)], 2, true, 15, Ptr(4), Ptr(5), [])
  }

  function TestState19<N>(zero: N, a: N, b: N, c: N, d: N): ParserState<N> {
    ParserState([VariableToken("x"), ExpressionToken(Mul, 2, Ptr(0), Ptr(4)), OpenBracketToken, NumberToken, ExpressionToken(Plus, 3, Ptr(3), Ptr(5)), ExpressionToken(Div, 2, Ptr(0), Ptr(6)), NumberToken], [zero, zero, zero, a, zero, zero, b], map["x" := 0], [], [Ptr(0), Ptr(1), Ptr(4), Ptr(5)], 3, false, 15, Ptr(1), Ptr(4), [5, 4])
  }

  function TestState20<N>(zero: N, a: N, b: N, c: N, d: N): ParserState<N> {
    ParserState([VariableToken("x"), ExpressionToken(Mul, 2, Ptr(0), Ptr(4)), OpenBracketToken, NumberToken, ExpressionToken(Plus, 3, Ptr(3), Ptr(5)), ExpressionToken(Div, 2, Ptr(0), Ptr(6)), NumberToken, ExpressionToken(Div, 2, Null, Null)], [zero, zero, zero, a, zero, zero, b, zero], map["x" := 0], [], [Ptr(1), Ptr(7), Ptr(4), Ptr(7)], 2, false, 15, Ptr(1), Ptr(7), [5, 4, 1])
  }

  function TestState21<N>(zero: N, a: N, b: N, c: N, d: N): ParserState<N> {
    ParserState([VariableToken("x"), ExpressionToken(Mul, 2, Ptr(0), Ptr(4)), OpenBracketToken, NumberToken, ExpressionToken(Plus, 3, Ptr(3), Ptr(5)), ExpressionToken(Div, 2, Ptr(0), Ptr(6)), NumberToken, ExpressionToken(Div, 2, Null, Null)], [zero, zero, zero, a, zero, zero, b, zero], map["x" := 0], [], [Ptr(1), Ptr(7), Ptr(4), Ptr(7)], 2, true, 20, Ptr(1), Ptr(7), [5, 4, 1])
  }

  function TestState22<N>(zero: N, a: N, b: N, c: N, d: N): ParserState<N> {
    ParserState([VariableToken("x"), ExpressionToken(Mul, 2, Ptr(0), Ptr(4)), OpenBracketToken, NumberToken, ExpressionToken(Plus, 3, Ptr(3), Ptr(5)), ExpressionToken(Div, 2, Ptr(0), Ptr(6)), NumberToken, ExpressionToken(Div, 2, Null, Null)], [zero, zero, zero, a, zero, zero, b, zero], map["x" := 0], [], [Ptr(1), Ptr(7), Ptr(4), Ptr(7)], 2, true, 20, Ptr(1), Ptr(7), [5, 4, 1])
  }

  function TestState23<N>(zero: N, a: N, b: N, c: N, d: N): ParserState<N> {
    ParserState([VariableToken("x"), ExpressionToken(Mul, 2, Ptr(0), Ptr(4)), OpenBracketToken, NumberToken, ExpressionToken(Plus, 3, Ptr(3), Ptr(5)), ExpressionToken(Div, 2, Ptr(0), Ptr(6)), NumberToken, ExpressionToken(Div, 2, Null, Null), NumberToken], [zero, zero, zero, a, zero, zero, b, zero, c], map["x" := 0], [], [Ptr(1), Ptr(7), Ptr(8), Ptr(7)], 3, false, 20, Ptr(1), Ptr(7), [5, 4, 1])
  }

  function TestState24<N>(zero: N, a: N, b: N, c: N, d: N): ParserState<N> {
    ParserState([VariableToken("x"), ExpressionToken(Mul, 2, Ptr(0), Ptr(4)), OpenBracketToken, NumberToken, ExpressionToken(Plus, 3, Ptr(3), Ptr(5)), ExpressionToken(Div, 2, Ptr(0), Ptr(6)), NumberToken, ExpressionToken(Div, 2, Ptr(1), Ptr(8)), NumberToken, ExpressionToken(Plus, 1, Null, Null)], [zero, zero, zero, a, zero, zero, b, zero, c, zero], map["x" := 0], [], [Ptr(7), Ptr(9), Ptr(8), Ptr(9)], 2, false, 20, Ptr(7), Ptr(9), [5, 4, 1, 7])
  }

  function TestState25<N>(zero: N, a: N, b: N, c: N, d: N): ParserState<N> {
    ParserState([VariableToken("x"), ExpressionToken(Mul, 2, Ptr(0), Ptr(4)), OpenBracketToken, NumberToken, ExpressionToken(Plus, 3, Ptr(3), Ptr(5)), ExpressionToken(Div, 2, Ptr(0), Ptr(6)), NumberToken, ExpressionToken(Div, 2, Ptr(1), Ptr(8)), NumberToken, ExpressionToken(Plus, 1, Null, Null)], [zero, zero, zero, a, zero, zero, b, zero, c, zero], map["x" := 0], [], [Ptr(7), Ptr(9), Ptr(8), Ptr(9)], 2, false, 20, Ptr(7), Ptr(9), [5, 4, 1, 7])
  }

  function TestState26<N>(zero: N, a: N, b: N, c: N, d: N): ParserState<N> {
    ParserState([VariableToken("x"), ExpressionToken(Mul, 2, Ptr(0), Ptr(4)), OpenBracketToken, NumberToken, ExpressionToken(Plus, 3, Ptr(3), Ptr(5)), ExpressionToken(Div, 2, Ptr(0), Ptr(6)), NumberToken, ExpressionToken(Div, 2, Ptr(1), Ptr(8)), NumberToken, ExpressionToken(Plus, 1, Null, Null)], [zero, zero, zero, a, zero, zero, b, zero, c, zero], map["x" := 0], [], [Ptr(7), Ptr(9), Ptr(8), Ptr(9)], 2, true, 25, Ptr(7), Ptr(9), [5, 4, 1, 7])
  }

  function TestState27<N>(zero: N, a: N, b: N, c: N, d: N): ParserState<N> {
    ParserState([VariableToken("x"), ExpressionToken(Mul, 2, Ptr(0), Ptr(4)), OpenBracketToken, NumberToken, ExpressionToken(Plus, 3, Ptr(3), Ptr(5)), ExpressionToken(Div, 2, Ptr(0), Ptr(6)), NumberToken, ExpressionToken(Div, 2, Ptr(1), Ptr(8)), NumberToken, ExpressionToken(Plus, 1, Ptr(7), Ptr(10)), NumberToken], [zero, zero, zero, a, zero, zero, b, zero, c, zero, d], map["x" := 0], [], [Ptr(7), Ptr(9), Ptr(10), Ptr(9)], 3, false, 25, Ptr(7), Ptr(9), [5, 4, 1, 7, 9])
  }

  lemma TestStep1<N>(num: string -> Option<N>, zero: N, a: N, b: N, c: N, d: N)
    requires TestNumbers(num, a, b, c, d)
    requires WellFormed(Initial<N>(false, -1))
    ensures CharStep(Initial<N>(false, -1), TestSource, 0, num, zero) == Ok(TestState1(zero, a, b, c, d))
  {
    assert TestSource[0] == 'x';
    var s := Initial<N>(false, -1);
    OperandChar(s, TestSource, 0, num, zero);
    var r := CharStep(s, TestSource, 0, num, zero);
    assert r.value.tokens == [];
    assert r.value.values == [];
    assert r.value.stack == [];
    assert r.value.buffer == [Null, Null, Null, Null];
    assert r.value.order == [];
  }

  lemma TestStep2<N>(num: string -> Option<N>, zero: N, a: N, b: N, c: N, d: N)
    requires TestNumbers(num, a, b, c, d)
    requires WellFormed(TestState1(zero, a, b, c, d))
    ensures CharStep(TestState1(zero, a, b, c, d), TestSource, 1, num, zero) == Ok(TestState2(zero, a, b, c, d))
  {
    assert TestSource[1] == ' ';
    var s := TestState1(zero, a, b, c, d);
    assert TestSource[0..1] == "x";
    var h1 := EndOperand(s, TestSource, 1, num, zero);
    assert h1.value.tokens == [VariableToken("x")];
    assert h1.value.values == [zero];
    assert h1.value.stack == [];
    assert h1.value.buffer == [Ptr(0), Null, Null, Null];
    assert h1.value.order == [];
    var r := CharStep(s, TestSource, 1, num, zero);
    assert r.value.tokens == [VariableToken("x")];
    assert r.value.values == [zero];
    assert r.value.stack == [];
    assert r.value.buffer == [Ptr(0), Null, Null, Null];
    assert r.value.order == [];
  }

  lemma TestStep3<N>(num: string -> Option<N>, zero: N, a: N, b: N, c: N, d: N)
    requires TestNumbers(num, a, b, c, d)
    requires WellFormed(TestState2(zero, a, b, c, d))
    ensures CharStep(TestState2(zero, a, b, c, d), TestSource, 2, num, zero) == Ok(TestState3(zero, a, b, c, d))
  {
    assert TestSource[2] == '*';
    var s := TestState2(zero, a, b, c, d);
    OperatorChar(s, TestSource, 2, num, zero, s);
    var h1 := Enqueue(s, '*', zero);
    assert h1.tokens == [VariableToken("x"), ExpressionToken(Mul, 2, Null, Null)];
    assert h1.values == [zero, zero];
    assert h1.stack == [];
    assert h1.buffer == [Ptr(0), Ptr(1), Null, Null];
    assert h1.order == [];
    var r := CharStep(s, TestSource, 2, num, zero);
    assert r.value.tokens == [VariableToken("x"), ExpressionToken(Mul, 2, Null, Null)];
    assert r.value.values == [zero, zero];
    assert r.value.stack == [];
    assert r.value.buffer == [Ptr(0), Ptr(1), Null, Null];
    assert r.value.order == [];
  }

  lemma TestStep4<N>(num: string -> Option<N>, zero: N, a: N, b: N, c: N, d: N)
    requires TestNumbers(num, a, b, c, d)
    requires WellFormed(TestState3(zero, a, b, c, d))
    ensures CharStep(TestState3(zero, a, b, c, d), TestSource, 3, num, zero) == Ok(TestState4(zero, a, b, c, d))
  {
    assert TestSource[3] == ' ';
    var s := TestState3(zero, a, b, c, d);
    SpaceChar(s, TestSource, 3, num, zero);
    var r := CharStep(s, TestSource, 3, num, zero);
    assert r.value.tokens == [VariableToken("x"), ExpressionToken(Mul, 2, Null, Null)];
    assert r.value.values == [zero, zero];
    assert r.value.stack == [];
    assert r.value.buffer == [Ptr(0), Ptr(1), Null, Null];
    assert r.value.order == [];
  }

  lemma TestStep5<N>(num: string -> Option<N>, zero: N, a: N, b: N, c: N, d: N)
    requires TestNumbers(num, a, b, c, d)
    requires WellFormed(TestState4(zero, a, b, c, d))
    ensures CharStep(TestState4(zero, a, b, c, d), TestSource, 4, num, zero) == Ok(TestState5(zero, a, b, c, d))
  {
    assert TestSource[4] == '(';
    var s := TestState4(zero, a, b, c, d);
    OpenChar(s, TestSource, 4, num, zero);
    var r := CharStep(s, TestSource, 4, num, zero);
    assert r.value.tokens == [VariableToken("x"), ExpressionToken(Mul, 2, Ptr(0), Null), OpenBracketToken];
    assert r.value.values == [zero, zero, zero];
    assert r.value.stack == [1, 2];
    assert r.value.buffer == [Ptr(0), Ptr(1), Null, Null];
    assert r.value.order == [];
  }

  lemma TestStep6<N>(num: string -> Option<N>, zero: N, a: N, b: N, c: N, d: N)
    requires TestNumbers(num, a, b, c, d)
    requires WellFormed(TestState5(zero, a, b, c, d))
    ensures CharStep(TestState5(zero, a, b, c, d), TestSource, 5, num, zero) == Ok(TestState6(zero, a, b, c, d))
  {
    assert TestSource[5] == '5';
    var s := TestState5(zero, a, b, c, d);
    OperandChar(s, TestSource, 5, num, zero);
    var r := CharStep(s, TestSource, 5, num, zero);
    assert r.value.tokens == [VariableToken("x"), ExpressionToken(Mul, 2, Ptr(0), Null), OpenBracketToken];
    assert r.value.values == [zero, zero, zero];
    assert r.value.stack == [1, 2];
    assert r.value.buffer == [Ptr(0), Ptr(1), Null, Null];
    assert r.value.order == [];
  }

  lemma TestStep7<N>(num: string -> Option<N>, zero: N, a: N, b: N, c: N, d: N)
    requires TestNumbers(num, a, b, c, d)
    requires WellFormed(TestState6(zero, a, b, c, d))
    ensures CharStep(TestState6(zero, a, b, c, d), TestSource, 6, num, zero) == Ok(TestState7(zero, a, b, c, d))
  {
    assert TestSource[6] == '4';
    var s := TestState6(zero, a, b, c, d);
    OperandChar(s, TestSource, 6, num, zero);
    var r := CharStep(s, TestSource, 6, num, zero);
    assert r.value.tokens == [VariableToken("x"), ExpressionToken(Mul, 2, Ptr(0), Null), OpenBracketToken];
    assert r.value.values == [zero, zero, zero];
    assert r.value.stack == [1, 2];
    assert r.value.buffer == [Ptr(0), Ptr(1), Null, Null];
    assert r.value.order == [];
  }

  lemma TestStep8<N>(num: string -> Option<N>, zero: N, a: N, b: N, c: N, d: N)
    requires TestNumbers(num, a, b, c, d)
    requires WellFormed(TestState7(zero, a, b, c, d))
    ensures CharStep(TestState7(zero, a, b, c, d), TestSource, 7, num, zero) == Ok(TestState8(zero, a, b, c, d))
  {
    assert TestSource[7] == '.';
    var s := TestState7(zero, a, b, c, d);
    OperandChar(s, TestSource, 7, num, zero);
    var r := CharStep(s, TestSource, 7, num, zero);
    assert r.value.tokens == [VariableToken("x"), ExpressionToken(Mul, 2, Ptr(0), Null), OpenBracketToken];
    assert r.value.values == [zero, zero, zero];
    assert r.value.stack == [1, 2];
    assert r.value.buffer == [Ptr(0), Ptr(1), Null, Null];
    assert r.value.order == [];
  }

  lemma TestStep9<N>(num: string -> Option<N>, zero: N, a: N, b: N, c: N, d: N)
    requires TestNumbers(num, a, b, c, d)
    requires WellFormed(TestState8(zero, a, b, c, d))
    ensures CharStep(TestState8(zero, a, b, c, d), TestSource, 8, num, zero) == Ok(TestState9(zero, a, b, c, d))
  {
    assert TestSource[8] == '3';
    var s := TestState8(zero, a, b, c, d);
    OperandChar(s, TestSource, 8, num, zero);
    var r := CharStep(s, TestSource, 8, num, zero);
    assert r.value.tokens == [VariableToken("x"), ExpressionToken(Mul, 2, Ptr(0), Null), OpenBracketToken];
    assert r.value.values == [zero, zero, zero];
    assert r.value.stack == [1, 2];
    assert r.value.buffer == [Ptr(0), Ptr(1), Null, Null];
    assert r.value.order == [];
  }

  lemma TestStep10<N>(num: string -> Option<N>, zero: N, a: N, b: N, c: N, d: N)
    requires TestNumbers(num, a, b, c, d)
    requires WellFormed(TestState9(zero, a, b, c, d))
    ensures CharStep(TestState9(zero, a, b, c, d), TestSource, 9, num, zero) == Ok(TestState10(zero, a, b, c, d))
  {
    assert TestSource[9] == '2';
    var s := TestState9(zero, a, b, c, d);
    OperandChar(s, TestSource, 9, num, zero);
    var r := CharStep(s, TestSource, 9, num, zero);
    assert r.value.tokens == [VariableToken("x"), ExpressionToken(Mul, 2, Ptr(0), Null), OpenBracketToken];
    assert r.value.values == [zero, zero, zero];
    assert r.value.stack == [1, 2];
    assert r.value.buffer == [Ptr(0), Ptr(1), Null, Null];
    assert r.value.order == [];
  }

  lemma TestStep11<N>(num: string -> Option<N>, zero: N, a: N, b: N, c: N, d: N)
    requires TestNumbers(num, a, b, c, d)
    requires WellFormed(TestState10(zero, a, b, c, d))
    ensures CharStep(TestState10(zero, a, b, c, d), TestSource, 10, num, zero) == Ok(TestState11(zero, a, b, c, d))
  {
    assert TestSource[10] == ' ';
    var s := TestState10(zero, a, b, c, d);
    assert TestSource[5..10] == "54.32";
    var h1 := EndOperand(s, TestSource, 10, num, zero);
    assert h1.value.tokens == [VariableToken("x"), ExpressionToken(Mul, 2, Ptr(0), Null), OpenBracketToken, NumberToken];
    assert h1.value.values == [zero, zero, zero, a];
    assert h1.value.stack == [1, 2];
    assert h1.value.buffer == [Ptr(3), Ptr(1), Null, Null];
    assert h1.value.order == [];
    var r := CharStep(s, TestSource, 10, num, zero);
    assert r.value.tokens == [VariableToken("x"), ExpressionToken(Mul, 2, Ptr(0), Null), OpenBracketToken, NumberToken];
    assert r.value.values == [zero, zero, zero, a];
    assert r.value.stack == [1, 2];
    assert r.value.buffer == [Ptr(3), Ptr(1), Null, Null];
    assert r.value.order == [];
  }

  lemma TestStep12<N>(num: string -> Option<N>, zero: N, a: N, b: N, c: N, d: N)
    requires TestNumbers(num, a, b, c, d)
    requires WellFormed(TestState11(zero, a, b, c, d))
    ensures CharStep(TestState11(zero, a, b, c, d), TestSource, 11, num, zero) == Ok(TestState12(zero, a, b, c, d))
  {
    assert TestSource[11] == '+';
    var s := TestState11(zero, a, b, c, d);
    var h1 := Enqueue(s, '+', zero);
    assert h1.tokens == [VariableToken("x"), ExpressionToken(Mul, 2, Ptr(0), Null), OpenBracketToken, NumberToken, ExpressionToken(Plus, 1, Null, Null)];
    assert h1.values == [zero, zero, zero, a, zero];
    assert h1.stack == [1, 2];
    assert h1.buffer == [Ptr(3), Ptr(4), Null, Null];
    assert h1.order == [];
    var r := CharStep(s, TestSource, 11, num, zero);
    assert r.value.tokens == [VariableToken("x"), ExpressionToken(Mul, 2, Ptr(0), Null), OpenBracketToken, NumberToken, ExpressionToken(Plus, 1, Null, Null)];
    assert r.value.values == [zero, zero, zero, a, zero];
    assert r.value.stack == [1, 2];
    assert r.value.buffer == [Ptr(3), Ptr(4), Null, Null];
    assert r.value.order == [];
  }

  lemma TestStep13<N>(num: string -> Option<N>, zero: N, a: N, b: N, c: N, d: N)
    requires TestNumbers(num, a, b, c, d)
    requires WellFormed(TestState12(zero, a, b, c, d))
    ensures CharStep(TestState12(zero, a, b, c, d), TestSource, 12, num, zero) == Ok(TestState13(zero, a, b, c, d))
  {
    assert TestSource[12] == ' ';
    var s := TestState12(zero, a, b, c, d);
    SpaceChar(s, TestSource, 12, num, zero);
    var r := CharStep(s, TestSource, 12, num, zero);
    assert r.value.tokens == [VariableToken("x"), ExpressionToken(Mul, 2, Ptr(0), Null), OpenBracketToken, NumberToken, ExpressionToken(Plus, 1, Null, Null)];
    assert r.value.values == [zero, zero, zero, a, zero];
    assert r.value.stack == [1, 2];
    assert r.value.buffer == [Ptr(3), Ptr(4), Null, Null];
    assert r.value.order == [];
  }

  lemma TestStep14<N>(num: string -> Option<N>, zero: N, a: N, b: N, c: N, d: N)
    requires TestNumbers(num, a, b, c, d)
    requires WellFormed(TestState13(zero, a, b, c, d))
    ensures CharStep(TestState13(zero, a, b, c, d), TestSource, 13, num, zero) == Ok(TestState14(zero, a, b, c, d))
  {
    assert TestSource[13] == 'x';
    var s := TestState13(zero, a, b, c, d);
    OperandChar(s, TestSource, 13, num, zero);
    var r := CharStep(s, TestSource, 13, num, zero);
    assert r.value.tokens == [VariableToken("x"), ExpressionToken(Mul, 2, Ptr(0), Null), OpenBracketToken, NumberToken, ExpressionToken(Plus, 1, Null, Null)];
    assert r.value.values == [zero, zero, zero, a, zero];
    assert r.value.stack == [1, 2];
    assert r.value.buffer == [Ptr(3), Ptr(4), Null, Null];
    assert r.value.order == [];
  }

  function TestState14a<N>(zero: N, a: N, b: N, c: N, d: N): ParserState<N> {
    ParserState([VariableToken("x"), ExpressionToken(Mul, 2, Ptr(0), Null), OpenBracketToken, NumberToken, ExpressionToken(Plus, 1, Null, Null)], [zero, zero, zero, a, zero], map["x" := 0], [1, 2], [Ptr(3), Ptr(4), Ptr(0), Null], 3, false, 13, Null, Ptr(4), [])
  }

  function TestState14b<N>(zero: N, a: N, b: N, c: N, d: N): ParserState<N> {
    ParserState([VariableToken("x"), ExpressionToken(Mul, 2, Ptr(0), Null), OpenBracketToken, NumberToken, ExpressionToken(Plus, 1, Null, Null), ExpressionToken(Div, 2, Null, Null)], [zero, zero, zero, a, zero, zero], map["x" := 0], [1, 2], [Ptr(3), Ptr(4), Ptr(0), Ptr(5)], 3, false, 13, Null, Ptr(5), [])
  }

  lemma TestEnd15<N>(num: string -> Option<N>, zero: N, a: N, b: N, c: N, d: N)
    requires TestNumbers(num, a, b, c, d)
    requires WellFormed(TestState14(zero, a, b, c, d))
    ensures EndOperand(TestState14(zero, a, b, c, d), TestSource, 14, num, zero) == Ok(TestState14a(zero, a, b, c, d))
  {
    assert TestSource[13..14] == "x";
    var h1 := EndOperand(TestState14(zero, a, b, c, d), TestSource, 14, num, zero);
    assert h1.value.tokens == [VariableToken("x"), ExpressionToken(Mul, 2, Ptr(0), Null), OpenBracketToken, NumberToken, ExpressionToken(Plus, 1, Null, Null)];
    assert h1.value.values == [zero, zero, zero, a, zero];
    assert h1.value.buffer == [Ptr(3), Ptr(4), Ptr(0), Null];
  }

  lemma TestEnqueue15<N>(zero: N, a: N, b: N, c: N, d: N)
    requires WellFormed(TestState14a(zero, a, b, c, d))
    ensures Enqueue(TestState14a(zero, a, b, c, d), '/', zero) == TestState14b(zero, a, b, c, d)
  {
    var h1 := Enqueue(TestState14a(zero, a, b, c, d), '/', zero);
    assert h1.tokens == [VariableToken("x"), ExpressionToken(Mul, 2, Ptr(0), Null), OpenBracketToken, NumberToken, ExpressionToken(Plus, 1, Null, Null), ExpressionToken(Div, 2, Null, Null)];
    assert h1.buffer == [Ptr(3), Ptr(4), Ptr(0), Ptr(5)];
  }

  lemma TestProcess15<N>(zero: N, a: N, b: N, c: N, d: N)
    requires WellFormed(TestState14b(zero, a, b, c, d))
    ensures ProcessBuffer(TestState14b(zero, a, b, c, d)) == Ok(TestState15(zero, a, b, c, d))
  {
    var h1 := TestState14b(zero, a, b, c, d);
    assert PriorityOf(h1.tokens[4]) < PriorityOf(h1.tokens[5]);
    var r := Defer(h1);
    assert r.tokens == [VariableToken("x"), ExpressionToken(Mul, 2, Ptr(0), Null), OpenBracketToken, NumberToken, ExpressionToken(Plus, 1, Ptr(3), Ptr(5)), ExpressionToken(Div, 2, Null, Null)];
    assert r.stack == [1, 2, 4];
    assert r.buffer == [Ptr(0), Ptr(5), Ptr(0), Ptr(5)];
  }

  lemma TestStep15<N>(num: string -> Option<N>, zero: N, a: N, b: N, c: N, d: N)
    requires TestNumbers(num, a, b, c, d)
    requires WellFormed(TestState14(zero, a, b, c, d))
    ensures CharStep(TestState14(zero, a, b, c, d), TestSource, 14, num, zero) == Ok(TestState15(zero, a, b, c, d))
  {
    assert TestSource[14] == '/';
    var s := TestState14(zero, a, b, c, d);
    TestEnd15(num, zero, a, b, c, d);
    OperatorChar(s, TestSource, 14, num, zero, TestState14a(zero, a, b, c, d));
    TestEnqueue15(zero, a, b, c, d);
    assert Operator(TestState14a(zero, a, b, c, d), '/', zero) == ProcessBuffer(TestState14b(zero, a, b, c, d));
    TestProcess15(zero, a, b, c, d);
  }

  lemma TestStep16<N>(num: string -> Option<N>, zero: N, a: N, b: N, c: N, d: N)
    requires TestNumbers(num, a, b, c, d)
    requires WellFormed(TestState15(zero, a, b, c, d))
    ensures CharStep(TestState15(zero, a, b, c, d), TestSource, 15, num, zero) == Ok(TestState16(zero, a, b, c, d))
  {
    assert TestSource[15] == '1';
    var s := TestState15(zero, a, b, c, d);
    OperandChar(s, TestSource, 15, num, zero);
    var r := CharStep(s, TestSource, 15, num, zero);
    assert r.value.tokens == [VariableToken("x"), ExpressionToken(Mul, 2, Ptr(0), Null), OpenBracketToken, NumberToken, ExpressionToken(Plus, 1, Ptr(3), Ptr(5)), ExpressionToken(Div, 2, Null, Null)];
    assert r.value.values == [zero, zero, zero, a, zero, zero];
    assert r.value.stack == [1, 2, 4];
    assert r.value.buffer == [Ptr(0), Ptr(5), Ptr(0), Ptr(5)];
    assert r.value.order == [];
  }

  lemma TestStep17<N>(num: string -> Option<N>, zero: N, a: N, b: N, c: N, d: N)
    requires TestNumbers(num, a, b, c, d)
    requires WellFormed(TestState16(zero, a, b, c, d))
    ensures CharStep(TestState16(zero, a, b, c, d), TestSource, 16, num, zero) == Ok(TestState17(zero, a, b, c, d))
  {
    assert TestSource[16] == '.';
    var s := TestState16(zero, a, b, c, d);
    OperandChar(s, TestSource, 16, num, zero);
    var r := CharStep(s, TestSource, 16, num, zero);
    assert r.value.tokens == [VariableToken("x"), ExpressionToken(Mul, 2, Ptr(0), Null), OpenBracketToken, NumberToken, ExpressionToken(Plus, 1, Ptr(3), Ptr(5)), ExpressionToken(Div, 2, Null, Null)];
    assert r.value.values == [zero, zero, zero, a, zero, zero];
    assert r.value.stack == [1, 2, 4];
    assert r.value.buffer == [Ptr(0), Ptr(5), Ptr(0), Ptr(5)];
    assert r.value.order == [];
  }

  lemma TestStep18<N>(num: string -> Option<N>, zero: N, a: N, b: N, c: N, d: N)
    requires TestNumbers(num, a, b, c, d)
    requires WellFormed(TestState17(zero, a, b, c, d))
    ensures CharStep(TestState17(zero, a, b, c, d), TestSource, 17, num, zero) == Ok(TestState18(zero, a, b, c, d))
  {
    assert TestSource[17] == '3';
    var s := TestState17(zero, a, b, c, d);
    OperandChar(s, TestSource, 17, num, zero);
    var r := CharStep(s, TestSource, 17, num, zero);
    assert r.value.tokens == [VariableToken("x"), ExpressionToken(Mul, 2, Ptr(0), Null), OpenBracketToken, NumberToken, ExpressionToken(Plus, 1, Ptr(3), Ptr(5)), ExpressionToken(Div, 2, Null, Null)];
    assert r.value.values == [zero, zero, zero, a, zero, zero];
    assert r.value.stack == [1, 2, 4];
    assert r.value.buffer == [Ptr(0), Ptr(5), Ptr(0), Ptr(5)];
    assert r.value.order == [];
  }

  function TestState18a<N>(zero: N, a: N, b: N, c: N, d: N): ParserState<N> {
    ParserState([VariableToken("x"), ExpressionToken(Mul, 2, Ptr(0), Null), OpenBracketToken, NumberToken, ExpressionToken(Plus, 1, Ptr(3), Ptr(5)), ExpressionToken(Div, 2, Null, Null), NumberToken], [zero, zero, zero, a, zero, zero, b], map["x" := 0], [1, 2, 4], [Ptr(0), Ptr(5), Ptr(6), Ptr(5)], 3, false, 15, Ptr(4), Ptr(5), [])
  }

  lemma TestEnd19<N>(num: string -> Option<N>, zero: N, a: N, b: N, c: N, d: N)
    requires TestNumbers(num, a, b, c, d)
    requires WellFormed(TestState18(zero, a, b, c, d))
    ensures EndOperand(TestState18(zero, a, b, c, d), TestSource, 18, num, zero) == Ok(TestState18a(zero, a, b, c, d))
  {
    assert TestSource[15..18] == "1.3";
    var h1 := EndOperand(TestState18(zero, a, b, c, d), TestSource, 18, num, zero);
    assert h1.value.tokens == [VariableToken("x"), ExpressionToken(Mul, 2, Ptr(0), Null), OpenBracketToken, NumberToken, ExpressionToken(Plus, 1, Ptr(3), Ptr(5)), ExpressionToken(Div, 2, Null, Null), NumberToken];
    assert h1.value.values == [zero, zero, zero, a, zero, zero, b];
    assert h1.value.buffer == [Ptr(0), Ptr(5), Ptr(6), Ptr(5)];
  }

  lemma TestClose19<N>(zero: N, a: N, b: N, c: N, d: N)
    requires WellFormed(TestState18a(zero, a, b, c, d))
    ensures CloseBracket(TestState18a(zero, a, b, c, d)) == Ok(TestState19(zero, a, b, c, d))
  {
    var h1 := TestState18a(zero, a, b, c, d);
    var h2 := Group(h1);
    assert h2.tokens == [VariableToken("x"), ExpressionToken(Mul, 2, Ptr(0), Null), OpenBracketToken, NumberToken, ExpressionToken(Plus, 1, Ptr(3), Ptr(5)), ExpressionToken(Div, 2, Ptr(0), Ptr(6)), NumberToken];
    assert h2.stack == [1, 2, 4];
    assert h2.buffer == [Ptr(0), Ptr(5), Ptr(6), Ptr(5)];
    assert h2.order == [];
    var h3 := UnwindStep(h2);
    assert h3.tokens == h2.tokens;
    assert h3.stack == [1, 2];
    assert h3.order == [5];
    assert Unwind(h2) == Unwind(h3);
    var h4 := h3.(stack := Pop(h3.stack));
    assert Unwind(h3) == Ok(h4);
    var h5 := EmitGroup(h4);
    assert h5.tokens == [VariableToken("x"), ExpressionToken(Mul, 2, Ptr(0), Ptr(4)), OpenBracketToken, NumberToken, ExpressionToken(Plus, 3, Ptr(3), Ptr(5)), ExpressionToken(Div, 2, Ptr(0), Ptr(6)), NumberToken];
    assert h5.stack == [];
    assert h5.buffer == [Ptr(0), Ptr(1), Ptr(4), Ptr(5)];
    assert h5.order == [5, 4];
  }

  lemma TestStep19<N>(num: string -> Option<N>, zero: N, a: N, b: N, c: N, d: N)
    requires TestNumbers(num, a, b, c, d)
    requires WellFormed(TestState18(zero, a, b, c, d))
    ensures CharStep(TestState18(zero, a, b, c, d), TestSource, 18, num, zero) == Ok(TestState19(zero, a, b, c, d))
  {
    assert TestSource[18] == ')';
    var s := TestState18(zero, a, b, c, d);
    TestEnd19(num, zero, a, b, c, d);
    CloseChar(s, TestSource, 18, num, zero, TestState18a(zero, a, b, c, d));
    TestClose19(zero, a, b, c, d);
  }

  function TestState19a<N>(zero: N, a: N, b: N, c: N, d: N): ParserState<N> {
    ParserState([VariableToken("x"), ExpressionToken(Mul, 2, Ptr(0), Ptr(4)), OpenBracketToken, NumberToken, ExpressionToken(Plus, 3, Ptr(3), Ptr(5)), ExpressionToken(Div, 2, Ptr(0), Ptr(6)), NumberToken, ExpressionToken(Div, 2, Null, Null)], [zero, zero, zero, a, zero, zero, b, zero], map["x" := 0], [], [Ptr(0), Ptr(1), Ptr(4), Ptr(7)], 3, false, 15, Ptr(1), Ptr(7), [5, 4])
  }

  lemma TestEnqueue20<N>(zero: N, a: N, b: N, c: N, d: N)
    requires WellFormed(TestState19(zero, a, b, c, d))
    ensures Enqueue(TestState19(zero, a, b, c, d), '/', zero) == TestState19a(zero, a, b, c, d)
  {
    var h1 := Enqueue(TestState19(zero, a, b, c, d), '/', zero);
    assert h1.tokens == [VariableToken("x"), ExpressionToken(Mul, 2, Ptr(0), Ptr(4)), OpenBracketToken, NumberToken, ExpressionToken(Plus, 3, Ptr(3), Ptr(5)), ExpressionToken(Div, 2, Ptr(0), Ptr(6)), NumberToken, ExpressionToken(Div, 2, Null, Null)];
    assert h1.values == [zero, zero, zero, a, zero, zero, b, zero];
    assert h1.buffer == [Ptr(0), Ptr(1), Ptr(4), Ptr(7)];
  }

  lemma TestProcess20<N>(zero: N, a: N, b: N, c: N, d: N)
    requires WellFormed(TestState19a(zero, a, b, c, d))
    ensures ProcessBuffer(TestState19a(zero, a, b, c, d)) == Ok(TestState20(zero, a, b, c, d))
  {
    var h1 := TestState19a(zero, a, b, c, d);
    var h2 := Reducing(h1);
    assert h2.tokens == h1.tokens;
    assert Reduce(h2, 2) == h2;
    assert PriorityOf(h1.tokens[1]) >= PriorityOf(h1.tokens[7]) == 2;
    assert ProcessBuffer(h1) == Ok(Emit(h2));
    var e := Emit(h2);
    assert e.buffer == [Ptr(1), Ptr(7), Ptr(4), Ptr(7)];
    assert e.order == [5, 4, 1];
  }

  lemma TestStep20<N>(num: string -> Option<N>, zero: N, a: N, b: N, c: N, d: N)
    requires TestNumbers(num, a, b, c, d)
    requires WellFormed(TestState19(zero, a, b, c, d))
    ensures CharStep(TestState19(zero, a, b, c, d), TestSource, 19, num, zero) == Ok(TestState20(zero, a, b, c, d))
  {
    assert TestSource[19] == '/';
    var s := TestState19(zero, a, b, c, d);
    OperatorChar(s, TestSource, 19, num, zero, s);
    TestEnqueue20(zero, a, b, c, d);
    assert Operator(s, '/', zero) == ProcessBuffer(Enqueue(s, '/', zero));
    TestProcess20(zero, a, b, c, d);
  }

  lemma TestStep21<N>(num: string -> Option<N>, zero: N, a: N, b: N, c: N, d: N)
    requires TestNumbers(num, a, b, c, d)
    requires WellFormed(TestState20(zero, a, b, c, d))
    ensures CharStep(TestState20(zero, a, b, c, d), TestSource, 20, num, zero) == Ok(TestState21(zero, a, b, c, d))
  {
    assert TestSource[20] == '1';
    var s := TestState20(zero, a, b, c, d);
    OperandChar(s, TestSource, 20, num, zero);
    var r := CharStep(s, TestSource, 20, num, zero);
    assert r.value.tokens == [VariableToken("x"), ExpressionToken(Mul, 2, Ptr(0), Ptr(4)), OpenBracketToken, NumberToken, ExpressionToken(Plus, 3, Ptr(3), Ptr(5)), ExpressionToken(Div, 2, Ptr(0), Ptr(6)), NumberToken, ExpressionToken(Div, 2, Null, Null)];
    assert r.value.values == [zero, zero, zero, a, zero, zero, b, zero];
    assert r.value.stack == [];
    assert r.value.buffer == [Ptr(1), Ptr(7), Ptr(4), Ptr(7)];
    assert r.value.order == [5, 4, 1];
  }

  lemma TestStep22<N>(num: string -> Option<N>, zero: N, a: N, b: N, c: N, d: N)
    requires TestNumbers(num, a, b, c, d)
    requires WellFormed(TestState21(zero, a, b, c, d))
    ensures CharStep(TestState21(zero, a, b, c, d), TestSource, 21, num, zero) == Ok(TestState22(zero, a, b, c, d))
  {
    assert TestSource[21] == '2';
    var s := TestState21(zero, a, b, c, d);
    OperandChar(s, TestSource, 21, num, zero);
    var r := CharStep(s, TestSource, 21, num, zero);
    assert r.value.tokens == [VariableToken("x"), ExpressionToken(Mul, 2, Ptr(0), Ptr(4)), OpenBracketToken, NumberToken, ExpressionToken(Plus, 3, Ptr(3), Ptr(5)), ExpressionToken(Div, 2, Ptr(0), Ptr(6)), NumberToken, ExpressionToken(Div, 2, Null, Null)];
    assert r.value.values == [zero, zero, zero, a, zero, zero, b, zero];
    assert r.value.stack == [];
    assert r.value.buffer == [Ptr(1), Ptr(7), Ptr(4), Ptr(7)];
    assert r.value.order == [5, 4, 1];
  }

  lemma TestStep23<N>(num: string -> Option<N>, zero: N, a: N, b: N, c: N, d: N)
    requires TestNumbers(num, a, b, c, d)
    requires WellFormed(TestState22(zero, a, b, c, d))
    ensures CharStep(TestState22(zero, a, b, c, d), TestSource, 22, num, zero) == Ok(TestState23(zero, a, b, c, d))
  {
    assert TestSource[22] == ' ';
    var s := TestState22(zero, a, b, c, d);
    assert TestSource[20..22] == "12";
    var h1 := EndOperand(s, TestSource, 22, num, zero);
    assert h1.value.tokens == [VariableToken("x"), ExpressionToken(Mul, 2, Ptr(0), Ptr(4)), OpenBracketToken, NumberToken, ExpressionToken(Plus, 3, Ptr(3), Ptr(5)), ExpressionToken(Div, 2, Ptr(0), Ptr(6)), NumberToken, ExpressionToken(Div, 2, Null, Null), NumberToken];
    assert h1.value.values == [zero, zero, zero, a, zero, zero, b, zero, c];
    assert h1.value.stack == [];
    assert h1.value.buffer == [Ptr(1), Ptr(7), Ptr(8), Ptr(7)];
    assert h1.value.order == [5, 4, 1];
    var r := CharStep(s, TestSource, 22, num, zero);
    assert r.value.tokens == [VariableToken("x"), ExpressionToken(Mul, 2, Ptr(0), Ptr(4)), OpenBracketToken, NumberToken, ExpressionToken(Plus, 3, Ptr(3), Ptr(5)), ExpressionToken(Div, 2, Ptr(0), Ptr(6)), NumberToken, ExpressionToken(Div, 2, Null, Null), NumberToken];
    assert r.value.values == [zero, zero, zero, a, zero, zero, b, zero, c];
    assert r.value.stack == [];
    assert r.value.buffer == [Ptr(1), Ptr(7), Ptr(8), Ptr(7)];
    assert r.value.order == [5, 4, 1];
  }

  /** The state of the unit test after the final `+` is buffered, before the full buffer is processed. */
  function TestState23a<N>(zero: N, a: N, b: N, c: N, d: N): ParserState<N> {
    ParserState([VariableToken("x"), ExpressionToken(Mul, 2, Ptr(0), Ptr(4)), OpenBracketToken, NumberToken, ExpressionToken(Plus, 3, Ptr(3), Ptr(5)), ExpressionToken(Div, 2, Ptr(0), Ptr(6)), NumberToken, ExpressionToken(Div, 2, Null, Null), NumberToken, ExpressionToken(Plus, 1, Null, Null)], [zero, zero, zero, a, zero, zero, b, zero, c, zero], map["x" := 0], [], [Ptr(1), Ptr(7), Ptr(8), Ptr(9)], 3, false, 20, Ptr(1), Ptr(9), [5, 4, 1])
  }

  lemma TestEnqueue24<N>(zero: N, a: N, b: N, c: N, d: N)
    requires WellFormed(TestState23(zero, a, b, c, d))
    ensures Enqueue(TestState23(zero, a, b, c, d), '+', zero) == TestState23a(zero, a, b, c, d)
  {
    var h1 := Enqueue(TestState23(zero, a, b, c, d), '+', zero);
    assert h1.tokens == [VariableToken("x"), ExpressionToken(Mul, 2, Ptr(0), Ptr(4)), OpenBracketToken, NumberToken, ExpressionToken(Plus, 3, Ptr(3), Ptr(5)), ExpressionToken(Div, 2, Ptr(0), Ptr(6)), NumberToken, ExpressionToken(Div, 2, Null, Null), NumberToken, ExpressionToken(Plus, 1, Null, Null)];
    assert h1.values == [zero, zero, zero, a, zero, zero, b, zero, c, zero];
    assert h1.buffer == [Ptr(1), Ptr(7), Ptr(8), Ptr(9)];
  }

  lemma TestProcess24<N>(zero: N, a: N, b: N, c: N, d: N)
    requires WellFormed(TestState23a(zero, a, b, c, d))
    ensures ProcessBuffer(TestState23a(zero, a, b, c, d)) == Ok(TestState24(zero, a, b, c, d))
  {
    var h1 := TestState23a(zero, a, b, c, d);
    var h2 := Reducing(h1);
    assert h2.tokens == [VariableToken("x"), ExpressionToken(Mul, 2, Ptr(0), Ptr(4)), OpenBracketToken, NumberToken, ExpressionToken(Plus, 3, Ptr(3), Ptr(5)), ExpressionToken(Div, 2, Ptr(0), Ptr(6)), NumberToken, ExpressionToken(Div, 2, Ptr(1), Ptr(8)), NumberToken, ExpressionToken(Plus, 1, Null, Null)];
    assert Reduce(h2, 1) == h2;
    assert PriorityOf(h1.tokens[7]) >= PriorityOf(h1.tokens[9]) == 1;
    assert ProcessBuffer(h1) == Ok(Emit(h2));
    var e := Emit(h2);
    assert e.buffer == [Ptr(7), Ptr(9), Ptr(8), Ptr(9)];
    assert e.order == [5, 4, 1, 7];
  }

  lemma TestStep24<N>(num: string -> Option<N>, zero: N, a: N, b: N, c: N, d: N)
    requires TestNumbers(num, a, b, c, d)
    requires WellFormed(TestState23(zero, a, b, c, d))
    ensures CharStep(TestState23(zero, a, b, c, d), TestSource, 23, num, zero) == Ok(TestState24(zero, a, b, c, d))
  {
    assert TestSource[23] == '+';
    var s := TestState23(zero, a, b, c, d);
    OperatorChar(s, TestSource, 23, num, zero, s);
    TestEnqueue24(zero, a, b, c, d);
    assert Operator(s, '+', zero) == ProcessBuffer(Enqueue(s, '+', zero));
    TestProcess24(zero, a, b, c, d);
  }

  lemma TestStep25<N>(num: string -> Option<N>, zero: N, a: N, b: N, c: N, d: N)
    requires TestNumbers(num, a, b, c, d)
    requires WellFormed(TestState24(zero, a, b, c, d))
    ensures CharStep(TestState24(zero, a, b, c, d), TestSource, 24, num, zero) == Ok(TestState25(zero, a, b, c, d))
  {
    assert TestSource[24] == ' ';
    var s := TestState24(zero, a, b, c, d);
    SpaceChar(s, TestSource, 24, num, zero);
    var r := CharStep(s, TestSource, 24, num, zero);
    assert r.value.tokens == [VariableToken("x"), ExpressionToken(Mul, 2, Ptr(0), Ptr(4)), OpenBracketToken, NumberToken, ExpressionToken(Plus, 3, Ptr(3), Ptr(5)), ExpressionToken(Div, 2, Ptr(0), Ptr(6)), NumberToken, ExpressionToken(Div, 2, Ptr(1), Ptr(8)), NumberToken, ExpressionToken(Plus, 1, Null, Null)];
    assert r.value.values == [zero, zero, zero, a, zero, zero, b, zero, c, zero];
    assert r.value.stack == [];
    assert r.value.buffer == [Ptr(7), Ptr(9), Ptr(8), Ptr(9)];
    assert r.value.order == [5, 4, 1, 7];
  }

  lemma TestStep26<N>(num: string -> Option<N>, zero: N, a: N, b: N, c: N, d: N)
    requires TestNumbers(num, a, b, c, d)
    requires WellFormed(TestState25(zero, a, b, c, d))
    ensures CharStep(TestState25(zero, a, b, c, d), TestSource, 25, num, zero) == Ok(TestState26(zero, a, b, c, d))
  {
    assert TestSource[25] == '5';
    var s := TestState25(zero, a, b, c, d);
    OperandChar(s, TestSource, 25, num, zero);
    var r := CharStep(s, TestSource, 25, num, zero);
    assert r.value.tokens == [VariableToken("x"), ExpressionToken(Mul, 2, Ptr(0), Ptr(4)), OpenBracketToken, NumberToken, ExpressionToken(Plus, 3, Ptr(3), Ptr(5)), ExpressionToken(Div, 2, Ptr(0), Ptr(6)), NumberToken, ExpressionToken(Div, 2, Ptr(1), Ptr(8)), NumberToken, ExpressionToken(Plus, 1, Null, Null)];
    assert r.value.values == [zero, zero, zero, a, zero, zero, b, zero, c, zero];
    assert r.value.stack == [];
    assert r.value.buffer == [Ptr(7), Ptr(9), Ptr(8), Ptr(9)];
    assert r.value.order == [5, 4, 1, 7];
  }

  lemma TestFinish<N>(num: string -> Option<N>, zero: N, a: N, b: N, c: N, d: N)
    requires TestNumbers(num, a, b, c, d)
    requires WellFormed(TestState26(zero, a, b, c, d))
    ensures Finish(TestState26(zero, a, b, c, d), TestSource, num, zero) == Ok(TestState27(zero, a, b, c, d))
  {
    var s := TestState26(zero, a, b, c, d);
    assert TestSource[25..26] == "5";
    var h1 := EndOperand(s, TestSource, 26, num, zero);
    assert h1.value.tokens == [VariableToken("x"), ExpressionToken(Mul, 2, Ptr(0), Ptr(4)), OpenBracketToken, NumberToken, ExpressionToken(Plus, 3, Ptr(3), Ptr(5)), ExpressionToken(Div, 2, Ptr(0), Ptr(6)), NumberToken, ExpressionToken(Div, 2, Ptr(1), Ptr(8)), NumberToken, ExpressionToken(Plus, 1, Null, Null), NumberToken];
    assert h1.value.values == [zero, zero, zero, a, zero, zero, b, zero, c, zero, d];
    assert h1.value.stack == [];
    assert h1.value.buffer == [Ptr(7), Ptr(9), Ptr(10), Ptr(9)];
    assert h1.value.order == [5, 4, 1, 7];
    var h2 := BindLast(h1.value);
    assert h2.value.tokens == [VariableToken("x"), ExpressionToken(Mul, 2, Ptr(0), Ptr(4)), OpenBracketToken, NumberToken, ExpressionToken(Plus, 3, Ptr(3), Ptr(5)), ExpressionToken(Div, 2, Ptr(0), Ptr(6)), NumberToken, ExpressionToken(Div, 2, Ptr(1), Ptr(8)), NumberToken, ExpressionToken(Plus, 1, Ptr(7), Ptr(10)), NumberToken];
    assert h2.value.values == [zero, zero, zero, a, zero, zero, b, zero, c, zero, d];
    assert h2.value.stack == [];
    assert h2.value.buffer == [Ptr(7), Ptr(9), Ptr(10), Ptr(9)];
    assert h2.value.order == [5, 4, 1, 7, 9];
    var r := Finish(s, TestSource, num, zero);
    assert r.value.tokens == [VariableToken("x"), ExpressionToken(Mul, 2, Ptr(0), Ptr(4)), OpenBracketToken, NumberToken, ExpressionToken(Plus, 3, Ptr(3), Ptr(5)), ExpressionToken(Div, 2, Ptr(0), Ptr(6)), NumberToken, ExpressionToken(Div, 2, Ptr(1), Ptr(8)), NumberToken, ExpressionToken(Plus, 1, Ptr(7), Ptr(10)), NumberToken];
    assert r.value.values == [zero, zero, zero, a, zero, zero, b, zero, c, zero, d];
    assert r.value.stack == [];
    assert r.value.buffer == [Ptr(7), Ptr(9), Ptr(10), Ptr(9)];
    assert r.value.order == [5, 4, 1, 7, 9];
  }

  lemma TestRun<N>(num: string -> Option<N>, zero: N, a: N, b: N, c: N, d: N)
    requires TestNumbers(num, a, b, c, d)
    ensures Run(TestSource, num, zero, false, -1) == Ok(TestState27(zero, a, b, c, d))
  {
    TestStep1(num, zero, a, b, c, d);
    ScanFromStep(Initial<N>(false, -1), TestSource, 0, num, zero, TestState1(zero, a, b, c, d));
    TestStep2(num, zero, a, b, c, d);
    ScanFromStep(TestState1(zero, a, b, c, d), TestSource, 1, num, zero, TestState2(zero, a, b, c, d));
    TestStep3(num, zero, a, b, c, d);
    ScanFromStep(TestState2(zero, a, b, c, d), TestSource, 2, num, zero, TestState3(zero, a, b, c, d));
    TestStep4(num, zero, a, b, c, d);
    ScanFromStep(TestState3(zero, a, b, c, d), TestSource, 3, num, zero, TestState4(zero, a, b, c, d));
    TestStep5(num, zero, a, b, c, d);
    ScanFromStep(TestState4(zero, a, b, c, d), TestSource, 4, num, zero, TestState5(zero, a, b, c, d));
    TestStep6(num, zero, a, b, c, d);
    ScanFromStep(TestState5(zero, a, b, c, d), TestSource, 5, num, zero, TestState6(zero, a, b, c, d));
    TestStep7(num, zero, a, b, c, d);
    ScanFromStep(TestState6(zero, a, b, c, d), TestSource, 6, num, zero, TestState7(zero, a, b, c, d));
    TestStep8(num, zero, a, b, c, d);
    ScanFromStep(TestState7(zero, a, b, c, d), TestSource, 7, num, zero, TestState8(zero, a, b, c, d));
    TestStep9(num, zero, a, b, c, d);
    ScanFromStep(TestState8(zero, a, b, c, d), TestSource, 8, num, zero, TestState9(zero, a, b, c, d));
    TestStep10(num, zero, a, b, c, d);
    ScanFromStep(TestState9(zero, a, b, c, d), TestSource, 9, num, zero, TestState10(zero, a, b, c, d));
    TestStep11(num, zero, a, b, c, d);
    ScanFromStep(TestState10(zero, a, b, c, d), TestSource, 10, num, zero, TestState11(zero, a, b, c, d));
    TestStep12(num, zero, a, b, c, d);
    ScanFromStep(TestState11(zero, a, b, c, d), TestSource, 11, num, zero, TestState12(zero, a, b, c, d));
    TestStep13(num, zero, a, b, c, d);
    ScanFromStep(TestState12(zero, a, b, c, d), TestSource, 12, num, zero, TestState13(zero, a, b, c, d));
    TestStep14(num, zero, a, b, c, d);
    ScanFromStep(TestState13(zero, a, b, c, d), TestSource, 13, num, zero, TestState14(zero, a, b, c, d));
    TestStep15(num, zero, a, b, c, d);
    ScanFromStep(TestState14(zero, a, b, c, d), TestSource, 14, num, zero, TestState15(zero, a, b, c, d));
    TestStep16(num, zero, a, b, c, d);
    ScanFromStep(TestState15(zero, a, b, c, d), TestSource, 15, num, zero, TestState16(zero, a, b, c, d));
    TestStep17(num, zero, a, b, c, d);
    ScanFromStep(TestState16(zero, a, b, c, d), TestSource, 16, num, zero, TestState17(zero, a, b, c, d));
    TestStep18(num, zero, a, b, c, d);
    ScanFromStep(TestState17(zero, a, b, c, d), TestSource, 17, num, zero, TestState18(zero, a, b, c, d));
    TestStep19(num, zero, a, b, c, d);
    ScanFromStep(TestState18(zero, a, b, c, d), TestSource, 18, num, zero, TestState19(zero, a, b, c, d));
    TestStep20(num, zero, a, b, c, d);
    ScanFromStep(TestState19(zero, a, b, c, d), TestSource, 19, num, zero, TestState20(zero, a, b, c, d));
    TestStep21(num, zero, a, b, c, d);
    ScanFromStep(TestState20(zero, a, b, c, d), TestSource, 20, num, zero, TestState21(zero, a, b, c, d));
    TestStep22(num, zero, a, b, c, d);
    ScanFromStep(TestState21(zero, a, b, c, d), TestSource, 21, num, zero, TestState22(zero, a, b, c, d));
    TestStep23(num, zero, a, b, c, d);
    ScanFromStep(TestState22(zero, a, b, c, d), TestSource, 22, num, zero, TestState23(zero, a, b, c, d));
    TestStep24(num, zero, a, b, c, d);
    ScanFromStep(TestState23(zero, a, b, c, d), TestSource, 23, num, zero, TestState24(zero, a, b, c, d));
    TestStep25(num, zero, a, b, c, d);
    ScanFromStep(TestState24(zero, a, b, c, d), TestSource, 24, num, zero, TestState25(zero, a, b, c, d));
    TestStep26(num, zero, a, b, c, d);
    ScanFromStep(TestState25(zero, a, b, c, d), TestSource, 25, num, zero, TestState26(zero, a, b, c, d));
    TestFinish(num, zero, a, b, c, d);
  }

  function ChainState1<N>(zero: N, n2: N, n3: N, n4: N, n5: N): ParserState<N> {
    ParserState([], [], map[], [], [Null, Null, Null, Null], 0, true, 0, Null, Null, [])
  }

  function ChainState2<N>(zero: N, n2: N, n3: N, n4: N, n5: N): ParserState<N> {
    ParserState([VariableToken("x")], [zero], map["x" := 0], [], [Ptr(0), Null, Null, Null], 1, false, 0, Null, Null, [])
  }

  function ChainState3<N>(zero: N, n2: N, n3: N, n4: N, n5: N): ParserState<N> {
    ParserState([VariableToken("x"), ExpressionToken(Plus, 1, Null, Null)], [zero, zero], map["x" := 0], [], [Ptr(0), Ptr(1), Null, Null], 2, false, 0, Null, Ptr(1), [])
  }

  function ChainState4<N>(zero: N, n2: N, n3: N, n4: N, n5: N): ParserState<N> {
    ParserState([VariableToken("x"), ExpressionToken(Plus, 1, Null, Null)], [zero, zero], map["x" := 0], [], [Ptr(0), Ptr(1), Null, Null], 2, false, 0, Null, Ptr(1), [])
  }

  function ChainState5<N>(zero: N, n2: N, n3: N, n4: N, n5: N): ParserState<N> {
    ParserState([VariableToken("x"), ExpressionToken(Plus, 1, Null, Null)], [zero, zero], map["x" := 0], [], [Ptr(0), Ptr(1), Null, Null], 2, true, 4, Null, Ptr(1), [])
  }

  function ChainState6<N>(zero: N, n2: N, n3: N, n4: N, n5: N): ParserState<N> {
    ParserState([VariableToken("x"), ExpressionToken(Plus, 1, Null, Null), NumberToken], [zero, zero, n2], map["x" := 0], [], [Ptr(0), Ptr(1), Ptr(2), Null], 3, false, 4, Null, Ptr(1), [])
  }

  function ChainState7<N>(zero: N, n2: N, n3: N, n4: N, n5: N): ParserState<N> {
    ParserState([VariableToken("x"), ExpressionToken(Plus, 1, Ptr(0), Ptr(3)), NumberToken, ExpressionToken(Mul, 2, Null, Null)], [zero, zero, n2, zero], map["x" := 0], [1], [Ptr(2), Ptr(3), Ptr(2), Ptr(3)], 2, false, 4, Ptr(1), Ptr(3), [])
  }

  function ChainState8<N>(zero: N, n2: N, n3: N, n4: N, n5: N): ParserState<N> {
    ParserState([VariableToken("x"), ExpressionToken(Plus, 1, Ptr(0), Ptr(3)), NumberToken, ExpressionToken(Mul, 2, Null, Null)], [zero, zero, n2, zero], map["x" := 0], [1], [Ptr(2), Ptr(3), Ptr(2), Ptr(3)], 2, false, 4, Ptr(1), Ptr(3), [])
  }

  function ChainState9<N>(zero: N, n2: N, n3: N, n4: N, n5: N): ParserState<N> {
    ParserState([VariableToken("x"), ExpressionToken(Plus, 1, Ptr(0), Ptr(3)), NumberToken, ExpressionToken(Mul, 2, Null, Null)], [zero, zero, n2, zero], map["x" := 0], [1], [Ptr(2), Ptr(3), Ptr(2), Ptr(3)], 2, true, 8, Ptr(1), Ptr(3), [])
  }

  function ChainState10<N>(zero: N, n2: N, n3: N, n4: N, n5: N): ParserState<N> {
    ParserState([VariableToken("x"), ExpressionToken(Plus, 1, Ptr(0), Ptr(3)), NumberToken, ExpressionToken(Mul, 2, Null, Null), NumberToken], [zero, zero, n2, zero, n3], map["x" := 0], [1], [Ptr(2), Ptr(3), Ptr(4), Ptr(3)], 3, false, 8, Ptr(1), Ptr(3), [])
  }

  function ChainState11<N>(zero: N, n2: N, n3: N, n4: N, n5: N): ParserState<N> {
    ParserState([VariableToken("x"), ExpressionToken(Plus, 1, Ptr(0), Ptr(3)), NumberToken, ExpressionToken(Mul, 2, Ptr(2), Ptr(4)), NumberToken, ExpressionToken(Mul, 2, Null, Null)], [zero, zero, n2, zero, n3, zero], map["x" := 0], [1], [Ptr(3), Ptr(5), Ptr(4), Ptr(5)], 2, false, 8, Ptr(3), Ptr(5), [3])
  }

  function ChainState12<N>(zero: N, n2: N, n3: N, n4: N, n5: N): ParserState<N> {
    ParserState([VariableToken("x"), ExpressionToken(Plus, 1, Ptr(0), Ptr(3)), NumberToken, ExpressionToken(Mul, 2, Ptr(2), Ptr(4)), NumberToken, ExpressionToken(Mul, 2, Null, Null)], [zero, zero, n2, zero, n3, zero], map["x" := 0], [1], [Ptr(3), Ptr(5), Ptr(4), Ptr(5)], 2, false, 8, Ptr(3), Ptr(5), [3])
  }

  function ChainState13<N>(zero: N, n2: N, n3: N, n4: N, n5: N): ParserState<N> {
    ParserState([VariableToken("x"), ExpressionToken(Plus, 1, Ptr(0), Ptr(3)), NumberToken, ExpressionToken(Mul, 2, Ptr(2), Ptr(4)), NumberToken, ExpressionToken(Mul, 2, Null, Null)], [zero, zero, n2, zero, n3, zero], map["x" := 0], [1], [Ptr(3), Ptr(5), Ptr(4), Ptr(5)], 2, true, 12, Ptr(3), Ptr(5), [3])
  }

  function ChainState14<N>(zero: N, n2: N, n3: N, n4: N, n5: N): ParserState<N> {
    ParserState([VariableToken("x"), ExpressionToken(Plus, 1, Ptr(0), Ptr(3)), NumberToken, ExpressionToken(Mul, 2, Ptr(2), Ptr(4)), NumberToken, ExpressionToken(Mul, 2, Null, Null), NumberToken], [zero, zero, n2, zero, n3, zero, n4], map["x" := 0], [1], [Ptr(3), Ptr(5), Ptr(6), Ptr(5)], 3, false, 12, Ptr(3), Ptr(5), [3])
  }

  function ChainState15<N>(zero: N, n2: N, n3: N, n4: N, n5: N): ParserState<N> {
    ParserState([VariableToken("x"), ExpressionToken(Plus, 1, Ptr(0), Ptr(3)), NumberToken, ExpressionToken(Mul, 2, Ptr(2), Ptr(4)), NumberToken, ExpressionToken(Mul, 2, Ptr(3), Ptr(6)), NumberToken, ExpressionToken(Minus, 1, Null, Null)], [zero, zero, n2, zero, n3, zero, n4, zero], map["x" := 0], [], [Ptr(1), Ptr(7), Ptr(6), Ptr(7)], 2, false, 12, Ptr(1), Ptr(7), [3, 5, 1])
  }

  function ChainState16<N>(zero: N, n2: N, n3: N, n4: N, n5: N): ParserState<N> {
    ParserState([VariableToken("x"), ExpressionToken(Plus, 1, Ptr(0), Ptr(3)), NumberToken, ExpressionToken(Mul, 2, Ptr(2), Ptr(4)), NumberToken, ExpressionToken(Mul, 2, Ptr(3), Ptr(6)), NumberToken, ExpressionToken(Minus, 1, Null, Null)], [zero, zero, n2, zero, n3, zero, n4, zero], map["x" := 0], [], [Ptr(1), Ptr(7), Ptr(6), Ptr(7)], 2, false, 12, Ptr(1), Ptr(7), [3, 5, 1])
  }

  function ChainState17<N>(zero: N, n2: N, n3: N, n4: N, n5: N): ParserState<N> {
    ParserState([VariableToken("x"), ExpressionToken(Plus, 1, Ptr(0), Ptr(3)), NumberToken, ExpressionToken(Mul, 2, Ptr(2), Ptr(4)), NumberToken, ExpressionToken(Mul, 2, Ptr(3), Ptr(6)), NumberToken, ExpressionToken(Minus, 1, Null, Null)], [zero, zero, n2, zero, n3, zero, n4, zero], map["x" := 0], [], [Ptr(1), Ptr(7), Ptr(6), Ptr(7)], 2, true, 16, Ptr(1), Ptr(7), [3, 5, 1])
  }

  function ChainState18<N>(zero: N, n2: N, n3: N, n4: N, n5: N): ParserState<N> {
    ParserState([VariableToken("x"), ExpressionToken(Plus, 1, Ptr(0), Ptr(3)), NumberToken, ExpressionToken(Mul, 2, Ptr(2), Ptr(4)), NumberToken, ExpressionToken(Mul, 2, Ptr(3), Ptr(6)), NumberToken, ExpressionToken(Minus, 1, Ptr(1), Ptr(8)), NumberToken], [zero, zero, n2, zero, n3, zero, n4, zero, n5], map["x" := 0], [], [Ptr(1), Ptr(7), Ptr(8), Ptr(7)], 3, false, 16, Ptr(1), Ptr(7), [3, 5, 1, 7])
  }

  lemma ChainStep1<N>(num: string -> Option<N>, zero: N, n2: N, n3: N, n4: N, n5: N)
    requires ChainNumbers(num, n2, n3, n4, n5)
    requires WellFormed(Initial<N>(false, -1))
    ensures CharStep(Initial<N>(false, -1), ChainSource, 0, num, zero) == Ok(ChainState1(zero, n2, n3, n4, n5))
  {
    assert ChainSource[0] == 'x';
    var s := Initial<N>(false, -1);
    OperandChar(s, ChainSource, 0, num, zero);
    var r := CharStep(s, ChainSource, 0, num, zero);
    assert r.value.tokens == [];
    assert r.value.values == [];
    assert r.value.stack == [];
    assert r.value.buffer == [Null, Null, Null, Null];
    assert r.value.order == [];
  }

  lemma ChainStep2<N>(num: string -> Option<N>, zero: N, n2: N, n3: N, n4: N, n5: N)
    requires ChainNumbers(num, n2, n3, n4, n5)
    requires WellFormed(ChainState1(zero, n2, n3, n4, n5))
    ensures CharStep(ChainState1(zero, n2, n3, n4, n5), ChainSource, 1, num, zero) == Ok(ChainState2(zero, n2, n3, n4, n5))
  {
    assert ChainSource[1] == ' ';
    var s := ChainState1(zero, n2, n3, n4, n5);
    assert ChainSource[0..1] == "x";
    var h1 := EndOperand(s, ChainSource, 1, num, zero);
    assert h1.value.tokens == [VariableToken("x")];
    assert h1.value.values == [zero];
    assert h1.value.stack == [];
    assert h1.value.buffer == [Ptr(0), Null, Null, Null];
    assert h1.value.order == [];
    var r := CharStep(s, ChainSource, 1, num, zero);
    assert r.value.tokens == [VariableToken("x")];
    assert r.value.values == [zero];
    assert r.value.stack == [];
    assert r.value.buffer == [Ptr(0), Null, Null, Null];
    assert r.value.order == [];
  }

  lemma ChainStep3<N>(num: string -> Option<N>, zero: N, n2: N, n3: N, n4: N, n5: N)
    requires ChainNumbers(num, n2, n3, n4, n5)
    requires WellFormed(ChainState2(zero, n2, n3, n4, n5))
    ensures CharStep(ChainState2(zero, n2, n3, n4, n5), ChainSource, 2, num, zero) == Ok(ChainState3(zero, n2, n3, n4, n5))
  {
    assert ChainSource[2] == '+';
    var s := ChainState2(zero, n2, n3, n4, n5);
    OperatorChar(s, ChainSource, 2, num, zero, s);
    var h1 := Enqueue(s, '+', zero);
    assert h1.tokens == [VariableToken("x"), ExpressionToken(Plus, 1, Null, Null)];
    assert h1.values == [zero, zero];
    assert h1.stack == [];
    assert h1.buffer == [Ptr(0), Ptr(1), Null, Null];
    assert h1.order == [];
    var r := CharStep(s, ChainSource, 2, num, zero);
    assert r.value.tokens == [VariableToken("x"), ExpressionToken(Plus, 1, Null, Null)];
    assert r.value.values == [zero, zero];
    assert r.value.stack == [];
    assert r.value.buffer == [Ptr(0), Ptr(1), Null, Null];
    assert r.value.order == [];
  }

  lemma ChainStep4<N>(num: string -> Option<N>, zero: N, n2: N, n3: N, n4: N, n5: N)
    requires ChainNumbers(num, n2, n3, n4, n5)
    requires WellFormed(ChainState3(zero, n2, n3, n4, n5))
    ensures CharStep(ChainState3(zero, n2, n3, n4, n5), ChainSource, 3, num, zero) == Ok(ChainState4(zero, n2, n3, n4, n5))
  {
    assert ChainSource[3] == ' ';
    var s := ChainState3(zero, n2, n3, n4, n5);
    SpaceChar(s, ChainSource, 3, num, zero);
    var r := CharStep(s, ChainSource, 3, num, zero);
    assert r.value.tokens == [VariableToken("x"), ExpressionToken(Plus, 1, Null, Null)];
    assert r.value.values == [zero, zero];
    assert r.value.stack == [];
    assert r.value.buffer == [Ptr(0), Ptr(1), Null, Null];
    assert r.value.order == [];
  }

  lemma ChainStep5<N>(num: string -> Option<N>, zero: N, n2: N, n3: N, n4: N, n5: N)
    requires ChainNumbers(num, n2, n3, n4, n5)
    requires WellFormed(ChainState4(zero, n2, n3, n4, n5))
    ensures CharStep(ChainState4(zero, n2, n3, n4, n5), ChainSource, 4, num, zero) == Ok(ChainState5(zero, n2, n3, n4, n5))
  {
    assert ChainSource[4] == '2';
    var s := ChainState4(zero, n2, n3, n4, n5);
    OperandChar(s, ChainSource, 4, num, zero);
    var r := CharStep(s, ChainSource, 4, num, zero);
    assert r.value.tokens == [VariableToken("x"), ExpressionToken(Plus, 1, Null, Null)];
    assert r.value.values == [zero, zero];
    assert r.value.stack == [];
    assert r.value.buffer == [Ptr(0), Ptr(1), Null, Null];
    assert r.value.order == [];
  }

  lemma ChainStep6<N>(num: string -> Option<N>, zero: N, n2: N, n3: N, n4: N, n5: N)
    requires ChainNumbers(num, n2, n3, n4, n5)
    requires WellFormed(ChainState5(zero, n2, n3, n4, n5))
    ensures CharStep(ChainState5(zero, n2, n3, n4, n5), ChainSource, 5, num, zero) == Ok(ChainState6(zero, n2, n3, n4, n5))
  {
    assert ChainSource[5] == ' ';
    var s := ChainState5(zero, n2, n3, n4, n5);
    assert ChainSource[4..5] == "2";
    var h1 := EndOperand(s, ChainSource, 5, num, zero);
    assert h1.value.tokens == [VariableToken("x"), ExpressionToken(Plus, 1, Null, Null), NumberToken];
    assert h1.value.values == [zero, zero, n2];
    assert h1.value.stack == [];
    assert h1.value.buffer == [Ptr(0), Ptr(1), Ptr(2), Null];
    assert h1.value.order == [];
    var r := CharStep(s, ChainSource, 5, num, zero);
    assert r.value.tokens == [VariableToken("x"), ExpressionToken(Plus, 1, Null, Null), NumberToken];
    assert r.value.values == [zero, zero, n2];
    assert r.value.stack == [];
    assert r.value.buffer == [Ptr(0), Ptr(1), Ptr(2), Null];
    assert r.value.order == [];
  }

  lemma ChainStep7<N>(num: string -> Option<N>, zero: N, n2: N, n3: N, n4: N, n5: N)
    requires ChainNumbers(num, n2, n3, n4, n5)
    requires WellFormed(ChainState6(zero, n2, n3, n4, n5))
    ensures CharStep(ChainState6(zero, n2, n3, n4, n5), ChainSource, 6, num, zero) == Ok(ChainState7(zero, n2, n3, n4, n5))
  {
    assert ChainSource[6] == '*';
    var s := ChainState6(zero, n2, n3, n4, n5);
    OperatorChar(s, ChainSource, 6, num, zero, s);
    var h1 := Enqueue(s, '*', zero);
    assert h1.tokens == [VariableToken("x"), ExpressionToken(Plus, 1, Null, Null), NumberToken, ExpressionToken(Mul, 2, Null, Null)];
    assert h1.values == [zero, zero, n2, zero];
    assert h1.stack == [];
    assert h1.buffer == [Ptr(0), Ptr(1), Ptr(2), Ptr(3)];
    assert h1.order == [];
    assert CharStep(s, ChainSource, 6, num, zero) == Operator(s, '*', zero) == ProcessBuffer(h1);
    assert PriorityOf(h1.tokens[1]) < PriorityOf(h1.tokens[3]);
    var d := Defer(h1);
    assert ProcessBuffer(h1) == Ok(d);
    assert d.tokens == [VariableToken("x"), ExpressionToken(Plus, 1, Ptr(0), Ptr(3)), NumberToken, ExpressionToken(Mul, 2, Null, Null)];
    assert d.values == [zero, zero, n2, zero];
    assert d.stack == [1];
    assert d.buffer == [Ptr(2), Ptr(3), Ptr(2), Ptr(3)];
    assert d.order == [];
  }

  lemma ChainStep8<N>(num: string -> Option<N>, zero: N, n2: N, n3: N, n4: N, n5: N)
    requires ChainNumbers(num, n2, n3, n4, n5)
    requires WellFormed(ChainState7(zero, n2, n3, n4, n5))
    ensures CharStep(ChainState7(zero, n2, n3, n4, n5), ChainSource, 7, num, zero) == Ok(ChainState8(zero, n2, n3, n4, n5))
  {
    assert ChainSource[7] == ' ';
    var s := ChainState7(zero, n2, n3, n4, n5);
    SpaceChar(s, ChainSource, 7, num, zero);
    var r := CharStep(s, ChainSource, 7, num, zero);
    assert r.value.tokens == [VariableToken("x"), ExpressionToken(Plus, 1, Ptr(0), Ptr(3)), NumberToken, ExpressionToken(Mul, 2, Null, Null)];
    assert r.value.values == [zero, zero, n2, zero];
    assert r.value.stack == [1];
    assert r.value.buffer == [Ptr(2), Ptr(3), Ptr(2), Ptr(3)];
    assert r.value.order == [];
  }

  lemma ChainStep9<N>(num: string -> Option<N>, zero: N, n2: N, n3: N, n4: N, n5: N)
    requires ChainNumbers(num, n2, n3, n4, n5)
    requires WellFormed(ChainState8(zero, n2, n3, n4, n5))
    ensures CharStep(ChainState8(zero, n2, n3, n4, n5), ChainSource, 8, num, zero) == Ok(ChainState9(zero, n2, n3, n4, n5))
  {
    assert ChainSource[8] == '3';
    var s := ChainState8(zero, n2, n3, n4, n5);
    OperandChar(s, ChainSource, 8, num, zero);
    var r := CharStep(s, ChainSource, 8, num, zero);
    assert r.value.tokens == [VariableToken("x"), ExpressionToken(Plus, 1, Ptr(0), Ptr(3)), NumberToken, ExpressionToken(Mul, 2, Null, Null)];
    assert r.value.values == [zero, zero, n2, zero];
    assert r.value.stack == [1];
    assert r.value.buffer == [Ptr(2), Ptr(3), Ptr(2), Ptr(3)];
    assert r.value.order == [];
  }

  lemma ChainStep10<N>(num: string -> Option<N>, zero: N, n2: N, n3: N, n4: N, n5: N)
    requires ChainNumbers(num, n2, n3, n4, n5)
    requires WellFormed(ChainState9(zero, n2, n3, n4, n5))
    ensures CharStep(ChainState9(zero, n2, n3, n4, n5), ChainSource, 9, num, zero) == Ok(ChainState10(zero, n2, n3, n4, n5))
  {
    assert ChainSource[9] == ' ';
    var s := ChainState9(zero, n2, n3, n4, n5);
    assert ChainSource[8..9] == "3";
    var h1 := EndOperand(s, ChainSource, 9, num, zero);
    assert h1.value.tokens == [VariableToken("x"), ExpressionToken(Plus, 1, Ptr(0), Ptr(3)), NumberToken, ExpressionToken(Mul, 2, Null, Null), NumberToken];
    assert h1.value.values == [zero, zero, n2, zero, n3];
    assert h1.value.stack == [1];
    assert h1.value.buffer == [Ptr(2), Ptr(3), Ptr(4), Ptr(3)];
    assert h1.value.order == [];
    var r := CharStep(s, ChainSource, 9, num, zero);
    assert r.value.tokens == [VariableToken("x"), ExpressionToken(Plus, 1, Ptr(0), Ptr(3)), NumberToken, ExpressionToken(Mul, 2, Null, Null), NumberToken];
    assert r.value.values == [zero, zero, n2, zero, n3];
    assert r.value.stack == [1];
    assert r.value.buffer == [Ptr(2), Ptr(3), Ptr(4), Ptr(3)];
    assert r.value.order == [];
  }

  lemma ChainStep11<N>(num: string -> Option<N>, zero: N, n2: N, n3: N, n4: N, n5: N)
    requires ChainNumbers(num, n2, n3, n4, n5)
    requires WellFormed(ChainState10(zero, n2, n3, n4, n5))
    ensures CharStep(ChainState10(zero, n2, n3, n4, n5), ChainSource, 10, num, zero) == Ok(ChainState11(zero, n2, n3, n4, n5))
  {
    assert ChainSource[10] == '*';
    var s := ChainState10(zero, n2, n3, n4, n5);
    OperatorChar(s, ChainSource, 10, num, zero, s);
    var h1 := Enqueue(s, '*', zero);
    assert h1.tokens == [VariableToken("x"), ExpressionToken(Plus, 1, Ptr(0), Ptr(3)), NumberToken, ExpressionToken(Mul, 2, Null, Null), NumberToken, ExpressionToken(Mul, 2, Null, Null)];
    assert h1.values == [zero, zero, n2, zero, n3, zero];
    assert h1.stack == [1];
    assert h1.buffer == [Ptr(2), Ptr(3), Ptr(4), Ptr(5)];
    assert h1.order == [];
    var h2 := Reducing(h1);
    assert h2.tokens == [VariableToken("x"), ExpressionToken(Plus, 1, Ptr(0), Ptr(3)), NumberToken, ExpressionToken(Mul, 2, Ptr(2), Ptr(4)), NumberToken, ExpressionToken(Mul, 2, Null, Null)];
    assert h2.values == [zero, zero, n2, zero, n3, zero];
    assert h2.stack == [1];
    assert h2.buffer == [Ptr(2), Ptr(3), Ptr(4), Ptr(5)];
    assert h2.order == [];
    assert Reduce(h2, 2) == h2;
    var r := CharStep(s, ChainSource, 10, num, zero);
    assert r.value.tokens == [VariableToken("x"), ExpressionToken(Plus, 1, Ptr(0), Ptr(3)), NumberToken, ExpressionToken(Mul, 2, Ptr(2), Ptr(4)), NumberToken, ExpressionToken(Mul, 2, Null, Null)];
    assert r.value.values == [zero, zero, n2, zero, n3, zero];
    assert r.value.stack == [1];
    assert r.value.buffer == [Ptr(3), Ptr(5), Ptr(4), Ptr(5)];
    assert r.value.order == [3];
  }

  lemma ChainStep12<N>(num: string -> Option<N>, zero: N, n2: N, n3: N, n4: N, n5: N)
    requires ChainNumbers(num, n2, n3, n4, n5)
    requires WellFormed(ChainState11(zero, n2, n3, n4, n5))
    ensures CharStep(ChainState11(zero, n2, n3, n4, n5), ChainSource, 11, num, zero) == Ok(ChainState12(zero, n2, n3, n4, n5))
  {
    assert ChainSource[11] == ' ';
    var s := ChainState11(zero, n2, n3, n4, n5);
    SpaceChar(s, ChainSource, 11, num, zero);
    var r := CharStep(s, ChainSource, 11, num, zero);
    assert r.value.tokens == [VariableToken("x"), ExpressionToken(Plus, 1, Ptr(0), Ptr(3)), NumberToken, ExpressionToken(Mul, 2, Ptr(2), Ptr(4)), NumberToken, ExpressionToken(Mul, 2, Null, Null)];
    assert r.value.values == [zero, zero, n2, zero, n3, zero];
    assert r.value.stack == [1];
    assert r.value.buffer == [Ptr(3), Ptr(5), Ptr(4), Ptr(5)];
    assert r.value.order == [3];
  }

  lemma ChainStep13<N>(num: string -> Option<N>, zero: N, n2: N, n3: N, n4: N, n5: N)
    requires ChainNumbers(num, n2, n3, n4, n5)
    requires WellFormed(ChainState12(zero, n2, n3, n4, n5))
    ensures CharStep(ChainState12(zero, n2, n3, n4, n5), ChainSource, 12, num, zero) == Ok(ChainState13(zero, n2, n3, n4, n5))
  {
    assert ChainSource[12] == '4';
    var s := ChainState12(zero, n2, n3, n4, n5);
    OperandChar(s, ChainSource, 12, num, zero);
    var r := CharStep(s, ChainSource, 12, num, zero);
    assert r.value.tokens == [VariableToken("x"), ExpressionToken(Plus, 1, Ptr(0), Ptr(3)), NumberToken, ExpressionToken(Mul, 2, Ptr(2), Ptr(4)), NumberToken, ExpressionToken(Mul, 2, Null, Null)];
    assert r.value.values == [zero, zero, n2, zero, n3, zero];
    assert r.value.stack == [1];
    assert r.value.buffer == [Ptr(3), Ptr(5), Ptr(4), Ptr(5)];
    assert r.value.order == [3];
  }

  lemma ChainStep14<N>(num: string -> Option<N>, zero: N, n2: N, n3: N, n4: N, n5: N)
    requires ChainNumbers(num, n2, n3, n4, n5)
    requires WellFormed(ChainState13(zero, n2, n3, n4, n5))
    ensures CharStep(ChainState13(zero, n2, n3, n4, n5), ChainSource, 13, num, zero) == Ok(ChainState14(zero, n2, n3, n4, n5))
  {
    assert ChainSource[13] == ' ';
    var s := ChainState13(zero, n2, n3, n4, n5);
    assert ChainSource[12..13] == "4";
    var h1 := EndOperand(s, ChainSource, 13, num, zero);
    assert h1.value.tokens == [VariableToken("x"), ExpressionToken(Plus, 1, Ptr(0), Ptr(3)), NumberToken, ExpressionToken(Mul, 2, Ptr(2), Ptr(4)), NumberToken, ExpressionToken(Mul, 2, Null, Null), NumberToken];
    assert h1.value.values == [zero, zero, n2, zero, n3, zero, n4];
    assert h1.value.stack == [1];
    assert h1.value.buffer == [Ptr(3), Ptr(5), Ptr(6), Ptr(5)];
    assert h1.value.order == [3];
    var r := CharStep(s, ChainSource, 13, num, zero);
    assert r.value.tokens == [VariableToken("x"), ExpressionToken(Plus, 1, Ptr(0), Ptr(3)), NumberToken, ExpressionToken(Mul, 2, Ptr(2), Ptr(4)), NumberToken, ExpressionToken(Mul, 2, Null, Null), NumberToken];
    assert r.value.values == [zero, zero, n2, zero, n3, zero, n4];
    assert r.value.stack == [1];
    assert r.value.buffer == [Ptr(3), Ptr(5), Ptr(6), Ptr(5)];
    assert r.value.order == [3];
  }

  function ChainState14a<N>(zero: N, n2: N, n3: N, n4: N, n5: N): ParserState<N> {
    ParserState([VariableToken("x"), ExpressionToken(Plus, 1, Ptr(0), Ptr(3)), NumberToken, ExpressionToken(Mul, 2, Ptr(2), Ptr(4)), NumberToken, ExpressionToken(Mul, 2, Null, Null), NumberToken, ExpressionToken(Minus, 1, Null, Null)], [zero, zero, n2, zero, n3, zero, n4, zero], map["x" := 0], [1], [Ptr(3), Ptr(5), Ptr(6), Ptr(7)], 3, false, 12, Ptr(3), Ptr(7), [3])
  }

  lemma ChainEnqueue15<N>(zero: N, n2: N, n3: N, n4: N, n5: N)
    requires WellFormed(ChainState14(zero, n2, n3, n4, n5))
    ensures Enqueue(ChainState14(zero, n2, n3, n4, n5), '-', zero) == ChainState14a(zero, n2, n3, n4, n5)
  {
    var h1 := Enqueue(ChainState14(zero, n2, n3, n4, n5), '-', zero);
    assert h1.tokens == [VariableToken("x"), ExpressionToken(Plus, 1, Ptr(0), Ptr(3)), NumberToken, ExpressionToken(Mul, 2, Ptr(2), Ptr(4)), NumberToken, ExpressionToken(Mul, 2, Null, Null), NumberToken, ExpressionToken(Minus, 1, Null, Null)];
    assert h1.values == [zero, zero, n2, zero, n3, zero, n4, zero];
    assert h1.buffer == [Ptr(3), Ptr(5), Ptr(6), Ptr(7)];
  }

  lemma ChainProcess15<N>(zero: N, n2: N, n3: N, n4: N, n5: N)
    requires WellFormed(ChainState14a(zero, n2, n3, n4, n5))
    ensures ProcessBuffer(ChainState14a(zero, n2, n3, n4, n5)) == Ok(ChainState15(zero, n2, n3, n4, n5))
  {
    var h1 := ChainState14a(zero, n2, n3, n4, n5);
    var h2 := Reducing(h1);
    assert h2.tokens == [VariableToken("x"), ExpressionToken(Plus, 1, Ptr(0), Ptr(3)), NumberToken, ExpressionToken(Mul, 2, Ptr(2), Ptr(4)), NumberToken, ExpressionToken(Mul, 2, Ptr(3), Ptr(6)), NumberToken, ExpressionToken(Minus, 1, Null, Null)];
    assert h2.stack == [1];
    assert h2.buffer == [Ptr(3), Ptr(5), Ptr(6), Ptr(7)];
    var h3 := ReduceStep(h2);
    assert h3.tokens == h2.tokens;
    assert h3.stack == [];
    assert h3.buffer == [Ptr(3), Ptr(1), Ptr(6), Ptr(7)];
    assert h3.order == [3, 5];
    assert Reduce(h2, 1) == Reduce(h3, 1);
    assert Reduce(h3, 1) == h3;
    assert PriorityOf(h1.tokens[5]) >= PriorityOf(h1.tokens[7]) == 1;
    assert ProcessBuffer(h1) == Ok(Emit(h3));
    var e := Emit(h3);
    assert e.buffer == [Ptr(1), Ptr(7), Ptr(6), Ptr(7)];
    assert e.order == [3, 5, 1];
  }

  lemma ChainStep15<N>(num: string -> Option<N>, zero: N, n2: N, n3: N, n4: N, n5: N)
    requires ChainNumbers(num, n2, n3, n4, n5)
    requires WellFormed(ChainState14(zero, n2, n3, n4, n5))
    ensures CharStep(ChainState14(zero, n2, n3, n4, n5), ChainSource, 14, num, zero) == Ok(ChainState15(zero, n2, n3, n4, n5))
  {
    assert ChainSource[14] == '-';
    var s := ChainState14(zero, n2, n3, n4, n5);
    OperatorChar(s, ChainSource, 14, num, zero, s);
    ChainEnqueue15(zero, n2, n3, n4, n5);
    assert Operator(s, '-', zero) == ProcessBuffer(Enqueue(s, '-', zero));
    ChainProcess15(zero, n2, n3, n4, n5);
  }

  lemma ChainStep16<N>(num: string -> Option<N>, zero: N, n2: N, n3: N, n4: N, n5: N)
    requires ChainNumbers(num, n2, n3, n4, n5)
    requires WellFormed(ChainState15(zero, n2, n3, n4, n5))
    ensures CharStep(ChainState15(zero, n2, n3, n4, n5), ChainSource, 15, num, zero) == Ok(ChainState16(zero, n2, n3, n4, n5))
  {
    assert ChainSource[15] == ' ';
    var s := ChainState15(zero, n2, n3, n4, n5);
    SpaceChar(s, ChainSource, 15, num, zero);
    var r := CharStep(s, ChainSource, 15, num, zero);
    assert r.value.tokens == [VariableToken("x"), ExpressionToken(Plus, 1, Ptr(0), Ptr(3)), NumberToken, ExpressionToken(Mul, 2, Ptr(2), Ptr(4)), NumberToken, ExpressionToken(Mul, 2, Ptr(3), Ptr(6)), NumberToken, ExpressionToken(Minus, 1, Null, Null)];
    assert r.value.values == [zero, zero, n2, zero, n3, zero, n4, zero];
    assert r.value.stack == [];
    assert r.value.buffer == [Ptr(1), Ptr(7), Ptr(6), Ptr(7)];
    assert r.value.order == [3, 5, 1];
  }

  lemma ChainStep17<N>(num: string -> Option<N>, zero: N, n2: N, n3: N, n4: N, n5: N)
    requires ChainNumbers(num, n2, n3, n4, n5)
    requires WellFormed(ChainState16(zero, n2, n3, n4, n5))
    ensures CharStep(ChainState16(zero, n2, n3, n4, n5), ChainSource, 16, num, zero) == Ok(ChainState17(zero, n2, n3, n4, n5))
  {
    assert ChainSource[16] == '5';
    var s := ChainState16(zero, n2, n3, n4, n5);
    OperandChar(s, ChainSource, 16, num, zero);
    var r := CharStep(s, ChainSource, 16, num, zero);
    assert r.value.tokens == [VariableToken("x"), ExpressionToken(Plus, 1, Ptr(0), Ptr(3)), NumberToken, ExpressionToken(Mul, 2, Ptr(2), Ptr(4)), NumberToken, ExpressionToken(Mul, 2, Ptr(3), Ptr(6)), NumberToken, ExpressionToken(Minus, 1, Null, Null)];
    assert r.value.values == [zero, zero, n2, zero, n3, zero, n4, zero];
    assert r.value.stack == [];
    assert r.value.buffer == [Ptr(1), Ptr(7), Ptr(6), Ptr(7)];
    assert r.value.order == [3, 5, 1];
  }

  lemma ChainFinish<N>(num: string -> Option<N>, zero: N, n2: N, n3: N, n4: N, n5: N)
    requires ChainNumbers(num, n2, n3, n4, n5)
    requires WellFormed(ChainState17(zero, n2, n3, n4, n5))
    ensures Finish(ChainState17(zero, n2, n3, n4, n5), ChainSource, num, zero) == Ok(ChainState18(zero, n2, n3, n4, n5))
  {
    var s := ChainState17(zero, n2, n3, n4, n5);
    assert ChainSource[16..17] == "5";
    var h1 := EndOperand(s, ChainSource, 17, num, zero);
    assert h1.value.tokens == [VariableToken("x"), ExpressionToken(Plus, 1, Ptr(0), Ptr(3)), NumberToken, ExpressionToken(Mul, 2, Ptr(2), Ptr(4)), NumberToken, ExpressionToken(Mul, 2, Ptr(3), Ptr(6)), NumberToken, ExpressionToken(Minus, 1, Null, Null), NumberToken];
    assert h1.value.values == [zero, zero, n2, zero, n3, zero, n4, zero, n5];
    assert h1.value.stack == [];
    assert h1.value.buffer == [Ptr(1), Ptr(7), Ptr(8), Ptr(7)];
    assert h1.value.order == [3, 5, 1];
    var h2 := BindLast(h1.value);
    assert h2.value.tokens == [VariableToken("x"), ExpressionToken(Plus, 1, Ptr(0), Ptr(3)), NumberToken, ExpressionToken(Mul, 2, Ptr(2), Ptr(4)), NumberToken, ExpressionToken(Mul, 2, Ptr(3), Ptr(6)), NumberToken, ExpressionToken(Minus, 1, Ptr(1), Ptr(8)), NumberToken];
    assert h2.value.values == [zero, zero, n2, zero, n3, zero, n4, zero, n5];
    assert h2.value.stack == [];
    assert h2.value.buffer == [Ptr(1), Ptr(7), Ptr(8), Ptr(7)];
    assert h2.value.order == [3, 5, 1, 7];
    var r := Finish(s, ChainSource, num, zero);
    assert r.value.tokens == [VariableToken("x"), ExpressionToken(Plus, 1, Ptr(0), Ptr(3)), NumberToken, ExpressionToken(Mul, 2, Ptr(2), Ptr(4)), NumberToken, ExpressionToken(Mul, 2, Ptr(3), Ptr(6)), NumberToken, ExpressionToken(Minus, 1, Ptr(1), Ptr(8)), NumberToken];
    assert r.value.values == [zero, zero, n2, zero, n3, zero, n4, zero, n5];
    assert r.value.stack == [];
    assert r.value.buffer == [Ptr(1), Ptr(7), Ptr(8), Ptr(7)];
    assert r.value.order == [3, 5, 1, 7];
  }

  lemma ChainRun<N>(num: string -> Option<N>, zero: N, n2: N, n3: N, n4: N, n5: N)
    requires ChainNumbers(num, n2, n3, n4, n5)
    ensures Run(ChainSource, num, zero, false, -1) == Ok(ChainState18(zero, n2, n3, n4, n5))
  {
    ChainStep1(num, zero, n2, n3, n4, n5);
    ScanFromStep(Initial<N>(false, -1), ChainSource, 0, num, zero, ChainState1(zero, n2, n3, n4, n5));
    ChainStep2(num, zero, n2, n3, n4, n5);
    ScanFromStep(ChainState1(zero, n2, n3, n4, n5), ChainSource, 1, num, zero, ChainState2(zero, n2, n3, n4, n5));
    ChainStep3(num, zero, n2, n3, n4, n5);
    ScanFromStep(ChainState2(zero, n2, n3, n4, n5), ChainSource, 2, num, zero, ChainState3(zero, n2, n3, n4, n5));
    ChainStep4(num, zero, n2, n3, n4, n5);
    ScanFromStep(ChainState3(zero, n2, n3, n4, n5), ChainSource, 3, num, zero, ChainState4(zero, n2, n3, n4, n5));
    ChainStep5(num, zero, n2, n3, n4, n5);
    ScanFromStep(ChainState4(zero, n2, n3, n4, n5), ChainSource, 4, num, zero, ChainState5(zero, n2, n3, n4, n5));
    ChainStep6(num, zero, n2, n3, n4, n5);
    ScanFromStep(ChainState5(zero, n2, n3, n4, n5), ChainSource, 5, num, zero, ChainState6(zero, n2, n3, n4, n5));
    ChainStep7(num, zero, n2, n3, n4, n5);
    ScanFromStep(ChainState6(zero, n2, n3, n4, n5), ChainSource, 6, num, zero, ChainState7(zero, n2, n3, n4, n5));
    ChainStep8(num, zero, n2, n3, n4, n5);
    ScanFromStep(ChainState7(zero, n2, n3, n4, n5), ChainSource, 7, num, zero, ChainState8(zero, n2, n3, n4, n5));
    ChainStep9(num, zero, n2, n3, n4, n5);
    ScanFromStep(ChainState8(zero, n2, n3, n4, n5), ChainSource, 8, num, zero, ChainState9(zero, n2, n3, n4, n5));
    ChainStep10(num, zero, n2, n3, n4, n5);
    ScanFromStep(ChainState9(zero, n2, n3, n4, n5), ChainSource, 9, num, zero, ChainState10(zero, n2, n3, n4, n5));
    ChainStep11(num, zero, n2, n3, n4, n5);
    ScanFromStep(ChainState10(zero, n2, n3, n4, n5), ChainSource, 10, num, zero, ChainState11(zero, n2, n3, n4, n5));
    ChainStep12(num, zero, n2, n3, n4, n5);
    ScanFromStep(ChainState11(zero, n2, n3, n4, n5), ChainSource, 11, num, zero, ChainState12(zero, n2, n3, n4, n5));
    ChainStep13(num, zero, n2, n3, n4, n5);
    ScanFromStep(ChainState12(zero, n2, n3, n4, n5), ChainSource, 12, num, zero, ChainState13(zero, n2, n3, n4, n5));
    ChainStep14(num, zero, n2, n3, n4, n5);
    ScanFromStep(ChainState13(zero, n2, n3, n4, n5), ChainSource, 13, num, zero, ChainState14(zero, n2, n3, n4, n5));
    ChainStep15(num, zero, n2, n3, n4, n5);
    ScanFromStep(ChainState14(zero, n2, n3, n4, n5), ChainSource, 14, num, zero, ChainState15(zero, n2, n3, n4, n5));
    ChainStep16(num, zero, n2, n3, n4, n5);
    ScanFromStep(ChainState15(zero, n2, n3, n4, n5), ChainSource, 15, num, zero, ChainState16(zero, n2, n3, n4, n5));
    ChainStep17(num, zero, n2, n3, n4, n5);
    ScanFromStep(ChainState16(zero, n2, n3, n4, n5), ChainSource, 16, num, zero, ChainState17(zero, n2, n3, n4, n5));
    ChainFinish(num, zero, n2, n3, n4, n5);
  }

  function NestedState1<N>(zero: N, n1: N): ParserState<N> {
    ParserState([OpenBracketToken], [zero], map[], [0], [Null, Null, Null, Null], 0, false, -1, Null, Null, [])
  }

  function NestedState2<N>(zero: N, n1: N): ParserState<N> {
    ParserState([OpenBracketToken, OpenBracketToken], [zero, zero], map[], [0, 1], [Null, Null, Null, Null], 0, false, -1, Null, Null, [])
  }

  function NestedState3<N>(zero: N, n1: N): ParserState<N> {
    ParserState([OpenBracketToken, OpenBracketToken], [zero, zero], map[], [0, 1], [Null, Null, Null, Null], 0, true, 2, Null, Null, [])
  }

  function NestedState4<N>(zero: N, n1: N): ParserState<N> {
    ParserState([OpenBracketToken, OpenBracketToken, VariableToken("x"), ExpressionToken(Plus, 1, Null, Null)], [zero, zero, zero, zero], map["x" := 2], [0, 1], [Ptr(2), Ptr(3), Null, Null], 2, false, 2, Null, Ptr(3), [])
  }

  function NestedState5<N>(zero: N, n1: N): ParserState<N> {
    ParserState([OpenBracketToken, OpenBracketToken, VariableToken("x"), ExpressionToken(Plus, 1, Null, Null)], [zero, zero, zero, zero], map["x" := 2], [0, 1], [Ptr(2), Ptr(3), Null, Null], 2, true, 4, Null, Ptr(3), [])
  }

  function NestedState6<N>(zero: N, n1: N): ParserState<N> {
    ParserState([OpenBracketToken, OpenBracketToken, VariableToken("x"), ExpressionToken(Plus, 3, Ptr(2), Ptr(4)), NumberToken], [zero, zero, zero, zero, n1], map["x" := 2], [0], [Ptr(3), Ptr(3), Ptr(4), Null], 1, false, 4, Null, Ptr(3), [3])
  }

  function NestedState7<N>(zero: N, n1: N): ParserState<N> {
    ParserState([OpenBracketToken, OpenBracketToken, VariableToken("x"), ExpressionToken(Plus, 3, Ptr(3), Ptr(4)), NumberToken], [zero, zero, zero, zero, n1], map["x" := 2], [], [Ptr(3), Ptr(3), Ptr(4), Null], 1, false, 4, Null, Ptr(3), [3, 3])
  }

  function NestedState8<N>(zero: N, n1: N): ParserState<N> {
    ParserState([OpenBracketToken, OpenBracketToken, VariableToken("x"), ExpressionToken(Plus, 3, Ptr(3), Ptr(4)), NumberToken], [zero, zero, zero, zero, n1], map["x" := 2], [], [Ptr(3), Ptr(3), Ptr(4), Null], 1, false, 4, Null, Ptr(3), [3, 3, 3])
  }

  lemma NestedStep1<N>(num: string -> Option<N>, zero: N, n1: N)
    requires NestedNumbers(num, n1)
    requires WellFormed(Initial<N>(false, -1))
    ensures CharStep(Initial<N>(false, -1), NestedSource, 0, num, zero) == Ok(NestedState1(zero, n1))
  {
    assert NestedSource[0] == '(';
    var s := Initial<N>(false, -1);
    OpenChar(s, NestedSource, 0, num, zero);
    var r := CharStep(s, NestedSource, 0, num, zero);
    assert r.value.tokens == [OpenBracketToken];
    assert r.value.values == [zero];
    assert r.value.stack == [0];
    assert r.value.buffer == [Null, Null, Null, Null];
    assert r.value.order == [];
  }

  lemma NestedStep2<N>(num: string -> Option<N>, zero: N, n1: N)
    requires NestedNumbers(num, n1)
    requires WellFormed(NestedState1(zero, n1))
    ensures CharStep(NestedState1(zero, n1), NestedSource, 1, num, zero) == Ok(NestedState2(zero, n1))
  {
    assert NestedSource[1] == '(';
    var s := NestedState1(zero, n1);
    OpenChar(s, NestedSource, 1, num, zero);
    var r := CharStep(s, NestedSource, 1, num, zero);
    assert r.value.tokens == [OpenBracketToken, OpenBracketToken];
    assert r.value.values == [zero, zero];
    assert r.value.stack == [0, 1];
    assert r.value.buffer == [Null, Null, Null, Null];
    assert r.value.order == [];
  }

  lemma NestedStep3<N>(num: string -> Option<N>, zero: N, n1: N)
    requires NestedNumbers(num, n1)
    requires WellFormed(NestedState2(zero, n1))
    ensures CharStep(NestedState2(zero, n1), NestedSource, 2, num, zero) == Ok(NestedState3(zero, n1))
  {
    assert NestedSource[2] == 'x';
    var s := NestedState2(zero, n1);
    OperandChar(s, NestedSource, 2, num, zero);
    var r := CharStep(s, NestedSource, 2, num, zero);
    assert r.value.tokens == [OpenBracketToken, OpenBracketToken];
    assert r.value.values == [zero, zero];
    assert r.value.stack == [0, 1];
    assert r.value.buffer == [Null, Null, Null, Null];
    assert r.value.order == [];
  }

  lemma NestedStep4<N>(num: string -> Option<N>, zero: N, n1: N)
    requires NestedNumbers(num, n1)
    requires WellFormed(NestedState3(zero, n1))
    ensures CharStep(NestedState3(zero, n1), NestedSource, 3, num, zero) == Ok(NestedState4(zero, n1))
  {
    assert NestedSource[3] == '+';
    var s := NestedState3(zero, n1);
    assert NestedSource[2..3] == "x";
    var h1 := EndOperand(s, NestedSource, 3, num, zero);
    assert h1.value.tokens == [OpenBracketToken, OpenBracketToken, VariableToken("x")];
    assert h1.value.values == [zero, zero, zero];
    assert h1.value.stack == [0, 1];
    assert h1.value.buffer == [Ptr(2), Null, Null, Null];
    assert h1.value.order == [];
    var h2 := Enqueue(h1.value, '+', zero);
    assert h2.tokens == [OpenBracketToken, OpenBracketToken, VariableToken("x"), ExpressionToken(Plus, 1, Null, Null)];
    assert h2.values == [zero, zero, zero, zero];
    assert h2.stack == [0, 1];
    assert h2.buffer == [Ptr(2), Ptr(3), Null, Null];
    assert h2.order == [];
    var r := CharStep(s, NestedSource, 3, num, zero);
    assert r.value.tokens == [OpenBracketToken, OpenBracketToken, VariableToken("x"), ExpressionToken(Plus, 1, Null, Null)];
    assert r.value.values == [zero, zero, zero, zero];
    assert r.value.stack == [0, 1];
    assert r.value.buffer == [Ptr(2), Ptr(3), Null, Null];
    assert r.value.order == [];
  }

  lemma NestedStep5<N>(num: string -> Option<N>, zero: N, n1: N)
    requires NestedNumbers(num, n1)
    requires WellFormed(NestedState4(zero, n1))
    ensures CharStep(NestedState4(zero, n1), NestedSource, 4, num, zero) == Ok(NestedState5(zero, n1))
  {
    assert NestedSource[4] == '1';
    var s := NestedState4(zero, n1);
    OperandChar(s, NestedSource, 4, num, zero);
    var r := CharStep(s, NestedSource, 4, num, zero);
    assert r.value.tokens == [OpenBracketToken, OpenBracketToken, VariableToken("x"), ExpressionToken(Plus, 1, Null, Null)];
    assert r.value.values == [zero, zero, zero, zero];
    assert r.value.stack == [0, 1];
    assert r.value.buffer == [Ptr(2), Ptr(3), Null, Null];
    assert r.value.order == [];
  }

  lemma NestedStep6<N>(num: string -> Option<N>, zero: N, n1: N)
    requires NestedNumbers(num, n1)
    requires WellFormed(NestedState5(zero, n1))
    ensures CharStep(NestedState5(zero, n1), NestedSource, 5, num, zero) == Ok(NestedState6(zero, n1))
  {
    assert NestedSource[5] == ')';
    var s := NestedState5(zero, n1);
    assert NestedSource[4..5] == "1";
    var h1 := EndOperand(s, NestedSource, 5, num, zero);
    assert h1.value.tokens == [OpenBracketToken, OpenBracketToken, VariableToken("x"), ExpressionToken(Plus, 1, Null, Null), NumberToken];
    assert h1.value.values == [zero, zero, zero, zero, n1];
    assert h1.value.stack == [0, 1];
    assert h1.value.buffer == [Ptr(2), Ptr(3), Ptr(4), Null];
    assert h1.value.order == [];
    var h2 := Group(h1.value);
    assert h2.tokens == [OpenBracketToken, OpenBracketToken, VariableToken("x"), ExpressionToken(Plus, 1, Ptr(2), Ptr(4)), NumberToken];
    assert h2.values == [zero, zero, zero, zero, n1];
    assert h2.stack == [0, 1];
    assert h2.buffer == [Ptr(2), Ptr(3), Ptr(4), Null];
    assert h2.order == [];
    var h3 := h2.(stack := Pop(h2.stack));
    assert Unwind(h2) == Ok(h3);
    var h4 := EmitGroup(h3);
    assert h4.tokens == [OpenBracketToken, OpenBracketToken, VariableToken("x"), ExpressionToken(Plus, 3, Ptr(2), Ptr(4)), NumberToken];
    assert h4.values == [zero, zero, zero, zero, n1];
    assert h4.stack == [0];
    assert h4.buffer == [Ptr(3), Ptr(3), Ptr(4), Null];
    assert h4.order == [3];
    var r := CharStep(s, NestedSource, 5, num, zero);
    assert r.value.tokens == [OpenBracketToken, OpenBracketToken, VariableToken("x"), ExpressionToken(Plus, 3, Ptr(2), Ptr(4)), NumberToken];
    assert r.value.values == [zero, zero, zero, zero, n1];
    assert r.value.stack == [0];
    assert r.value.buffer == [Ptr(3), Ptr(3), Ptr(4), Null];
    assert r.value.order == [3];
  }

  lemma NestedStep7<N>(num: string -> Option<N>, zero: N, n1: N)
    requires NestedNumbers(num, n1)
    requires WellFormed(NestedState6(zero, n1))
    ensures CharStep(NestedState6(zero, n1), NestedSource, 6, num, zero) == Ok(NestedState7(zero, n1))
  {
    assert NestedSource[6] == ')';
    var s := NestedState6(zero, n1);
    var h1 := Group(s);
    assert h1.tokens == [OpenBracketToken, OpenBracketToken, VariableToken("x"), ExpressionToken(Plus, 3, Ptr(3), Ptr(4)), NumberToken];
    assert h1.values == [zero, zero, zero, zero, n1];
    assert h1.stack == [0];
    assert h1.buffer == [Ptr(3), Ptr(3), Ptr(4), Null];
    assert h1.order == [3];
    var h2 := h1.(stack := Pop(h1.stack));
    assert Unwind(h1) == Ok(h2);
    var h3 := EmitGroup(h2);
    assert h3.tokens == [OpenBracketToken, OpenBracketToken, VariableToken("x"), ExpressionToken(Plus, 3, Ptr(3), Ptr(4)), NumberToken];
    assert h3.values == [zero, zero, zero, zero, n1];
    assert h3.stack == [];
    assert h3.buffer == [Ptr(3), Ptr(3), Ptr(4), Null];
    assert h3.order == [3, 3];
    var r := CharStep(s, NestedSource, 6, num, zero);
    assert r.value.tokens == [OpenBracketToken, OpenBracketToken, VariableToken("x"), ExpressionToken(Plus, 3, Ptr(3), Ptr(4)), NumberToken];
    assert r.value.values == [zero, zero, zero, zero, n1];
    assert r.value.stack == [];
    assert r.value.buffer == [Ptr(3), Ptr(3), Ptr(4), Null];
    assert r.value.order == [3, 3];
  }

  lemma NestedFinish<N>(num: string -> Option<N>, zero: N, n1: N)
    requires NestedNumbers(num, n1)
    requires WellFormed(NestedState7(zero, n1))
    ensures Finish(NestedState7(zero, n1), NestedSource, num, zero) == Ok(NestedState8(zero, n1))
  {
    var s := NestedState7(zero, n1);
    var h1 := BindLast(s);
    assert h1.value.tokens == [OpenBracketToken, OpenBracketToken, VariableToken("x"), ExpressionToken(Plus, 3, Ptr(3), Ptr(4)), NumberToken];
    assert h1.value.values == [zero, zero, zero, zero, n1];
    assert h1.value.stack == [];
    assert h1.value.buffer == [Ptr(3), Ptr(3), Ptr(4), Null];
    assert h1.value.order == [3, 3, 3];
    var r := Finish(s, NestedSource, num, zero);
    assert r.value.tokens == [OpenBracketToken, OpenBracketToken, VariableToken("x"), ExpressionToken(Plus, 3, Ptr(3), Ptr(4)), NumberToken];
    assert r.value.values == [zero, zero, zero, zero, n1];
    assert r.value.stack == [];
    assert r.value.buffer == [Ptr(3), Ptr(3), Ptr(4), Null];
    assert r.value.order == [3, 3, 3];
  }

  lemma NestedRun<N>(num: string -> Option<N>, zero: N, n1: N)
    requires NestedNumbers(num, n1)
    ensures Run(NestedSource, num, zero, false, -1) == Ok(NestedState8(zero, n1))
  {
    NestedStep1(num, zero, n1);
    ScanFromStep(Initial<N>(false, -1), NestedSource, 0, num, zero, NestedState1(zero, n1));
    NestedStep2(num, zero, n1);
    ScanFromStep(NestedState1(zero, n1), NestedSource, 1, num, zero, NestedState2(zero, n1));
    NestedStep3(num, zero, n1);
    ScanFromStep(NestedState2(zero, n1), NestedSource, 2, num, zero, NestedState3(zero, n1));
    NestedStep4(num, zero, n1);
    ScanFromStep(NestedState3(zero, n1), NestedSource, 3, num, zero, NestedState4(zero, n1));
    NestedStep5(num, zero, n1);
    ScanFromStep(NestedState4(zero, n1), NestedSource, 4, num, zero, NestedState5(zero, n1));
    NestedStep6(num, zero, n1);
    ScanFromStep(NestedState5(zero, n1), NestedSource, 5, num, zero, NestedState6(zero, n1));
    NestedStep7(num, zero, n1);
    ScanFromStep(NestedState6(zero, n1), NestedSource, 6, num, zero, NestedState7(zero, n1));
    NestedFinish(num, zero, n1);
  }

  function BareState1<N>(zero: N): ParserState<N> {
    ParserState([OpenBracketToken], [zero], map[], [0], [Null, Null, Null, Null], 0, false, -1, Null, Null, [])
  }

  function BareState2<N>(zero: N): ParserState<N> {
    ParserState([OpenBracketToken], [zero], map[], [0], [Null, Null, Null, Null], 0, true, 1, Null, Null, [])
  }

  lemma BareStep1<N>(num: string -> Option<N>, zero: N)
    requires num("x") == None
    requires WellFormed(Initial<N>(false, -1))
    ensures CharStep(Initial<N>(false, -1), BareSource, 0, num, zero) == Ok(BareState1(zero))
  {
    assert BareSource[0] == '(';
    var s := Initial<N>(false, -1);
    OpenChar(s, BareSource, 0, num, zero);
    var r := CharStep(s, BareSource, 0, num, zero);
    assert r.value.tokens == [OpenBracketToken];
    assert r.value.values == [zero];
    assert r.value.stack == [0];
    assert r.value.buffer == [Null, Null, Null, Null];
    assert r.value.order == [];
  }

  lemma BareStep2<N>(num: string -> Option<N>, zero: N)
    requires num("x") == None
    requires WellFormed(BareState1(zero))
    ensures CharStep(BareState1(zero), BareSource, 1, num, zero) == Ok(BareState2(zero))
  {
    assert BareSource[1] == 'x';
    var s := BareState1(zero);
    OperandChar(s, BareSource, 1, num, zero);
    var r := CharStep(s, BareSource, 1, num, zero);
    assert r.value.tokens == [OpenBracketToken];
    assert r.value.values == [zero];
    assert r.value.stack == [0];
    assert r.value.buffer == [Null, Null, Null, Null];
    assert r.value.order == [];
  }

  lemma BareStep3<N>(num: string -> Option<N>, zero: N)
    requires num("x") == None
    requires WellFormed(BareState2(zero))
    ensures CharStep(BareState2(zero), BareSource, 2, num, zero) == Err(Failure(NullReference, false, 1))
  {
    assert BareSource[2] == ')';
    var s := BareState2(zero);
    assert BareSource[1..2] == "x";
    var h1 := EndOperand(s, BareSource, 2, num, zero);
    assert h1.value.tokens == [OpenBracketToken, VariableToken("x")];
    assert h1.value.values == [zero, zero];
    assert h1.value.stack == [0];
    assert h1.value.buffer == [Ptr(1), Null, Null, Null];
    assert h1.value.order == [];
  }

  lemma BareRun<N>(num: string -> Option<N>, zero: N)
    requires num("x") == None
    ensures Run(BareSource, num, zero, false, -1) == Err(Failure(NullReference, false, 1))
  {
    BareStep1(num, zero);
    ScanFromStep(Initial<N>(false, -1), BareSource, 0, num, zero, BareState1(zero));
    BareStep2(num, zero);
    ScanFromStep(BareState1(zero), BareSource, 1, num, zero, BareState2(zero));
    BareStep3(num, zero);
    assert ScanFrom(BareState2(zero), BareSource, 2, num, zero) == Err(Failure(NullReference, false, 1));
  }

  function SingleState1<N>(zero: N): ParserState<N> {
    ParserState([], [], map[], [], [Null, Null, Null, Null], 0, true, 0, Null, Null, [])
  }

  lemma SingleStep1<N>(num: string -> Option<N>, zero: N)
    requires num("x") == None
    requires WellFormed(Initial<N>(false, -1))
    ensures CharStep(Initial<N>(false, -1), SingleSource, 0, num, zero) == Ok(SingleState1(zero))
  {
    assert SingleSource[0] == 'x';
    var s := Initial<N>(false, -1);
    OperandChar(s, SingleSource, 0, num, zero);
    var r := CharStep(s, SingleSource, 0, num, zero);
    assert r.value.tokens == [];
    assert r.value.values == [];
    assert r.value.stack == [];
    assert r.value.buffer == [Null, Null, Null, Null];
    assert r.value.order == [];
  }

  lemma SingleFinish<N>(num: string -> Option<N>, zero: N)
    requires num("x") == None
    requires WellFormed(SingleState1(zero))
    ensures Finish(SingleState1(zero), SingleSource, num, zero) == Err(Failure(InvalidCast, false, 0))
  {
    var s := SingleState1(zero);
    assert SingleSource[0..1] == "x";
    var h1 := EndOperand(s, SingleSource, 1, num, zero);
    assert h1.value.tokens == [VariableToken("x")];
    assert h1.value.values == [zero];
    assert h1.value.stack == [];
    assert h1.value.buffer == [Ptr(0), Null, Null, Null];
    assert h1.value.order == [];
  }

  lemma SingleRun<N>(num: string -> Option<N>, zero: N)
    requires num("x") == None
    ensures Run(SingleSource, num, zero, false, -1) == Err(Failure(InvalidCast, false, 0))
  {
    SingleStep1(num, zero);
    ScanFromStep(Initial<N>(false, -1), SingleSource, 0, num, zero, SingleState1(zero));
    SingleFinish(num, zero);
  }

  function CallState1<N>(zero: N): ParserState<N> {
    ParserState([], [], map[], [], [Null, Null, Null, Null], 0, true, 0, Null, Null, [])
  }

  lemma CallStep1<N>(num: string -> Option<N>, zero: N)
    requires num("x") == None
    requires WellFormed(Initial<N>(false, -1))
    ensures CharStep(Initial<N>(false, -1), CallSource, 0, num, zero) == Ok(CallState1(zero))
  {
    assert CallSource[0] == 'x';
    var s := Initial<N>(false, -1);
    OperandChar(s, CallSource, 0, num, zero);
    var r := CharStep(s, CallSource, 0, num, zero);
    assert r.value.tokens == [];
    assert r.value.values == [];
    assert r.value.stack == [];
    assert r.value.buffer == [Null, Null, Null, Null];
    assert r.value.order == [];
  }

  lemma CallStep2<N>(num: string -> Option<N>, zero: N)
    requires num("x") == None
    requires WellFormed(CallState1(zero))
    ensures CharStep(CallState1(zero), CallSource, 1, num, zero) == Err(Failure(NotSupported, true, 0))
  {
    assert CallSource[1] == '(';
    var s := CallState1(zero);
    OpenChar(s, CallSource, 1, num, zero);
  }

  lemma CallRun<N>(num: string -> Option<N>, zero: N)
    requires num("x") == None
    ensures Run(CallSource, num, zero, false, -1) == Err(Failure(NotSupported, true, 0))
  {
    CallStep1(num, zero);
    ScanFromStep(Initial<N>(false, -1), CallSource, 0, num, zero, CallState1(zero));
    CallStep2(num, zero);
    assert ScanFrom(CallState1(zero), CallSource, 1, num, zero) == Err(Failure(NotSupported, true, 0));
  }

  function CrowdedState1<N>(zero: N, n1: N, n2: N, n3: N, n4: N, n5: N): ParserState<N> {
    ParserState([], [], map[], [], [Null, Null, Null, Null], 0, true, 0, Null, Null, [])
  }

  function CrowdedState2<N>(zero: N, n1: N, n2: N, n3: N, n4: N, n5: N): ParserState<N> {
    ParserState([NumberToken], [n1], map[], [], [Ptr(0), Null, Null, Null], 1, false, 0, Null, Null, [])
  }

  function CrowdedState3<N>(zero: N, n1: N, n2: N, n3: N, n4: N, n5: N): ParserState<N> {
    ParserState([NumberToken], [n1], map[], [], [Ptr(0), Null, Null, Null], 1, true, 2, Null, Null, [])
  }

  function CrowdedState4<N>(zero: N, n1: N, n2: N, n3: N, n4: N, n5: N): ParserState<N> {
    ParserState([NumberToken, NumberToken], [n1, n2], map[], [], [Ptr(0), Ptr(1), Null, Null], 2, false, 2, Null, Null, [])
  }

  function CrowdedState5<N>(zero: N, n1: N, n2: N, n3: N, n4: N, n5: N): ParserState<N> {
    ParserState([NumberToken, NumberToken], [n1, n2], map[], [], [Ptr(0), Ptr(1), Null, Null], 2, true, 4, Null, Null, [])
  }

  function CrowdedState6<N>(zero: N, n1: N, n2: N, n3: N, n4: N, n5: N): ParserState<N> {
    ParserState([NumberToken, NumberToken, NumberToken], [n1, n2, n3], map[], [], [Ptr(0), Ptr(1), Ptr(2), Null], 3, false, 4, Null, Null, [])
  }

  function CrowdedState7<N>(zero: N, n1: N, n2: N, n3: N, n4: N, n5: N): ParserState<N> {
    ParserState([NumberToken, NumberToken, NumberToken], [n1, n2, n3], map[], [], [Ptr(0), Ptr(1), Ptr(2), Null], 3, true, 6, Null, Null, [])
  }

  function CrowdedState8<N>(zero: N, n1: N, n2: N, n3: N, n4: N, n5: N): ParserState<N> {
    ParserState([NumberToken, NumberToken, NumberToken, NumberToken], [n1, n2, n3, n4], map[], [], [Ptr(0), Ptr(1), Ptr(2), Ptr(3)], 4, false, 6, Null, Null, [])
  }

  function CrowdedState9<N>(zero: N, n1: N, n2: N, n3: N, n4: N, n5: N): ParserState<N> {
    ParserState([NumberToken, NumberToken, NumberToken, NumberToken], [n1, n2, n3, n4], map[], [], [Ptr(0), Ptr(1), Ptr(2), Ptr(3)], 4, true, 8, Null, Null, [])
  }

  lemma CrowdedStep1<N>(num: string -> Option<N>, zero: N, n1: N, n2: N, n3: N, n4: N, n5: N)
    requires DigitNumbers(num, n1, n2, n3, n4, n5)
    requires WellFormed(Initial<N>(false, -1))
    ensures CharStep(Initial<N>(false, -1), CrowdedSource, 0, num, zero) == Ok(CrowdedState1(zero, n1, n2, n3, n4, n5))
  {
    assert CrowdedSource[0] == '1';
    var s := Initial<N>(false, -1);
    OperandChar(s, CrowdedSource, 0, num, zero);
    var r := CharStep(s, CrowdedSource, 0, num, zero);
    assert r.value.tokens == [];
    assert r.value.values == [];
    assert r.value.stack == [];
    assert r.value.buffer == [Null, Null, Null, Null];
    assert r.value.order == [];
  }

  lemma CrowdedStep2<N>(num: string -> Option<N>, zero: N, n1: N, n2: N, n3: N, n4: N, n5: N)
    requires DigitNumbers(num, n1, n2, n3, n4, n5)
    requires WellFormed(CrowdedState1(zero, n1, n2, n3, n4, n5))
    ensures CharStep(CrowdedState1(zero, n1, n2, n3, n4, n5), CrowdedSource, 1, num, zero) == Ok(CrowdedState2(zero, n1, n2, n3, n4, n5))
  {
    assert CrowdedSource[1] == ' ';
    var s := CrowdedState1(zero, n1, n2, n3, n4, n5);
    assert CrowdedSource[0..1] == "1";
    var h1 := EndOperand(s, CrowdedSource, 1, num, zero);
    assert h1.value.tokens == [NumberToken];
    assert h1.value.values == [n1];
    assert h1.value.stack == [];
    assert h1.value.buffer == [Ptr(0), Null, Null, Null];
    assert h1.value.order == [];
    var r := CharStep(s, CrowdedSource, 1, num, zero);
    assert r.value.tokens == [NumberToken];
    assert r.value.values == [n1];
    assert r.value.stack == [];
    assert r.value.buffer == [Ptr(0), Null, Null, Null];
    assert r.value.order == [];
  }

  lemma CrowdedStep3<N>(num: string -> Option<N>, zero: N, n1: N, n2: N, n3: N, n4: N, n5: N)
    requires DigitNumbers(num, n1, n2, n3, n4, n5)
    requires WellFormed(CrowdedState2(zero, n1, n2, n3, n4, n5))
    ensures CharStep(CrowdedState2(zero, n1, n2, n3, n4, n5), CrowdedSource, 2, num, zero) == Ok(CrowdedState3(zero, n1, n2, n3, n4, n5))
  {
    assert CrowdedSource[2] == '2';
    var s := CrowdedState2(zero, n1, n2, n3, n4, n5);
    OperandChar(s, CrowdedSource, 2, num, zero);
    var r := CharStep(s, CrowdedSource, 2, num, zero);
    assert r.value.tokens == [NumberToken];
    assert r.value.values == [n1];
    assert r.value.stack == [];
    assert r.value.buffer == [Ptr(0), Null, Null, Null];
    assert r.value.order == [];
  }

  lemma CrowdedStep4<N>(num: string -> Option<N>, zero: N, n1: N, n2: N, n3: N, n4: N, n5: N)
    requires DigitNumbers(num, n1, n2, n3, n4, n5)
    requires WellFormed(CrowdedState3(zero, n1, n2, n3, n4, n5))
    ensures CharStep(CrowdedState3(zero, n1, n2, n3, n4, n5), CrowdedSource, 3, num, zero) == Ok(CrowdedState4(zero, n1, n2, n3, n4, n5))
  {
    assert CrowdedSource[3] == ' ';
    var s := CrowdedState3(zero, n1, n2, n3, n4, n5);
    assert CrowdedSource[2..3] == "2";
    var h1 := EndOperand(s, CrowdedSource, 3, num, zero);
    assert h1.value.tokens == [NumberToken, NumberToken];
    assert h1.value.values == [n1, n2];
    assert h1.value.stack == [];
    assert h1.value.buffer == [Ptr(0), Ptr(1), Null, Null];
    assert h1.value.order == [];
    var r := CharStep(s, CrowdedSource, 3, num, zero);
    assert r.value.tokens == [NumberToken, NumberToken];
    assert r.value.values == [n1, n2];
    assert r.value.stack == [];
    assert r.value.buffer == [Ptr(0), Ptr(1), Null, Null];
    assert r.value.order == [];
  }

  lemma CrowdedStep5<N>(num: string -> Option<N>, zero: N, n1: N, n2: N, n3: N, n4: N, n5: N)
    requires DigitNumbers(num, n1, n2, n3, n4, n5)
    requires WellFormed(CrowdedState4(zero, n1, n2, n3, n4, n5))
    ensures CharStep(CrowdedState4(zero, n1, n2, n3, n4, n5), CrowdedSource, 4, num, zero) == Ok(CrowdedState5(zero, n1, n2, n3, n4, n5))
  {
    assert CrowdedSource[4] == '3';
    var s := CrowdedState4(zero, n1, n2, n3, n4, n5);
    OperandChar(s, CrowdedSource, 4, num, zero);
    var r := CharStep(s, CrowdedSource, 4, num, zero);
    assert r.value.tokens == [NumberToken, NumberToken];
    assert r.value.values == [n1, n2];
    assert r.value.stack == [];
    assert r.value.buffer == [Ptr(0), Ptr(1), Null, Null];
    assert r.value.order == [];
  }

  lemma CrowdedStep6<N>(num: string -> Option<N>, zero: N, n1: N, n2: N, n3: N, n4: N, n5: N)
    requires DigitNumbers(num, n1, n2, n3, n4, n5)
    requires WellFormed(CrowdedState5(zero, n1, n2, n3, n4, n5))
    ensures CharStep(CrowdedState5(zero, n1, n2, n3, n4, n5), CrowdedSource, 5, num, zero) == Ok(CrowdedState6(zero, n1, n2, n3, n4, n5))
  {
    assert CrowdedSource[5] == ' ';
    var s := CrowdedState5(zero, n1, n2, n3, n4, n5);
    assert CrowdedSource[4..5] == "3";
    var h1 := EndOperand(s, CrowdedSource, 5, num, zero);
    assert h1.value.tokens == [NumberToken, NumberToken, NumberToken];
    assert h1.value.values == [n1, n2, n3];
    assert h1.value.stack == [];
    assert h1.value.buffer == [Ptr(0), Ptr(1), Ptr(2), Null];
    assert h1.value.order == [];
    var r := CharStep(s, CrowdedSource, 5, num, zero);
    assert r.value.tokens == [NumberToken, NumberToken, NumberToken];
    assert r.value.values == [n1, n2, n3];
    assert r.value.stack == [];
    assert r.value.buffer == [Ptr(0), Ptr(1), Ptr(2), Null];
    assert r.value.order == [];
  }

  lemma CrowdedStep7<N>(num: string -> Option<N>, zero: N, n1: N, n2: N, n3: N, n4: N, n5: N)
    requires DigitNumbers(num, n1, n2, n3, n4, n5)
    requires WellFormed(CrowdedState6(zero, n1, n2, n3, n4, n5))
    ensures CharStep(CrowdedState6(zero, n1, n2, n3, n4, n5), CrowdedSource, 6, num, zero) == Ok(CrowdedState7(zero, n1, n2, n3, n4, n5))
  {
    assert CrowdedSource[6] == '4';
    var s := CrowdedState6(zero, n1, n2, n3, n4, n5);
    OperandChar(s, CrowdedSource, 6, num, zero);
    var r := CharStep(s, CrowdedSource, 6, num, zero);
    assert r.value.tokens == [NumberToken, NumberToken, NumberToken];
    assert r.value.values == [n1, n2, n3];
    assert r.value.stack == [];
    assert r.value.buffer == [Ptr(0), Ptr(1), Ptr(2), Null];
    assert r.value.order == [];
  }

  lemma CrowdedStep8<N>(num: string -> Option<N>, zero: N, n1: N, n2: N, n3: N, n4: N, n5: N)
    requires DigitNumbers(num, n1, n2, n3, n4, n5)
    requires WellFormed(CrowdedState7(zero, n1, n2, n3, n4, n5))
    ensures CharStep(CrowdedState7(zero, n1, n2, n3, n4, n5), CrowdedSource, 7, num, zero) == Ok(CrowdedState8(zero, n1, n2, n3, n4, n5))
  {
    assert CrowdedSource[7] == ' ';
    var s := CrowdedState7(zero, n1, n2, n3, n4, n5);
    assert CrowdedSource[6..7] == "4";
    var h1 := EndOperand(s, CrowdedSource, 7, num, zero);
    assert h1.value.tokens == [NumberToken, NumberToken, NumberToken, NumberToken];
    assert h1.value.values == [n1, n2, n3, n4];
    assert h1.value.stack == [];
    assert h1.value.buffer == [Ptr(0), Ptr(1), Ptr(2), Ptr(3)];
    assert h1.value.order == [];
    var r := CharStep(s, CrowdedSource, 7, num, zero);
    assert r.value.tokens == [NumberToken, NumberToken, NumberToken, NumberToken];
    assert r.value.values == [n1, n2, n3, n4];
    assert r.value.stack == [];
    assert r.value.buffer == [Ptr(0), Ptr(1), Ptr(2), Ptr(3)];
    assert r.value.order == [];
  }

  lemma CrowdedStep9<N>(num: string -> Option<N>, zero: N, n1: N, n2: N, n3: N, n4: N, n5: N)
    requires DigitNumbers(num, n1, n2, n3, n4, n5)
    requires WellFormed(CrowdedState8(zero, n1, n2, n3, n4, n5))
    ensures CharStep(CrowdedState8(zero, n1, n2, n3, n4, n5), CrowdedSource, 8, num, zero) == Ok(CrowdedState9(zero, n1, n2, n3, n4, n5))
  {
    assert CrowdedSource[8] == '5';
    var s := CrowdedState8(zero, n1, n2, n3, n4, n5);
    OperandChar(s, CrowdedSource, 8, num, zero);
    var r := CharStep(s, CrowdedSource, 8, num, zero);
    assert r.value.tokens == [NumberToken, NumberToken, NumberToken, NumberToken];
    assert r.value.values == [n1, n2, n3, n4];
    assert r.value.stack == [];
    assert r.value.buffer == [Ptr(0), Ptr(1), Ptr(2), Ptr(3)];
    assert r.value.order == [];
  }

  lemma CrowdedFinish<N>(num: string -> Option<N>, zero: N, n1: N, n2: N, n3: N, n4: N, n5: N)
    requires DigitNumbers(num, n1, n2, n3, n4, n5)
    requires WellFormed(CrowdedState9(zero, n1, n2, n3, n4, n5))
    ensures Finish(CrowdedState9(zero, n1, n2, n3, n4, n5), CrowdedSource, num, zero) == Err(Failure(IndexOutOfRange, true, 8))
  {
    var s := CrowdedState9(zero, n1, n2, n3, n4, n5);
  }

  lemma CrowdedRun<N>(num: string -> Option<N>, zero: N, n1: N, n2: N, n3: N, n4: N, n5: N)
    requires DigitNumbers(num, n1, n2, n3, n4, n5)
    ensures Run(CrowdedSource, num, zero, false, -1) == Err(Failure(IndexOutOfRange, true, 8))
  {
    CrowdedStep1(num, zero, n1, n2, n3, n4, n5);
    ScanFromStep(Initial<N>(false, -1), CrowdedSource, 0, num, zero, CrowdedState1(zero, n1, n2, n3, n4, n5));
    CrowdedStep2(num, zero, n1, n2, n3, n4, n5);
    ScanFromStep(CrowdedState1(zero, n1, n2, n3, n4, n5), CrowdedSource, 1, num, zero, CrowdedState2(zero, n1, n2, n3, n4, n5));
    CrowdedStep3(num, zero, n1, n2, n3, n4, n5);
    ScanFromStep(CrowdedState2(zero, n1, n2, n3, n4, n5), CrowdedSource, 2, num, zero, CrowdedState3(zero, n1, n2, n3, n4, n5));
    CrowdedStep4(num, zero, n1, n2, n3, n4, n5);
    ScanFromStep(CrowdedState3(zero, n1, n2, n3, n4, n5), CrowdedSource, 3, num, zero, CrowdedState4(zero, n1, n2, n3, n4, n5));
    CrowdedStep5(num, zero, n1, n2, n3, n4, n5);
    ScanFromStep(CrowdedState4(zero, n1, n2, n3, n4, n5), CrowdedSource, 4, num, zero, CrowdedState5(zero, n1, n2, n3, n4, n5));
    CrowdedStep6(num, zero, n1, n2, n3, n4, n5);
    ScanFromStep(CrowdedState5(zero, n1, n2, n3, n4, n5), CrowdedSource, 5, num, zero, CrowdedState6(zero, n1, n2, n3, n4, n5));
    CrowdedStep7(num, zero, n1, n2, n3, n4, n5);
    ScanFromStep(CrowdedState6(zero, n1, n2, n3, n4, n5), CrowdedSource, 6, num, zero, CrowdedState7(zero, n1, n2, n3, n4, n5));
    CrowdedStep8(num, zero, n1, n2, n3, n4, n5);
    ScanFromStep(CrowdedState7(zero, n1, n2, n3, n4, n5), CrowdedSource, 7, num, zero, CrowdedState8(zero, n1, n2, n3, n4, n5));
    CrowdedStep9(num, zero, n1, n2, n3, n4, n5);
    ScanFromStep(CrowdedState8(zero, n1, n2, n3, n4, n5), CrowdedSource, 8, num, zero, CrowdedState9(zero, n1, n2, n3, n4, n5));
    CrowdedFinish(num, zero, n1, n2, n3, n4, n5);
  }

  function FreshState1<N>(zero: N, n5: N): ParserState<N> {
    ParserState([], [], map[], [], [Null, Null, Null, Null], 0, false, -1, Null, Null, [])
  }

  function FreshState2<N>(zero: N, n5: N): ParserState<N> {
    ParserState([], [], map[], [], [Null, Null, Null, Null], 0, true, 1, Null, Null, [])
  }

  lemma FreshStep1<N>(num: string -> Option<N>, zero: N, n5: N)
    requires num("5") == Some(n5)
    requires WellFormed(Initial<N>(false, -1))
    ensures CharStep(Initial<N>(false, -1), SpacedSource, 0, num, zero) == Ok(FreshState1(zero, n5))
  {
    assert SpacedSource[0] == ' ';
    var s := Initial<N>(false, -1);
    SpaceChar(s, SpacedSource, 0, num, zero);
    var r := CharStep(s, SpacedSource, 0, num, zero);
    assert r.value.tokens == [];
    assert r.value.values == [];
    assert r.value.stack == [];
    assert r.value.buffer == [Null, Null, Null, Null];
    assert r.value.order == [];
  }

  lemma FreshStep2<N>(num: string -> Option<N>, zero: N, n5: N)
    requires num("5") == Some(n5)
    requires WellFormed(FreshState1(zero, n5))
    ensures CharStep(FreshState1(zero, n5), SpacedSource, 1, num, zero) == Ok(FreshState2(zero, n5))
  {
    assert SpacedSource[1] == '5';
    var s := FreshState1(zero, n5);
    OperandChar(s, SpacedSource, 1, num, zero);
    var r := CharStep(s, SpacedSource, 1, num, zero);
    assert r.value.tokens == [];
    assert r.value.values == [];
    assert r.value.stack == [];
    assert r.value.buffer == [Null, Null, Null, Null];
    assert r.value.order == [];
  }

  lemma FreshFinish<N>(num: string -> Option<N>, zero: N, n5: N)
    requires num("5") == Some(n5)
    requires WellFormed(FreshState2(zero, n5))
    ensures Finish(FreshState2(zero, n5), SpacedSource, num, zero) == Err(Failure(InvalidCast, false, 1))
  {
    var s := FreshState2(zero, n5);
    assert SpacedSource[1..2] == "5";
    var h1 := EndOperand(s, SpacedSource, 2, num, zero);
    assert h1.value.tokens == [NumberToken];
    assert h1.value.values == [n5];
    assert h1.value.stack == [];
    assert h1.value.buffer == [Ptr(0), Null, Null, Null];
    assert h1.value.order == [];
  }

  lemma FreshRun<N>(num: string -> Option<N>, zero: N, n5: N)
    requires num("5") == Some(n5)
    ensures Run(SpacedSource, num, zero, false, -1) == Err(Failure(InvalidCast, false, 1))
  {
    FreshStep1(num, zero, n5);
    ScanFromStep(Initial<N>(false, -1), SpacedSource, 0, num, zero, FreshState1(zero, n5));
    FreshStep2(num, zero, n5);
    ScanFromStep(FreshState1(zero, n5), SpacedSource, 1, num, zero, FreshState2(zero, n5));
    FreshFinish(num, zero, n5);
  }

  function CarriedState1<N>(zero: N, n5: N): ParserState<N> {
    ParserState([VariableToken("")], [zero], map["" := 0], [], [Ptr(0), Null, Null, Null], 1, false, 0, Null, Null, [])
  }

  function CarriedState2<N>(zero: N, n5: N): ParserState<N> {
    ParserState([VariableToken("")], [zero], map["" := 0], [], [Ptr(0), Null, Null, Null], 1, true, 1, Null, Null, [])
  }

  function CarriedState3<N>(zero: N, n5: N): ParserState<N> {
    ParserState([VariableToken(""), NumberToken], [zero, n5], map["" := 0], [], [Ptr(0), Ptr(1), Null, Null], 2, false, 1, Null, Null, [])
  }

  lemma CarriedStep1<N>(num: string -> Option<N>, zero: N, n5: N)
    requires num("5") == Some(n5) && num("") == None
    requires WellFormed(Initial<N>(true, 0))
    ensures CharStep(Initial<N>(true, 0), SpacedSource, 0, num, zero) == Ok(CarriedState1(zero, n5))
  {
    assert SpacedSource[0] == ' ';
    var s := Initial<N>(true, 0);
    SpaceChar(s, SpacedSource, 0, num, zero);
    assert SpacedSource[0..0] == "";
    var h1 := EndOperand(s, SpacedSource, 0, num, zero);
    assert h1.value.tokens == [VariableToken("")];
    assert h1.value.values == [zero];
    assert h1.value.stack == [];
    assert h1.value.buffer == [Ptr(0), Null, Null, Null];
    assert h1.value.order == [];
    var r := CharStep(s, SpacedSource, 0, num, zero);
    assert r.value.tokens == [VariableToken("")];
    assert r.value.values == [zero];
    assert r.value.stack == [];
    assert r.value.buffer == [Ptr(0), Null, Null, Null];
    assert r.value.order == [];
  }

  lemma CarriedStep2<N>(num: string -> Option<N>, zero: N, n5: N)
    requires num("5") == Some(n5) && num("") == None
    requires WellFormed(CarriedState1(zero, n5))
    ensures CharStep(CarriedState1(zero, n5), SpacedSource, 1, num, zero) == Ok(CarriedState2(zero, n5))
  {
    assert SpacedSource[1] == '5';
    var s := CarriedState1(zero, n5);
    OperandChar(s, SpacedSource, 1, num, zero);
    var r := CharStep(s, SpacedSource, 1, num, zero);
    assert r.value.tokens == [VariableToken("")];
    assert r.value.values == [zero];
    assert r.value.stack == [];
    assert r.value.buffer == [Ptr(0), Null, Null, Null];
    assert r.value.order == [];
  }

  lemma CarriedFinish<N>(num: string -> Option<N>, zero: N, n5: N)
    requires num("5") == Some(n5) && num("") == None
    requires WellFormed(CarriedState2(zero, n5))
    ensures Finish(CarriedState2(zero, n5), SpacedSource, num, zero) == Ok(CarriedState3(zero, n5))
  {
    var s := CarriedState2(zero, n5);
    assert SpacedSource[1..2] == "5";
    var h1 := EndOperand(s, SpacedSource, 2, num, zero);
    assert h1.value.tokens == [VariableToken(""), NumberToken];
    assert h1.value.values == [zero, n5];
    assert h1.value.stack == [];
    assert h1.value.buffer == [Ptr(0), Ptr(1), Null, Null];
    assert h1.value.order == [];
    var h2 := BindLast(h1.value);
    assert h2.value.tokens == [VariableToken(""), NumberToken];
    assert h2.value.values == [zero, n5];
    assert h2.value.stack == [];
    assert h2.value.buffer == [Ptr(0), Ptr(1), Null, Null];
    assert h2.value.order == [];
    var r := Finish(s, SpacedSource, num, zero);
    assert r.value.tokens == [VariableToken(""), NumberToken];
    assert r.value.values == [zero, n5];
    assert r.value.stack == [];
    assert r.value.buffer == [Ptr(0), Ptr(1), Null, Null];
    assert r.value.order == [];
  }

  lemma CarriedRun<N>(num: string -> Option<N>, zero: N, n5: N)
    requires num("5") == Some(n5) && num("") == None
    ensures Run(SpacedSource, num, zero, true, 0) == Ok(CarriedState3(zero, n5))
  {
    CarriedStep1(num, zero, n5);
    ScanFromStep(Initial<N>(true, 0), SpacedSource, 0, num, zero, CarriedState1(zero, n5));
    CarriedStep2(num, zero, n5);
    ScanFromStep(CarriedState1(zero, n5), SpacedSource, 1, num, zero, CarriedState2(zero, n5));
    CarriedFinish(num, zero, n5);
  }

}
