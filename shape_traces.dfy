/**
 * Step-by-step traces of the parser on the simplest formula shapes: one
 * operator, two operators of different priority, two operators of the same
 * priority, and a bracket that is never opened or never closed. The
 * statements about what these formulas compute are in FormulaShapes.
 */
module ShapeTraces {
  import opened Wrappers
  import opened ExpressionTokens
  import opened ParseSteps

  /** One operator of each kind between the variable and a number. */
  const SumSource: string := "x+2"
  const DifferenceSource: string := "x-2"
  const ProductSource: string := "x*2"
  const QuotientSource: string := "x/2"
  /** A lower-priority operator followed by a higher-priority one. */
  const SumOfProductSource: string := "x+2*3"
  /** A higher-priority operator followed by a lower-priority one. */
  const ProductThenSumSource: string := "x*2+3"
  /** Two operators of the same priority. */
  const DifferencesSource: string := "x-2-3"
  const QuotientsSource: string := "x/2/3"
  /** A closing bracket with no opening one. */
  const UnopenedSource: string := "x+1)"
  /** An opening bracket with no closing one. */
  const UnclosedSource: string := "(x+1"

  /** Number recognition: "x" is a name and `t` reads as `n`. */
  ghost predicate OperandNumbers<N>(num: string -> Option<N>, t: string, n: N)
  {
    num("x") == None && num(t) == Some(n)
  }

  /** Number recognition: "x" is a name, "2" reads as `n2` and "3" as `n3`. */
  ghost predicate TwoOperandNumbers<N>(num: string -> Option<N>, n2: N, n3: N)
  {
    num("x") == None && num("2") == Some(n2) && num("3") == Some(n3)
  }

  /** The state after the name "x" that opens a formula. */
  function NameState<N>(): ParserState<N>
  {
    ParserState([], [], map[], [], [Null, Null, Null, Null], 0, true, 0, Null, Null, [])
  }

  /** The name "x" closed: the variable is interned and buffered. */
  function NamedState<N>(zero: N): ParserState<N>
  {
    ParserState([VariableToken("x")], [zero], map["x" := 0], [], [Ptr(0), Null, Null, Null], 1, false, 0, Null, Null, [])
  }

  /** The name "x" followed by the operator `c`: the variable and the new operator are buffered. */
  function NamedOperatorState<N>(zero: N, c: char): ParserState<N>
  {
    ParserState([VariableToken("x"), NewExpression(c)], [zero, zero], map["x" := 0], [], [Ptr(0), Ptr(1), Null, Null], 2, false, 0, Null, Ptr(1), [])
  }

  /** Ending the opening name "x" interns it as the first token and puts it in the first buffer slot. */
  lemma NameEnds<N>(src: string, num: string -> Option<N>, zero: N)
    requires 1 < |src| && src[..1] == "x" && num("x") == None
    ensures EndOperand(NameState(), src, 1, num, zero) == Ok(NamedState(zero))
  {
    var s: ParserState<N> := NameState();
    assert src[s.start..1] == "x";
    var (s1, operand) := Intern(s, "x", num, zero);
    assert s1.tokens == [VariableToken("x")] && s1.values == [zero] && s1.operands == map["x" := 0] && operand == 0;
    assert s1.(buffer := s1.buffer[0 := Ptr(0)], count := 1, inOperand := false) == NamedState(zero);
  }

  /** An operator right after the opening name "x" closes the name and is buffered after it. */
  lemma NameThenOperator<N>(src: string, num: string -> Option<N>, zero: N)
    requires 1 < |src| && src[..1] == "x" && num("x") == None && IsOperatorSymbol(src[1])
    ensures CharStep(NameState(), src, 1, num, zero) == Ok(NamedOperatorState(zero, src[1]))
  {
    NameEnds(src, num, zero);
    OperatorChar(NameState(), src, 1, num, zero, NamedState(zero));
    var c := src[1];
    var h := Enqueue(NamedState(zero), c, zero);
    assert h.tokens == [VariableToken("x"), NewExpression(c)];
    assert h.values == [zero, zero];
    assert h.buffer == [Ptr(0), Ptr(1), Null, Null];
    assert h.(count := 2) == NamedOperatorState(zero, c);
    assert Operator(NamedState(zero), c, zero) == Ok(h.(count := 2));
  }

  function SumState1<N>(zero: N, n2: N): ParserState<N> {
    ParserState([], [], map[], [], [Null, Null, Null, Null], 0, true, 0, Null, Null, [])
  }

  function SumState2<N>(zero: N, n2: N): ParserState<N> {
    ParserState([VariableToken("x"), ExpressionToken(Plus, 1, Null, Null)], [zero, zero], map["x" := 0], [], [Ptr(0), Ptr(1), Null, Null], 2, false, 0, Null, Ptr(1), [])
  }

  function SumState3<N>(zero: N, n2: N): ParserState<N> {
    ParserState([VariableToken("x"), ExpressionToken(Plus, 1, Null, Null)], [zero, zero], map["x" := 0], [], [Ptr(0), Ptr(1), Null, Null], 2, true, 2, Null, Ptr(1), [])
  }

  function SumState4<N>(zero: N, n2: N): ParserState<N> {
    ParserState([VariableToken("x"), ExpressionToken(Plus, 1, Ptr(0), Ptr(2)), NumberToken], [zero, zero, n2], map["x" := 0], [], [Ptr(0), Ptr(1), Ptr(2), Null], 3, false, 2, Null, Ptr(1), [1])
  }

  lemma SumStep1<N>(num: string -> Option<N>, zero: N, n2: N)
    requires OperandNumbers(num, "2", n2)
    requires WellFormed(Initial<N>(false, -1))
    ensures CharStep(Initial<N>(false, -1), SumSource, 0, num, zero) == Ok(SumState1(zero, n2))
  {
    assert SumSource[0] == 'x';
    var s := Initial<N>(false, -1);
    var r := CharStep(s, SumSource, 0, num, zero);
    assert r.value.tokens == [];
    assert r.value.values == [];
    assert r.value.stack == [];
    assert r.value.buffer == [Null, Null, Null, Null];
    assert r.value.order == [];
  }

  lemma SumStep2<N>(num: string -> Option<N>, zero: N, n2: N)
    requires OperandNumbers(num, "2", n2)
    requires WellFormed(SumState1(zero, n2))
    ensures CharStep(SumState1(zero, n2), SumSource, 1, num, zero) == Ok(SumState2(zero, n2))
  {
    assert SumSource[1] == '+' && SumSource[..1] == "x";
    NameThenOperator(SumSource, num, zero);
    assert NewExpression('+') == ExpressionToken(Plus, 1, Null, Null);
  }

  lemma SumStep3<N>(num: string -> Option<N>, zero: N, n2: N)
    requires OperandNumbers(num, "2", n2)
    requires WellFormed(SumState2(zero, n2))
    ensures CharStep(SumState2(zero, n2), SumSource, 2, num, zero) == Ok(SumState3(zero, n2))
  {
    assert SumSource[2] == '2';
    var s := SumState2(zero, n2);
    var r := CharStep(s, SumSource, 2, num, zero);
    assert r.value.tokens == [VariableToken("x"), ExpressionToken(Plus, 1, Null, Null)];
    assert r.value.values == [zero, zero];
    assert r.value.stack == [];
    assert r.value.buffer == [Ptr(0), Ptr(1), Null, Null];
    assert r.value.order == [];
  }

  lemma SumFinish<N>(num: string -> Option<N>, zero: N, n2: N)
    requires OperandNumbers(num, "2", n2)
    requires WellFormed(SumState3(zero, n2))
    ensures Finish(SumState3(zero, n2), SumSource, num, zero) == Ok(SumState4(zero, n2))
  {
    var s := SumState3(zero, n2);
    assert SumSource[2..3] == "2";
    var h1 := EndOperand(s, SumSource, 3, num, zero);
    assert h1.value.tokens == [VariableToken("x"), ExpressionToken(Plus, 1, Null, Null), NumberToken];
    assert h1.value.values == [zero, zero, n2];
    assert h1.value.stack == [];
    assert h1.value.buffer == [Ptr(0), Ptr(1), Ptr(2), Null];
    assert h1.value.order == [];
    var h2 := BindLast(h1.value);
    assert h2.value.tokens == [VariableToken("x"), ExpressionToken(Plus, 1, Ptr(0), Ptr(2)), NumberToken];
    assert h2.value.values == [zero, zero, n2];
    assert h2.value.stack == [];
    assert h2.value.buffer == [Ptr(0), Ptr(1), Ptr(2), Null];
    assert h2.value.order == [1];
    var r := Finish(s, SumSource, num, zero);
    assert r.value.tokens == [VariableToken("x"), ExpressionToken(Plus, 1, Ptr(0), Ptr(2)), NumberToken];
    assert r.value.values == [zero, zero, n2];
    assert r.value.stack == [];
    assert r.value.buffer == [Ptr(0), Ptr(1), Ptr(2), Null];
    assert r.value.order == [1];
  }

  lemma SumRun<N>(num: string -> Option<N>, zero: N, n2: N)
    requires OperandNumbers(num, "2", n2)
    ensures Run(SumSource, num, zero, false, -1) == Ok(SumState4(zero, n2))
  {
    SumStep1(num, zero, n2);
    ScanFromStep(Initial<N>(false, -1), SumSource, 0, num, zero, SumState1(zero, n2));
    SumStep2(num, zero, n2);
    ScanFromStep(SumState1(zero, n2), SumSource, 1, num, zero, SumState2(zero, n2));
    SumStep3(num, zero, n2);
    ScanFromStep(SumState2(zero, n2), SumSource, 2, num, zero, SumState3(zero, n2));
    SumFinish(num, zero, n2);
  }

  function DifferenceState1<N>(zero: N, n2: N): ParserState<N> {
    ParserState([], [], map[], [], [Null, Null, Null, Null], 0, true, 0, Null, Null, [])
  }

  function DifferenceState2<N>(zero: N, n2: N): ParserState<N> {
    ParserState([VariableToken("x"), ExpressionToken(Minus, 1, Null, Null)], [zero, zero], map["x" := 0], [], [Ptr(0), Ptr(1), Null, Null], 2, false, 0, Null, Ptr(1), [])
  }

  function DifferenceState3<N>(zero: N, n2: N): ParserState<N> {
    ParserState([VariableToken("x"), ExpressionToken(Minus, 1, Null, Null)], [zero, zero], map["x" := 0], [], [Ptr(0), Ptr(1), Null, Null], 2, true, 2, Null, Ptr(1), [])
  }

  function DifferenceState4<N>(zero: N, n2: N): ParserState<N> {
    ParserState([VariableToken("x"), ExpressionToken(Minus, 1, Ptr(0), Ptr(2)), NumberToken], [zero, zero, n2], map["x" := 0], [], [Ptr(0), Ptr(1), Ptr(2), Null], 3, false, 2, Null, Ptr(1), [1])
  }

  lemma DifferenceStep1<N>(num: string -> Option<N>, zero: N, n2: N)
    requires OperandNumbers(num, "2", n2)
    requires WellFormed(Initial<N>(false, -1))
    ensures CharStep(Initial<N>(false, -1), DifferenceSource, 0, num, zero) == Ok(DifferenceState1(zero, n2))
  {
    assert DifferenceSource[0] == 'x';
    var s := Initial<N>(false, -1);
    var r := CharStep(s, DifferenceSource, 0, num, zero);
    assert r.value.tokens == [];
    assert r.value.values == [];
    assert r.value.stack == [];
    assert r.value.buffer == [Null, Null, Null, Null];
    assert r.value.order == [];
  }

  lemma DifferenceStep2<N>(num: string -> Option<N>, zero: N, n2: N)
    requires OperandNumbers(num, "2", n2)
    requires WellFormed(DifferenceState1(zero, n2))
    ensures CharStep(DifferenceState1(zero, n2), DifferenceSource, 1, num, zero) == Ok(DifferenceState2(zero, n2))
  {
    assert DifferenceSource[1] == '-' && DifferenceSource[..1] == "x";
    NameThenOperator(DifferenceSource, num, zero);
    assert NewExpression('-') == ExpressionToken(Minus, 1, Null, Null);
  }

  lemma DifferenceStep3<N>(num: string -> Option<N>, zero: N, n2: N)
    requires OperandNumbers(num, "2", n2)
    requires WellFormed(DifferenceState2(zero, n2))
    ensures CharStep(DifferenceState2(zero, n2), DifferenceSource, 2, num, zero) == Ok(DifferenceState3(zero, n2))
  {
    assert DifferenceSource[2] == '2';
    var s := DifferenceState2(zero, n2);
    var r := CharStep(s, DifferenceSource, 2, num, zero);
    assert r.value.tokens == [VariableToken("x"), ExpressionToken(Minus, 1, Null, Null)];
    assert r.value.values == [zero, zero];
    assert r.value.stack == [];
    assert r.value.buffer == [Ptr(0), Ptr(1), Null, Null];
    assert r.value.order == [];
  }

  lemma DifferenceFinish<N>(num: string -> Option<N>, zero: N, n2: N)
    requires OperandNumbers(num, "2", n2)
    requires WellFormed(DifferenceState3(zero, n2))
    ensures Finish(DifferenceState3(zero, n2), DifferenceSource, num, zero) == Ok(DifferenceState4(zero, n2))
  {
    var s := DifferenceState3(zero, n2);
    assert DifferenceSource[2..3] == "2";
    var h1 := EndOperand(s, DifferenceSource, 3, num, zero);
    assert h1.value.tokens == [VariableToken("x"), ExpressionToken(Minus, 1, Null, Null), NumberToken];
    assert h1.value.values == [zero, zero, n2];
    assert h1.value.stack == [];
    assert h1.value.buffer == [Ptr(0), Ptr(1), Ptr(2), Null];
    assert h1.value.order == [];
    var h2 := BindLast(h1.value);
    assert h2.value.tokens == [VariableToken("x"), ExpressionToken(Minus, 1, Ptr(0), Ptr(2)), NumberToken];
    assert h2.value.values == [zero, zero, n2];
    assert h2.value.stack == [];
    assert h2.value.buffer == [Ptr(0), Ptr(1), Ptr(2), Null];
    assert h2.value.order == [1];
    var r := Finish(s, DifferenceSource, num, zero);
    assert r.value.tokens == [VariableToken("x"), ExpressionToken(Minus, 1, Ptr(0), Ptr(2)), NumberToken];
    assert r.value.values == [zero, zero, n2];
    assert r.value.stack == [];
    assert r.value.buffer == [Ptr(0), Ptr(1), Ptr(2), Null];
    assert r.value.order == [1];
  }

  lemma DifferenceRun<N>(num: string -> Option<N>, zero: N, n2: N)
    requires OperandNumbers(num, "2", n2)
    ensures Run(DifferenceSource, num, zero, false, -1) == Ok(DifferenceState4(zero, n2))
  {
    DifferenceStep1(num, zero, n2);
    ScanFromStep(Initial<N>(false, -1), DifferenceSource, 0, num, zero, DifferenceState1(zero, n2));
    DifferenceStep2(num, zero, n2);
    ScanFromStep(DifferenceState1(zero, n2), DifferenceSource, 1, num, zero, DifferenceState2(zero, n2));
    DifferenceStep3(num, zero, n2);
    ScanFromStep(DifferenceState2(zero, n2), DifferenceSource, 2, num, zero, DifferenceState3(zero, n2));
    DifferenceFinish(num, zero, n2);
  }

  function ProductState1<N>(zero: N, n2: N): ParserState<N> {
    ParserState([], [], map[], [], [Null, Null, Null, Null], 0, true, 0, Null, Null, [])
  }

  function ProductState2<N>(zero: N, n2: N): ParserState<N> {
    ParserState([VariableToken("x"), ExpressionToken(Mul, 2, Null, Null)], [zero, zero], map["x" := 0], [], [Ptr(0), Ptr(1), Null, Null], 2, false, 0, Null, Ptr(1), [])
  }

  function ProductState3<N>(zero: N, n2: N): ParserState<N> {
    ParserState([VariableToken("x"), ExpressionToken(Mul, 2, Null, Null)], [zero, zero], map["x" := 0], [], [Ptr(0), Ptr(1), Null, Null], 2, true, 2, Null, Ptr(1), [])
  }

  function ProductState4<N>(zero: N, n2: N): ParserState<N> {
    ParserState([VariableToken("x"), ExpressionToken(Mul, 2, Ptr(0), Ptr(2)), NumberToken], [zero, zero, n2], map["x" := 0], [], [Ptr(0), Ptr(1), Ptr(2), Null], 3, false, 2, Null, Ptr(1), [1])
  }

  lemma ProductStep1<N>(num: string -> Option<N>, zero: N, n2: N)
    requires OperandNumbers(num, "2", n2)
    requires WellFormed(Initial<N>(false, -1))
    ensures CharStep(Initial<N>(false, -1), ProductSource, 0, num, zero) == Ok(ProductState1(zero, n2))
  {
    assert ProductSource[0] == 'x';
    var s := Initial<N>(false, -1);
    var r := CharStep(s, ProductSource, 0, num, zero);
    assert r.value.tokens == [];
    assert r.value.values == [];
    assert r.value.stack == [];
    assert r.value.buffer == [Null, Null, Null, Null];
    assert r.value.order == [];
  }

  lemma ProductStep2<N>(num: string -> Option<N>, zero: N, n2: N)
    requires OperandNumbers(num, "2", n2)
    requires WellFormed(ProductState1(zero, n2))
    ensures CharStep(ProductState1(zero, n2), ProductSource, 1, num, zero) == Ok(ProductState2(zero, n2))
  {
    assert ProductSource[1] == '*' && ProductSource[..1] == "x";
    NameThenOperator(ProductSource, num, zero);
    assert NewExpression('*') == ExpressionToken(Mul, 2, Null, Null);
  }

  lemma ProductStep3<N>(num: string -> Option<N>, zero: N, n2: N)
    requires OperandNumbers(num, "2", n2)
    requires WellFormed(ProductState2(zero, n2))
    ensures CharStep(ProductState2(zero, n2), ProductSource, 2, num, zero) == Ok(ProductState3(zero, n2))
  {
    assert ProductSource[2] == '2';
    var s := ProductState2(zero, n2);
    var r := CharStep(s, ProductSource, 2, num, zero);
    assert r.value.tokens == [VariableToken("x"), ExpressionToken(Mul, 2, Null, Null)];
    assert r.value.values == [zero, zero];
    assert r.value.stack == [];
    assert r.value.buffer == [Ptr(0), Ptr(1), Null, Null];
    assert r.value.order == [];
  }

  lemma ProductFinish<N>(num: string -> Option<N>, zero: N, n2: N)
    requires OperandNumbers(num, "2", n2)
    requires WellFormed(ProductState3(zero, n2))
    ensures Finish(ProductState3(zero, n2), ProductSource, num, zero) == Ok(ProductState4(zero, n2))
  {
    var s := ProductState3(zero, n2);
    assert ProductSource[2..3] == "2";
    var h1 := EndOperand(s, ProductSource, 3, num, zero);
    assert h1.value.tokens == [VariableToken("x"), ExpressionToken(Mul, 2, Null, Null), NumberToken];
    assert h1.value.values == [zero, zero, n2];
    assert h1.value.stack == [];
    assert h1.value.buffer == [Ptr(0), Ptr(1), Ptr(2), Null];
    assert h1.value.order == [];
    var h2 := BindLast(h1.value);
    assert h2.value.tokens == [VariableToken("x"), ExpressionToken(Mul, 2, Ptr(0), Ptr(2)), NumberToken];
    assert h2.value.values == [zero, zero, n2];
    assert h2.value.stack == [];
    assert h2.value.buffer == [Ptr(0), Ptr(1), Ptr(2), Null];
    assert h2.value.order == [1];
    var r := Finish(s, ProductSource, num, zero);
    assert r.value.tokens == [VariableToken("x"), ExpressionToken(Mul, 2, Ptr(0), Ptr(2)), NumberToken];
    assert r.value.values == [zero, zero, n2];
    assert r.value.stack == [];
    assert r.value.buffer == [Ptr(0), Ptr(1), Ptr(2), Null];
    assert r.value.order == [1];
  }

  lemma ProductRun<N>(num: string -> Option<N>, zero: N, n2: N)
    requires OperandNumbers(num, "2", n2)
    ensures Run(ProductSource, num, zero, false, -1) == Ok(ProductState4(zero, n2))
  {
    ProductStep1(num, zero, n2);
    ScanFromStep(Initial<N>(false, -1), ProductSource, 0, num, zero, ProductState1(zero, n2));
    ProductStep2(num, zero, n2);
    ScanFromStep(ProductState1(zero, n2), ProductSource, 1, num, zero, ProductState2(zero, n2));
    ProductStep3(num, zero, n2);
    ScanFromStep(ProductState2(zero, n2), ProductSource, 2, num, zero, ProductState3(zero, n2));
    ProductFinish(num, zero, n2);
  }

  function QuotientState1<N>(zero: N, n2: N): ParserState<N> {
    ParserState([], [], map[], [], [Null, Null, Null, Null], 0, true, 0, Null, Null, [])
  }

  function QuotientState2<N>(zero: N, n2: N): ParserState<N> {
    ParserState([VariableToken("x"), ExpressionToken(Div, 2, Null, Null)], [zero, zero], map["x" := 0], [], [Ptr(0), Ptr(1), Null, Null], 2, false, 0, Null, Ptr(1), [])
  }

  function QuotientState3<N>(zero: N, n2: N): ParserState<N> {
    ParserState([VariableToken("x"), ExpressionToken(Div, 2, Null, Null)], [zero, zero], map["x" := 0], [], [Ptr(0), Ptr(1), Null, Null], 2, true, 2, Null, Ptr(1), [])
  }

  function QuotientState4<N>(zero: N, n2: N): ParserState<N> {
    ParserState([VariableToken("x"), ExpressionToken(Div, 2, Ptr(0), Ptr(2)), NumberToken], [zero, zero, n2], map["x" := 0], [], [Ptr(0), Ptr(1), Ptr(2), Null], 3, false, 2, Null, Ptr(1), [1])
  }

  lemma QuotientStep1<N>(num: string -> Option<N>, zero: N, n2: N)
    requires OperandNumbers(num, "2", n2)
    requires WellFormed(Initial<N>(false, -1))
    ensures CharStep(Initial<N>(false, -1), QuotientSource, 0, num, zero) == Ok(QuotientState1(zero, n2))
  {
    assert QuotientSource[0] == 'x';
    var s := Initial<N>(false, -1);
    var r := CharStep(s, QuotientSource, 0, num, zero);
    assert r.value.tokens == [];
    assert r.value.values == [];
    assert r.value.stack == [];
    assert r.value.buffer == [Null, Null, Null, Null];
    assert r.value.order == [];
  }

  lemma QuotientStep2<N>(num: string -> Option<N>, zero: N, n2: N)
    requires OperandNumbers(num, "2", n2)
    requires WellFormed(QuotientState1(zero, n2))
    ensures CharStep(QuotientState1(zero, n2), QuotientSource, 1, num, zero) == Ok(QuotientState2(zero, n2))
  {
    assert QuotientSource[1] == '/' && QuotientSource[..1] == "x";
    NameThenOperator(QuotientSource, num, zero);
    assert NewExpression('/') == ExpressionToken(Div, 2, Null, Null);
  }

  lemma QuotientStep3<N>(num: string -> Option<N>, zero: N, n2: N)
    requires OperandNumbers(num, "2", n2)
    requires WellFormed(QuotientState2(zero, n2))
    ensures CharStep(QuotientState2(zero, n2), QuotientSource, 2, num, zero) == Ok(QuotientState3(zero, n2))
  {
    assert QuotientSource[2] == '2';
    var s := QuotientState2(zero, n2);
    var r := CharStep(s, QuotientSource, 2, num, zero);
    assert r.value.tokens == [VariableToken("x"), ExpressionToken(Div, 2, Null, Null)];
    assert r.value.values == [zero, zero];
    assert r.value.stack == [];
    assert r.value.buffer == [Ptr(0), Ptr(1), Null, Null];
    assert r.value.order == [];
  }

  lemma QuotientFinish<N>(num: string -> Option<N>, zero: N, n2: N)
    requires OperandNumbers(num, "2", n2)
    requires WellFormed(QuotientState3(zero, n2))
    ensures Finish(QuotientState3(zero, n2), QuotientSource, num, zero) == Ok(QuotientState4(zero, n2))
  {
    var s := QuotientState3(zero, n2);
    assert QuotientSource[2..3] == "2";
    var h1 := EndOperand(s, QuotientSource, 3, num, zero);
    assert h1.value.tokens == [VariableToken("x"), ExpressionToken(Div, 2, Null, Null), NumberToken];
    assert h1.value.values == [zero, zero, n2];
    assert h1.value.stack == [];
    assert h1.value.buffer == [Ptr(0), Ptr(1), Ptr(2), Null];
    assert h1.value.order == [];
    var h2 := BindLast(h1.value);
    assert h2.value.tokens == [VariableToken("x"), ExpressionToken(Div, 2, Ptr(0), Ptr(2)), NumberToken];
    assert h2.value.values == [zero, zero, n2];
    assert h2.value.stack == [];
    assert h2.value.buffer == [Ptr(0), Ptr(1), Ptr(2), Null];
    assert h2.value.order == [1];
    var r := Finish(s, QuotientSource, num, zero);
    assert r.value.tokens == [VariableToken("x"), ExpressionToken(Div, 2, Ptr(0), Ptr(2)), NumberToken];
    assert r.value.values == [zero, zero, n2];
    assert r.value.stack == [];
    assert r.value.buffer == [Ptr(0), Ptr(1), Ptr(2), Null];
    assert r.value.order == [1];
  }

  lemma QuotientRun<N>(num: string -> Option<N>, zero: N, n2: N)
    requires OperandNumbers(num, "2", n2)
    ensures Run(QuotientSource, num, zero, false, -1) == Ok(QuotientState4(zero, n2))
  {
    QuotientStep1(num, zero, n2);
    ScanFromStep(Initial<N>(false, -1), QuotientSource, 0, num, zero, QuotientState1(zero, n2));
    QuotientStep2(num, zero, n2);
    ScanFromStep(QuotientState1(zero, n2), QuotientSource, 1, num, zero, QuotientState2(zero, n2));
    QuotientStep3(num, zero, n2);
    ScanFromStep(QuotientState2(zero, n2), QuotientSource, 2, num, zero, QuotientState3(zero, n2));
    QuotientFinish(num, zero, n2);
  }

  function SumOfProductState1<N>(zero: N, n2: N, n3: N): ParserState<N> {
    ParserState([], [], map[], [], [Null, Null, Null, Null], 0, true, 0, Null, Null, [])
  }

  function SumOfProductState2<N>(zero: N, n2: N, n3: N): ParserState<N> {
    ParserState([VariableToken("x"), ExpressionToken(Plus, 1, Null, Null)], [zero, zero], map["x" := 0], [], [Ptr(0), Ptr(1), Null, Null], 2, false, 0, Null, Ptr(1), [])
  }

  function SumOfProductState3<N>(zero: N, n2: N, n3: N): ParserState<N> {
    ParserState([VariableToken("x"), ExpressionToken(Plus, 1, Null, Null)], [zero, zero], map["x" := 0], [], [Ptr(0), Ptr(1), Null, Null], 2, true, 2, Null, Ptr(1), [])
  }

  function SumOfProductState4<N>(zero: N, n2: N, n3: N): ParserState<N> {
    ParserState([VariableToken("x"), ExpressionToken(Plus, 1, Ptr(0), Ptr(3)), NumberToken, ExpressionToken(Mul, 2, Null, Null)], [zero, zero, n2, zero], map["x" := 0], [1], [Ptr(2), Ptr(3), Ptr(2), Ptr(3)], 2, false, 2, Ptr(1), Ptr(3), [])
  }

  function SumOfProductState5<N>(zero: N, n2: N, n3: N): ParserState<N> {
    ParserState([VariableToken("x"), ExpressionToken(Plus, 1, Ptr(0), Ptr(3)), NumberToken, ExpressionToken(Mul, 2, Null, Null)], [zero, zero, n2, zero], map["x" := 0], [1], [Ptr(2), Ptr(3), Ptr(2), Ptr(3)], 2, true, 4, Ptr(1), Ptr(3), [])
  }

  function SumOfProductState6<N>(zero: N, n2: N, n3: N): ParserState<N> {
    ParserState([VariableToken("x"), ExpressionToken(Plus, 1, Ptr(0), Ptr(3)), NumberToken, ExpressionToken(Mul, 2, Ptr(2), Ptr(4)), NumberToken], [zero, zero, n2, zero, n3], map["x" := 0], [], [Ptr(2), Ptr(3), Ptr(4), Ptr(3)], 3, false, 4, Ptr(1), Ptr(1), [3, 1])
  }

  lemma SumOfProductStep1<N>(num: string -> Option<N>, zero: N, n2: N, n3: N)
    requires TwoOperandNumbers(num, n2, n3)
    requires WellFormed(Initial<N>(false, -1))
    ensures CharStep(Initial<N>(false, -1), SumOfProductSource, 0, num, zero) == Ok(SumOfProductState1(zero, n2, n3))
  {
    assert SumOfProductSource[0] == 'x';
    var s := Initial<N>(false, -1);
    var r := CharStep(s, SumOfProductSource, 0, num, zero);
    assert r.value.tokens == [];
    assert r.value.values == [];
    assert r.value.stack == [];
    assert r.value.buffer == [Null, Null, Null, Null];
    assert r.value.order == [];
  }

  lemma SumOfProductStep2<N>(num: string -> Option<N>, zero: N, n2: N, n3: N)
    requires TwoOperandNumbers(num, n2, n3)
    requires WellFormed(SumOfProductState1(zero, n2, n3))
    ensures CharStep(SumOfProductState1(zero, n2, n3), SumOfProductSource, 1, num, zero) == Ok(SumOfProductState2(zero, n2, n3))
  {
    assert SumOfProductSource[1] == '+' && SumOfProductSource[..1] == "x";
    NameThenOperator(SumOfProductSource, num, zero);
    assert NewExpression('+') == ExpressionToken(Plus, 1, Null, Null);
  }

  lemma SumOfProductStep3<N>(num: string -> Option<N>, zero: N, n2: N, n3: N)
    requires TwoOperandNumbers(num, n2, n3)
    requires WellFormed(SumOfProductState2(zero, n2, n3))
    ensures CharStep(SumOfProductState2(zero, n2, n3), SumOfProductSource, 2, num, zero) == Ok(SumOfProductState3(zero, n2, n3))
  {
    assert SumOfProductSource[2] == '2';
    var s := SumOfProductState2(zero, n2, n3);
    var r := CharStep(s, SumOfProductSource, 2, num, zero);
    assert r.value.tokens == [VariableToken("x"), ExpressionToken(Plus, 1, Null, Null)];
    assert r.value.values == [zero, zero];
    assert r.value.stack == [];
    assert r.value.buffer == [Ptr(0), Ptr(1), Null, Null];
    assert r.value.order == [];
  }

  lemma SumOfProductStep4<N>(num: string -> Option<N>, zero: N, n2: N, n3: N)
    requires TwoOperandNumbers(num, n2, n3)
    requires WellFormed(SumOfProductState3(zero, n2, n3))
    ensures CharStep(SumOfProductState3(zero, n2, n3), SumOfProductSource, 3, num, zero) == Ok(SumOfProductState4(zero, n2, n3))
  {
    assert SumOfProductSource[3] == '*';
    var s := SumOfProductState3(zero, n2, n3);
    assert SumOfProductSource[2..3] == "2";
    var h1 := EndOperand(s, SumOfProductSource, 3, num, zero);
    assert h1.value.tokens == [VariableToken("x"), ExpressionToken(Plus, 1, Null, Null), NumberToken];
    assert h1.value.values == [zero, zero, n2];
    assert h1.value.stack == [];
    assert h1.value.buffer == [Ptr(0), Ptr(1), Ptr(2), Null];
    assert h1.value.order == [];
    OperatorChar(s, SumOfProductSource, 3, num, zero, h1.value);
    var h2 := Enqueue(h1.value, '*', zero);
    assert h2.tokens == [VariableToken("x"), ExpressionToken(Plus, 1, Null, Null), NumberToken, ExpressionToken(Mul, 2, Null, Null)];
    assert h2.values == [zero, zero, n2, zero];
    assert h2.stack == [];
    assert h2.buffer == [Ptr(0), Ptr(1), Ptr(2), Ptr(3)];
    assert h2.order == [];
    var r := Operator(h1.value, '*', zero);
    assert r.value.tokens == [VariableToken("x"), ExpressionToken(Plus, 1, Ptr(0), Ptr(3)), NumberToken, ExpressionToken(Mul, 2, Null, Null)];
    assert r.value.values == [zero, zero, n2, zero];
    assert r.value.stack == [1];
    assert r.value.buffer == [Ptr(2), Ptr(3), Ptr(2), Ptr(3)];
    assert r.value.order == [];
  }

  lemma SumOfProductStep5<N>(num: string -> Option<N>, zero: N, n2: N, n3: N)
    requires TwoOperandNumbers(num, n2, n3)
    requires WellFormed(SumOfProductState4(zero, n2, n3))
    ensures CharStep(SumOfProductState4(zero, n2, n3), SumOfProductSource, 4, num, zero) == Ok(SumOfProductState5(zero, n2, n3))
  {
    assert SumOfProductSource[4] == '3';
    var s := SumOfProductState4(zero, n2, n3);
    var r := CharStep(s, SumOfProductSource, 4, num, zero);
    assert r.value.tokens == [VariableToken("x"), ExpressionToken(Plus, 1, Ptr(0), Ptr(3)), NumberToken, ExpressionToken(Mul, 2, Null, Null)];
    assert r.value.values == [zero, zero, n2, zero];
    assert r.value.stack == [1];
    assert r.value.buffer == [Ptr(2), Ptr(3), Ptr(2), Ptr(3)];
    assert r.value.order == [];
  }

  lemma SumOfProductFinish<N>(num: string -> Option<N>, zero: N, n2: N, n3: N)
    requires TwoOperandNumbers(num, n2, n3)
    requires WellFormed(SumOfProductState5(zero, n2, n3))
    ensures Finish(SumOfProductState5(zero, n2, n3), SumOfProductSource, num, zero) == Ok(SumOfProductState6(zero, n2, n3))
  {
    var s := SumOfProductState5(zero, n2, n3);
    assert SumOfProductSource[4..5] == "3";
    var h1 := EndOperand(s, SumOfProductSource, 5, num, zero);
    assert h1.value.tokens == [VariableToken("x"), ExpressionToken(Plus, 1, Ptr(0), Ptr(3)), NumberToken, ExpressionToken(Mul, 2, Null, Null), NumberToken];
    assert h1.value.values == [zero, zero, n2, zero, n3];
    assert h1.value.stack == [1];
    assert h1.value.buffer == [Ptr(2), Ptr(3), Ptr(4), Ptr(3)];
    assert h1.value.order == [];
    var h2 := BindLast(h1.value);
    assert h2.value.tokens == [VariableToken("x"), ExpressionToken(Plus, 1, Ptr(0), Ptr(3)), NumberToken, ExpressionToken(Mul, 2, Ptr(2), Ptr(4)), NumberToken];
    assert h2.value.values == [zero, zero, n2, zero, n3];
    assert h2.value.stack == [1];
    assert h2.value.buffer == [Ptr(2), Ptr(3), Ptr(4), Ptr(3)];
    assert h2.value.order == [3];
    var h3 := DrainStep(h2.value);
    assert h3.tokens == [VariableToken("x"), ExpressionToken(Plus, 1, Ptr(0), Ptr(3)), NumberToken, ExpressionToken(Mul, 2, Ptr(2), Ptr(4)), NumberToken];
    assert h3.values == [zero, zero, n2, zero, n3];
    assert h3.stack == [];
    assert h3.buffer == [Ptr(2), Ptr(3), Ptr(4), Ptr(3)];
    assert h3.order == [3, 1];
    assert Drain(h2.value) == Drain(h3);
    var r := Finish(s, SumOfProductSource, num, zero);
    assert r.value.tokens == [VariableToken("x"), ExpressionToken(Plus, 1, Ptr(0), Ptr(3)), NumberToken, ExpressionToken(Mul, 2, Ptr(2), Ptr(4)), NumberToken];
    assert r.value.values == [zero, zero, n2, zero, n3];
    assert r.value.stack == [];
    assert r.value.buffer == [Ptr(2), Ptr(3), Ptr(4), Ptr(3)];
    assert r.value.order == [3, 1];
  }

  lemma SumOfProductRun<N>(num: string -> Option<N>, zero: N, n2: N, n3: N)
    requires TwoOperandNumbers(num, n2, n3)
    ensures Run(SumOfProductSource, num, zero, false, -1) == Ok(SumOfProductState6(zero, n2, n3))
  {
    SumOfProductStep1(num, zero, n2, n3);
    ScanFromStep(Initial<N>(false, -1), SumOfProductSource, 0, num, zero, SumOfProductState1(zero, n2, n3));
    SumOfProductStep2(num, zero, n2, n3);
    ScanFromStep(SumOfProductState1(zero, n2, n3), SumOfProductSource, 1, num, zero, SumOfProductState2(zero, n2, n3));
    SumOfProductStep3(num, zero, n2, n3);
    ScanFromStep(SumOfProductState2(zero, n2, n3), SumOfProductSource, 2, num, zero, SumOfProductState3(zero, n2, n3));
    SumOfProductStep4(num, zero, n2, n3);
    ScanFromStep(SumOfProductState3(zero, n2, n3), SumOfProductSource, 3, num, zero, SumOfProductState4(zero, n2, n3));
    SumOfProductStep5(num, zero, n2, n3);
    ScanFromStep(SumOfProductState4(zero, n2, n3), SumOfProductSource, 4, num, zero, SumOfProductState5(zero, n2, n3));
    SumOfProductFinish(num, zero, n2, n3);
  }

  function ProductThenSumState1<N>(zero: N, n2: N, n3: N): ParserState<N> {
    ParserState([], [], map[], [], [Null, Null, Null, Null], 0, true, 0, Null, Null, [])
  }

  function ProductThenSumState2<N>(zero: N, n2: N, n3: N): ParserState<N> {
    ParserState([VariableToken("x"), ExpressionToken(Mul, 2, Null, Null)], [zero, zero], map["x" := 0], [], [Ptr(0), Ptr(1), Null, Null], 2, false, 0, Null, Ptr(1), [])
  }

  function ProductThenSumState3<N>(zero: N, n2: N, n3: N): ParserState<N> {
    ParserState([VariableToken("x"), ExpressionToken(Mul, 2, Null, Null)], [zero, zero], map["x" := 0], [], [Ptr(0), Ptr(1), Null, Null], 2, true, 2, Null, Ptr(1), [])
  }

  function ProductThenSumState4<N>(zero: N, n2: N, n3: N): ParserState<N> {
    ParserState([VariableToken("x"), ExpressionToken(Mul, 2, Ptr(0), Ptr(2)), NumberToken, ExpressionToken(Plus, 1, Null, Null)], [zero, zero, n2, zero], map["x" := 0], [], [Ptr(1), Ptr(3), Ptr(2), Ptr(3)], 2, false, 2, Ptr(1), Ptr(3), [1])
  }

  function ProductThenSumState5<N>(zero: N, n2: N, n3: N): ParserState<N> {
    ParserState([VariableToken("x"), ExpressionToken(Mul, 2, Ptr(0), Ptr(2)), NumberToken, ExpressionToken(Plus, 1, Null, Null)], [zero, zero, n2, zero], map["x" := 0], [], [Ptr(1), Ptr(3), Ptr(2), Ptr(3)], 2, true, 4, Ptr(1), Ptr(3), [1])
  }

  function ProductThenSumState6<N>(zero: N, n2: N, n3: N): ParserState<N> {
    ParserState([VariableToken("x"), ExpressionToken(Mul, 2, Ptr(0), Ptr(2)), NumberToken, ExpressionToken(Plus, 1, Ptr(1), Ptr(4)), NumberToken], [zero, zero, n2, zero, n3], map["x" := 0], [], [Ptr(1), Ptr(3), Ptr(4), Ptr(3)], 3, false, 4, Ptr(1), Ptr(3), [1, 3])
  }

  lemma ProductThenSumStep1<N>(num: string -> Option<N>, zero: N, n2: N, n3: N)
    requires TwoOperandNumbers(num, n2, n3)
    requires WellFormed(Initial<N>(false, -1))
    ensures CharStep(Initial<N>(false, -1), ProductThenSumSource, 0, num, zero) == Ok(ProductThenSumState1(zero, n2, n3))
  {
    assert ProductThenSumSource[0] == 'x';
    var s := Initial<N>(false, -1);
    var r := CharStep(s, ProductThenSumSource, 0, num, zero);
    assert r.value.tokens == [];
    assert r.value.values == [];
    assert r.value.stack == [];
    assert r.value.buffer == [Null, Null, Null, Null];
    assert r.value.order == [];
  }

  lemma ProductThenSumStep2<N>(num: string -> Option<N>, zero: N, n2: N, n3: N)
    requires TwoOperandNumbers(num, n2, n3)
    requires WellFormed(ProductThenSumState1(zero, n2, n3))
    ensures CharStep(ProductThenSumState1(zero, n2, n3), ProductThenSumSource, 1, num, zero) == Ok(ProductThenSumState2(zero, n2, n3))
  {
    assert ProductThenSumSource[1] == '*' && ProductThenSumSource[..1] == "x";
    NameThenOperator(ProductThenSumSource, num, zero);
    assert NewExpression('*') == ExpressionToken(Mul, 2, Null, Null);
  }

  lemma ProductThenSumStep3<N>(num: string -> Option<N>, zero: N, n2: N, n3: N)
    requires TwoOperandNumbers(num, n2, n3)
    requires WellFormed(ProductThenSumState2(zero, n2, n3))
    ensures CharStep(ProductThenSumState2(zero, n2, n3), ProductThenSumSource, 2, num, zero) == Ok(ProductThenSumState3(zero, n2, n3))
  {
    assert ProductThenSumSource[2] == '2';
    var s := ProductThenSumState2(zero, n2, n3);
    var r := CharStep(s, ProductThenSumSource, 2, num, zero);
    assert r.value.tokens == [VariableToken("x"), ExpressionToken(Mul, 2, Null, Null)];
    assert r.value.values == [zero, zero];
    assert r.value.stack == [];
    assert r.value.buffer == [Ptr(0), Ptr(1), Null, Null];
    assert r.value.order == [];
  }

  lemma ProductThenSumStep4<N>(num: string -> Option<N>, zero: N, n2: N, n3: N)
    requires TwoOperandNumbers(num, n2, n3)
    requires WellFormed(ProductThenSumState3(zero, n2, n3))
    ensures CharStep(ProductThenSumState3(zero, n2, n3), ProductThenSumSource, 3, num, zero) == Ok(ProductThenSumState4(zero, n2, n3))
  {
    assert ProductThenSumSource[3] == '+';
    var s := ProductThenSumState3(zero, n2, n3);
    assert ProductThenSumSource[2..3] == "2";
    var h1 := EndOperand(s, ProductThenSumSource, 3, num, zero);
    assert h1.value.tokens == [VariableToken("x"), ExpressionToken(Mul, 2, Null, Null), NumberToken];
    assert h1.value.values == [zero, zero, n2];
    assert h1.value.stack == [];
    assert h1.value.buffer == [Ptr(0), Ptr(1), Ptr(2), Null];
    assert h1.value.order == [];
    OperatorChar(s, ProductThenSumSource, 3, num, zero, h1.value);
    var h2 := Enqueue(h1.value, '+', zero);
    assert h2.tokens == [VariableToken("x"), ExpressionToken(Mul, 2, Null, Null), NumberToken, ExpressionToken(Plus, 1, Null, Null)];
    assert h2.values == [zero, zero, n2, zero];
    assert h2.stack == [];
    assert h2.buffer == [Ptr(0), Ptr(1), Ptr(2), Ptr(3)];
    assert h2.order == [];
    var h3 := Reducing(h2);
    assert h3.tokens == [VariableToken("x"), ExpressionToken(Mul, 2, Ptr(0), Ptr(2)), NumberToken, ExpressionToken(Plus, 1, Null, Null)];
    assert h3.values == [zero, zero, n2, zero];
    assert h3.stack == [];
    assert h3.buffer == [Ptr(0), Ptr(1), Ptr(2), Ptr(3)];
    assert h3.order == [];
    assert Reduce(h3, 1) == h3;
    var r := Operator(h1.value, '+', zero);
    assert r.value.tokens == [VariableToken("x"), ExpressionToken(Mul, 2, Ptr(0), Ptr(2)), NumberToken, ExpressionToken(Plus, 1, Null, Null)];
    assert r.value.values == [zero, zero, n2, zero];
    assert r.value.stack == [];
    assert r.value.buffer == [Ptr(1), Ptr(3), Ptr(2), Ptr(3)];
    assert r.value.order == [1];
  }

  lemma ProductThenSumStep5<N>(num: string -> Option<N>, zero: N, n2: N, n3: N)
    requires TwoOperandNumbers(num, n2, n3)
    requires WellFormed(ProductThenSumState4(zero, n2, n3))
    ensures CharStep(ProductThenSumState4(zero, n2, n3), ProductThenSumSource, 4, num, zero) == Ok(ProductThenSumState5(zero, n2, n3))
  {
    assert ProductThenSumSource[4] == '3';
    var s := ProductThenSumState4(zero, n2, n3);
    var r := CharStep(s, ProductThenSumSource, 4, num, zero);
    assert r.value.tokens == [VariableToken("x"), ExpressionToken(Mul, 2, Ptr(0), Ptr(2)), NumberToken, ExpressionToken(Plus, 1, Null, Null)];
    assert r.value.values == [zero, zero, n2, zero];
    assert r.value.stack == [];
    assert r.value.buffer == [Ptr(1), Ptr(3), Ptr(2), Ptr(3)];
    assert r.value.order == [1];
  }

  lemma ProductThenSumFinish<N>(num: string -> Option<N>, zero: N, n2: N, n3: N)
    requires TwoOperandNumbers(num, n2, n3)
    requires WellFormed(ProductThenSumState5(zero, n2, n3))
    ensures Finish(ProductThenSumState5(zero, n2, n3), ProductThenSumSource, num, zero) == Ok(ProductThenSumState6(zero, n2, n3))
  {
    var s := ProductThenSumState5(zero, n2, n3);
    assert ProductThenSumSource[4..5] == "3";
    var h1 := EndOperand(s, ProductThenSumSource, 5, num, zero);
    assert h1.value.tokens == [VariableToken("x"), ExpressionToken(Mul, 2, Ptr(0), Ptr(2)), NumberToken, ExpressionToken(Plus, 1, Null, Null), NumberToken];
    assert h1.value.values == [zero, zero, n2, zero, n3];
    assert h1.value.stack == [];
    assert h1.value.buffer == [Ptr(1), Ptr(3), Ptr(4), Ptr(3)];
    assert h1.value.order == [1];
    var h2 := BindLast(h1.value);
    assert h2.value.tokens == [VariableToken("x"), ExpressionToken(Mul, 2, Ptr(0), Ptr(2)), NumberToken, ExpressionToken(Plus, 1, Ptr(1), Ptr(4)), NumberToken];
    assert h2.value.values == [zero, zero, n2, zero, n3];
    assert h2.value.stack == [];
    assert h2.value.buffer == [Ptr(1), Ptr(3), Ptr(4), Ptr(3)];
    assert h2.value.order == [1, 3];
    var r := Finish(s, ProductThenSumSource, num, zero);
    assert r.value.tokens == [VariableToken("x"), ExpressionToken(Mul, 2, Ptr(0), Ptr(2)), NumberToken, ExpressionToken(Plus, 1, Ptr(1), Ptr(4)), NumberToken];
    assert r.value.values == [zero, zero, n2, zero, n3];
    assert r.value.stack == [];
    assert r.value.buffer == [Ptr(1), Ptr(3), Ptr(4), Ptr(3)];
    assert r.value.order == [1, 3];
  }

  lemma ProductThenSumRun<N>(num: string -> Option<N>, zero: N, n2: N, n3: N)
    requires TwoOperandNumbers(num, n2, n3)
    ensures Run(ProductThenSumSource, num, zero, false, -1) == Ok(ProductThenSumState6(zero, n2, n3))
  {
    ProductThenSumStep1(num, zero, n2, n3);
    ScanFromStep(Initial<N>(false, -1), ProductThenSumSource, 0, num, zero, ProductThenSumState1(zero, n2, n3));
    ProductThenSumStep2(num, zero, n2, n3);
    ScanFromStep(ProductThenSumState1(zero, n2, n3), ProductThenSumSource, 1, num, zero, ProductThenSumState2(zero, n2, n3));
    ProductThenSumStep3(num, zero, n2, n3);
    ScanFromStep(ProductThenSumState2(zero, n2, n3), ProductThenSumSource, 2, num, zero, ProductThenSumState3(zero, n2, n3));
    ProductThenSumStep4(num, zero, n2, n3);
    ScanFromStep(ProductThenSumState3(zero, n2, n3), ProductThenSumSource, 3, num, zero, ProductThenSumState4(zero, n2, n3));
    ProductThenSumStep5(num, zero, n2, n3);
    ScanFromStep(ProductThenSumState4(zero, n2, n3), ProductThenSumSource, 4, num, zero, ProductThenSumState5(zero, n2, n3));
    ProductThenSumFinish(num, zero, n2, n3);
  }

  function DifferencesState1<N>(zero: N, n2: N, n3: N): ParserState<N> {
    ParserState([], [], map[], [], [Null, Null, Null, Null], 0, true, 0, Null, Null, [])
  }

  function DifferencesState2<N>(zero: N, n2: N, n3: N): ParserState<N> {
    ParserState([VariableToken("x"), ExpressionToken(Minus, 1, Null, Null)], [zero, zero], map["x" := 0], [], [Ptr(0), Ptr(1), Null, Null], 2, false, 0, Null, Ptr(1), [])
  }

  function DifferencesState3<N>(zero: N, n2: N, n3: N): ParserState<N> {
    ParserState([VariableToken("x"), ExpressionToken(Minus, 1, Null, Null)], [zero, zero], map["x" := 0], [], [Ptr(0), Ptr(1), Null, Null], 2, true, 2, Null, Ptr(1), [])
  }

  function DifferencesState4<N>(zero: N, n2: N, n3: N): ParserState<N> {
    ParserState([VariableToken("x"), ExpressionToken(Minus, 1, Ptr(0), Ptr(2)), NumberToken, ExpressionToken(Minus, 1, Null, Null)], [zero, zero, n2, zero], map["x" := 0], [], [Ptr(1), Ptr(3), Ptr(2), Ptr(3)], 2, false, 2, Ptr(1), Ptr(3), [1])
  }

  function DifferencesState5<N>(zero: N, n2: N, n3: N): ParserState<N> {
    ParserState([VariableToken("x"), ExpressionToken(Minus, 1, Ptr(0), Ptr(2)), NumberToken, ExpressionToken(Minus, 1, Null, Null)], [zero, zero, n2, zero], map["x" := 0], [], [Ptr(1), Ptr(3), Ptr(2), Ptr(3)], 2, true, 4, Ptr(1), Ptr(3), [1])
  }

  function DifferencesState6<N>(zero: N, n2: N, n3: N): ParserState<N> {
    ParserState([VariableToken("x"), ExpressionToken(Minus, 1, Ptr(0), Ptr(2)), NumberToken, ExpressionToken(Minus, 1, Ptr(1), Ptr(4)), NumberToken], [zero, zero, n2, zero, n3], map["x" := 0], [], [Ptr(1), Ptr(3), Ptr(4), Ptr(3)], 3, false, 4, Ptr(1), Ptr(3), [1, 3])
  }

  lemma DifferencesStep1<N>(num: string -> Option<N>, zero: N, n2: N, n3: N)
    requires TwoOperandNumbers(num, n2, n3)
    requires WellFormed(Initial<N>(false, -1))
    ensures CharStep(Initial<N>(false, -1), DifferencesSource, 0, num, zero) == Ok(DifferencesState1(zero, n2, n3))
  {
    assert DifferencesSource[0] == 'x';
    var s := Initial<N>(false, -1);
    var r := CharStep(s, DifferencesSource, 0, num, zero);
    assert r.value.tokens == [];
    assert r.value.values == [];
    assert r.value.stack == [];
    assert r.value.buffer == [Null, Null, Null, Null];
    assert r.value.order == [];
  }

  lemma DifferencesStep2<N>(num: string -> Option<N>, zero: N, n2: N, n3: N)
    requires TwoOperandNumbers(num, n2, n3)
    requires WellFormed(DifferencesState1(zero, n2, n3))
    ensures CharStep(DifferencesState1(zero, n2, n3), DifferencesSource, 1, num, zero) == Ok(DifferencesState2(zero, n2, n3))
  {
    assert DifferencesSource[1] == '-' && DifferencesSource[..1] == "x";
    NameThenOperator(DifferencesSource, num, zero);
    assert NewExpression('-') == ExpressionToken(Minus, 1, Null, Null);
  }

  lemma DifferencesStep3<N>(num: string -> Option<N>, zero: N, n2: N, n3: N)
    requires TwoOperandNumbers(num, n2, n3)
    requires WellFormed(DifferencesState2(zero, n2, n3))
    ensures CharStep(DifferencesState2(zero, n2, n3), DifferencesSource, 2, num, zero) == Ok(DifferencesState3(zero, n2, n3))
  {
    assert DifferencesSource[2] == '2';
    var s := DifferencesState2(zero, n2, n3);
    var r := CharStep(s, DifferencesSource, 2, num, zero);
    assert r.value.tokens == [VariableToken("x"), ExpressionToken(Minus, 1, Null, Null)];
    assert r.value.values == [zero, zero];
    assert r.value.stack == [];
    assert r.value.buffer == [Ptr(0), Ptr(1), Null, Null];
    assert r.value.order == [];
  }

  lemma DifferencesStep4<N>(num: string -> Option<N>, zero: N, n2: N, n3: N)
    requires TwoOperandNumbers(num, n2, n3)
    requires WellFormed(DifferencesState3(zero, n2, n3))
    ensures CharStep(DifferencesState3(zero, n2, n3), DifferencesSource, 3, num, zero) == Ok(DifferencesState4(zero, n2, n3))
  {
    assert DifferencesSource[3] == '-';
    var s := DifferencesState3(zero, n2, n3);
    assert DifferencesSource[2..3] == "2";
    var h1 := EndOperand(s, DifferencesSource, 3, num, zero);
    assert h1.value.tokens == [VariableToken("x"), ExpressionToken(Minus, 1, Null, Null), NumberToken];
    assert h1.value.values == [zero, zero, n2];
    assert h1.value.stack == [];
    assert h1.value.buffer == [Ptr(0), Ptr(1), Ptr(2), Null];
    assert h1.value.order == [];
    OperatorChar(s, DifferencesSource, 3, num, zero, h1.value);
    var h2 := Enqueue(h1.value, '-', zero);
    assert h2.tokens == [VariableToken("x"), ExpressionToken(Minus, 1, Null, Null), NumberToken, ExpressionToken(Minus, 1, Null, Null)];
    assert h2.values == [zero, zero, n2, zero];
    assert h2.stack == [];
    assert h2.buffer == [Ptr(0), Ptr(1), Ptr(2), Ptr(3)];
    assert h2.order == [];
    var h3 := Reducing(h2);
    assert h3.tokens == [VariableToken("x"), ExpressionToken(Minus, 1, Ptr(0), Ptr(2)), NumberToken, ExpressionToken(Minus, 1, Null, Null)];
    assert h3.values == [zero, zero, n2, zero];
    assert h3.stack == [];
    assert h3.buffer == [Ptr(0), Ptr(1), Ptr(2), Ptr(3)];
    assert h3.order == [];
    assert Reduce(h3, 1) == h3;
    var r := Operator(h1.value, '-', zero);
    assert r.value.tokens == [VariableToken("x"), ExpressionToken(Minus, 1, Ptr(0), Ptr(2)), NumberToken, ExpressionToken(Minus, 1, Null, Null)];
    assert r.value.values == [zero, zero, n2, zero];
    assert r.value.stack == [];
    assert r.value.buffer == [Ptr(1), Ptr(3), Ptr(2), Ptr(3)];
    assert r.value.order == [1];
  }

  lemma DifferencesStep5<N>(num: string -> Option<N>, zero: N, n2: N, n3: N)
    requires TwoOperandNumbers(num, n2, n3)
    requires WellFormed(DifferencesState4(zero, n2, n3))
    ensures CharStep(DifferencesState4(zero, n2, n3), DifferencesSource, 4, num, zero) == Ok(DifferencesState5(zero, n2, n3))
  {
    assert DifferencesSource[4] == '3';
    var s := DifferencesState4(zero, n2, n3);
    var r := CharStep(s, DifferencesSource, 4, num, zero);
    assert r.value.tokens == [VariableToken("x"), ExpressionToken(Minus, 1, Ptr(0), Ptr(2)), NumberToken, ExpressionToken(Minus, 1, Null, Null)];
    assert r.value.values == [zero, zero, n2, zero];
    assert r.value.stack == [];
    assert r.value.buffer == [Ptr(1), Ptr(3), Ptr(2), Ptr(3)];
    assert r.value.order == [1];
  }

  lemma DifferencesFinish<N>(num: string -> Option<N>, zero: N, n2: N, n3: N)
    requires TwoOperandNumbers(num, n2, n3)
    requires WellFormed(DifferencesState5(zero, n2, n3))
    ensures Finish(DifferencesState5(zero, n2, n3), DifferencesSource, num, zero) == Ok(DifferencesState6(zero, n2, n3))
  {
    var s := DifferencesState5(zero, n2, n3);
    assert DifferencesSource[4..5] == "3";
    var h1 := EndOperand(s, DifferencesSource, 5, num, zero);
    assert h1.value.tokens == [VariableToken("x"), ExpressionToken(Minus, 1, Ptr(0), Ptr(2)), NumberToken, ExpressionToken(Minus, 1, Null, Null), NumberToken];
    assert h1.value.values == [zero, zero, n2, zero, n3];
    assert h1.value.stack == [];
    assert h1.value.buffer == [Ptr(1), Ptr(3), Ptr(4), Ptr(3)];
    assert h1.value.order == [1];
    var h2 := BindLast(h1.value);
    assert h2.value.tokens == [VariableToken("x"), ExpressionToken(Minus, 1, Ptr(0), Ptr(2)), NumberToken, ExpressionToken(Minus, 1, Ptr(1), Ptr(4)), NumberToken];
    assert h2.value.values == [zero, zero, n2, zero, n3];
    assert h2.value.stack == [];
    assert h2.value.buffer == [Ptr(1), Ptr(3), Ptr(4), Ptr(3)];
    assert h2.value.order == [1, 3];
    var r := Finish(s, DifferencesSource, num, zero);
    assert r.value.tokens == [VariableToken("x"), ExpressionToken(Minus, 1, Ptr(0), Ptr(2)), NumberToken, ExpressionToken(Minus, 1, Ptr(1), Ptr(4)), NumberToken];
    assert r.value.values == [zero, zero, n2, zero, n3];
    assert r.value.stack == [];
    assert r.value.buffer == [Ptr(1), Ptr(3), Ptr(4), Ptr(3)];
    assert r.value.order == [1, 3];
  }

  lemma DifferencesRun<N>(num: string -> Option<N>, zero: N, n2: N, n3: N)
    requires TwoOperandNumbers(num, n2, n3)
    ensures Run(DifferencesSource, num, zero, false, -1) == Ok(DifferencesState6(zero, n2, n3))
  {
    DifferencesStep1(num, zero, n2, n3);
    ScanFromStep(Initial<N>(false, -1), DifferencesSource, 0, num, zero, DifferencesState1(zero, n2, n3));
    DifferencesStep2(num, zero, n2, n3);
    ScanFromStep(DifferencesState1(zero, n2, n3), DifferencesSource, 1, num, zero, DifferencesState2(zero, n2, n3));
    DifferencesStep3(num, zero, n2, n3);
    ScanFromStep(DifferencesState2(zero, n2, n3), DifferencesSource, 2, num, zero, DifferencesState3(zero, n2, n3));
    DifferencesStep4(num, zero, n2, n3);
    ScanFromStep(DifferencesState3(zero, n2, n3), DifferencesSource, 3, num, zero, DifferencesState4(zero, n2, n3));
    DifferencesStep5(num, zero, n2, n3);
    ScanFromStep(DifferencesState4(zero, n2, n3), DifferencesSource, 4, num, zero, DifferencesState5(zero, n2, n3));
    DifferencesFinish(num, zero, n2, n3);
  }

  function QuotientsState1<N>(zero: N, n2: N, n3: N): ParserState<N> {
    ParserState([], [], map[], [], [Null, Null, Null, Null], 0, true, 0, Null, Null, [])
  }

  function QuotientsState2<N>(zero: N, n2: N, n3: N): ParserState<N> {
    ParserState([VariableToken("x"), ExpressionToken(Div, 2, Null, Null)], [zero, zero], map["x" := 0], [], [Ptr(0), Ptr(1), Null, Null], 2, false, 0, Null, Ptr(1), [])
  }

  function QuotientsState3<N>(zero: N, n2: N, n3: N): ParserState<N> {
    ParserState([VariableToken("x"), ExpressionToken(Div, 2, Null, Null)], [zero, zero], map["x" := 0], [], [Ptr(0), Ptr(1), Null, Null], 2, true, 2, Null, Ptr(1), [])
  }

  function QuotientsState4<N>(zero: N, n2: N, n3: N): ParserState<N> {
    ParserState([VariableToken("x"), ExpressionToken(Div, 2, Ptr(0), Ptr(2)), NumberToken, ExpressionToken(Div, 2, Null, Null)], [zero, zero, n2, zero], map["x" := 0], [], [Ptr(1), Ptr(3), Ptr(2), Ptr(3)], 2, false, 2, Ptr(1), Ptr(3), [1])
  }

  function QuotientsState5<N>(zero: N, n2: N, n3: N): ParserState<N> {
    ParserState([VariableToken("x"), ExpressionToken(Div, 2, Ptr(0), Ptr(2)), NumberToken, ExpressionToken(Div, 2, Null, Null)], [zero, zero, n2, zero], map["x" := 0], [], [Ptr(1), Ptr(3), Ptr(2), Ptr(3)], 2, true, 4, Ptr(1), Ptr(3), [1])
  }

  function QuotientsState6<N>(zero: N, n2: N, n3: N): ParserState<N> {
    ParserState([VariableToken("x"), ExpressionToken(Div, 2, Ptr(0), Ptr(2)), NumberToken, ExpressionToken(Div, 2, Ptr(1), Ptr(4)), NumberToken], [zero, zero, n2, zero, n3], map["x" := 0], [], [Ptr(1), Ptr(3), Ptr(4), Ptr(3)], 3, false, 4, Ptr(1), Ptr(3), [1, 3])
  }

  lemma QuotientsStep1<N>(num: string -> Option<N>, zero: N, n2: N, n3: N)
    requires TwoOperandNumbers(num, n2, n3)
    requires WellFormed(Initial<N>(false, -1))
    ensures CharStep(Initial<N>(false, -1), QuotientsSource, 0, num, zero) == Ok(QuotientsState1(zero, n2, n3))
  {
    assert QuotientsSource[0] == 'x';
    var s := Initial<N>(false, -1);
    var r := CharStep(s, QuotientsSource, 0, num, zero);
    assert r.value.tokens == [];
    assert r.value.values == [];
    assert r.value.stack == [];
    assert r.value.buffer == [Null, Null, Null, Null];
    assert r.value.order == [];
  }

  lemma QuotientsStep2<N>(num: string -> Option<N>, zero: N, n2: N, n3: N)
    requires TwoOperandNumbers(num, n2, n3)
    requires WellFormed(QuotientsState1(zero, n2, n3))
    ensures CharStep(QuotientsState1(zero, n2, n3), QuotientsSource, 1, num, zero) == Ok(QuotientsState2(zero, n2, n3))
  {
    assert QuotientsSource[1] == '/' && QuotientsSource[..1] == "x";
    NameThenOperator(QuotientsSource, num, zero);
    assert NewExpression('/') == ExpressionToken(Div, 2, Null, Null);
  }

  lemma QuotientsStep3<N>(num: string -> Option<N>, zero: N, n2: N, n3: N)
    requires TwoOperandNumbers(num, n2, n3)
    requires WellFormed(QuotientsState2(zero, n2, n3))
    ensures CharStep(QuotientsState2(zero, n2, n3), QuotientsSource, 2, num, zero) == Ok(QuotientsState3(zero, n2, n3))
  {
    assert QuotientsSource[2] == '2';
    var s := QuotientsState2(zero, n2, n3);
    var r := CharStep(s, QuotientsSource, 2, num, zero);
    assert r.value.tokens == [VariableToken("x"), ExpressionToken(Div, 2, Null, Null)];
    assert r.value.values == [zero, zero];
    assert r.value.stack == [];
    assert r.value.buffer == [Ptr(0), Ptr(1), Null, Null];
    assert r.value.order == [];
  }

  lemma QuotientsStep4<N>(num: string -> Option<N>, zero: N, n2: N, n3: N)
    requires TwoOperandNumbers(num, n2, n3)
    requires WellFormed(QuotientsState3(zero, n2, n3))
    ensures CharStep(QuotientsState3(zero, n2, n3), QuotientsSource, 3, num, zero) == Ok(QuotientsState4(zero, n2, n3))
  {
    assert QuotientsSource[3] == '/';
    var s := QuotientsState3(zero, n2, n3);
    assert QuotientsSource[2..3] == "2";
    var h1 := EndOperand(s, QuotientsSource, 3, num, zero);
    assert h1.value.tokens == [VariableToken("x"), ExpressionToken(Div, 2, Null, Null), NumberToken];
    assert h1.value.values == [zero, zero, n2];
    assert h1.value.stack == [];
    assert h1.value.buffer == [Ptr(0), Ptr(1), Ptr(2), Null];
    assert h1.value.order == [];
    OperatorChar(s, QuotientsSource, 3, num, zero, h1.value);
    var h2 := Enqueue(h1.value, '/', zero);
    assert h2.tokens == [VariableToken("x"), ExpressionToken(Div, 2, Null, Null), NumberToken, ExpressionToken(Div, 2, Null, Null)];
    assert h2.values == [zero, zero, n2, zero];
    assert h2.stack == [];
    assert h2.buffer == [Ptr(0), Ptr(1), Ptr(2), Ptr(3)];
    assert h2.order == [];
    var h3 := Reducing(h2);
    assert h3.tokens == [VariableToken("x"), ExpressionToken(Div, 2, Ptr(0), Ptr(2)), NumberToken, ExpressionToken(Div, 2, Null, Null)];
    assert h3.values == [zero, zero, n2, zero];
    assert h3.stack == [];
    assert h3.buffer == [Ptr(0), Ptr(1), Ptr(2), Ptr(3)];
    assert h3.order == [];
    assert Reduce(h3, 2) == h3;
    var r := Operator(h1.value, '/', zero);
    assert r.value.tokens == [VariableToken("x"), ExpressionToken(Div, 2, Ptr(0), Ptr(2)), NumberToken, ExpressionToken(Div, 2, Null, Null)];
    assert r.value.values == [zero, zero, n2, zero];
    assert r.value.stack == [];
    assert r.value.buffer == [Ptr(1), Ptr(3), Ptr(2), Ptr(3)];
    assert r.value.order == [1];
  }

  lemma QuotientsStep5<N>(num: string -> Option<N>, zero: N, n2: N, n3: N)
    requires TwoOperandNumbers(num, n2, n3)
    requires WellFormed(QuotientsState4(zero, n2, n3))
    ensures CharStep(QuotientsState4(zero, n2, n3), QuotientsSource, 4, num, zero) == Ok(QuotientsState5(zero, n2, n3))
  {
    assert QuotientsSource[4] == '3';
    var s := QuotientsState4(zero, n2, n3);
    var r := CharStep(s, QuotientsSource, 4, num, zero);
    assert r.value.tokens == [VariableToken("x"), ExpressionToken(Div, 2, Ptr(0), Ptr(2)), NumberToken, ExpressionToken(Div, 2, Null, Null)];
    assert r.value.values == [zero, zero, n2, zero];
    assert r.value.stack == [];
    assert r.value.buffer == [Ptr(1), Ptr(3), Ptr(2), Ptr(3)];
    assert r.value.order == [1];
  }

  lemma QuotientsFinish<N>(num: string -> Option<N>, zero: N, n2: N, n3: N)
    requires TwoOperandNumbers(num, n2, n3)
    requires WellFormed(QuotientsState5(zero, n2, n3))
    ensures Finish(QuotientsState5(zero, n2, n3), QuotientsSource, num, zero) == Ok(QuotientsState6(zero, n2, n3))
  {
    var s := QuotientsState5(zero, n2, n3);
    assert QuotientsSource[4..5] == "3";
    var h1 := EndOperand(s, QuotientsSource, 5, num, zero);
    assert h1.value.tokens == [VariableToken("x"), ExpressionToken(Div, 2, Ptr(0), Ptr(2)), NumberToken, ExpressionToken(Div, 2, Null, Null), NumberToken];
    assert h1.value.values == [zero, zero, n2, zero, n3];
    assert h1.value.stack == [];
    assert h1.value.buffer == [Ptr(1), Ptr(3), Ptr(4), Ptr(3)];
    assert h1.value.order == [1];
    var h2 := BindLast(h1.value);
    assert h2.value.tokens == [VariableToken("x"), ExpressionToken(Div, 2, Ptr(0), Ptr(2)), NumberToken, ExpressionToken(Div, 2, Ptr(1), Ptr(4)), NumberToken];
    assert h2.value.values == [zero, zero, n2, zero, n3];
    assert h2.value.stack == [];
    assert h2.value.buffer == [Ptr(1), Ptr(3), Ptr(4), Ptr(3)];
    assert h2.value.order == [1, 3];
    var r := Finish(s, QuotientsSource, num, zero);
    assert r.value.tokens == [VariableToken("x"), ExpressionToken(Div, 2, Ptr(0), Ptr(2)), NumberToken, ExpressionToken(Div, 2, Ptr(1), Ptr(4)), NumberToken];
    assert r.value.values == [zero, zero, n2, zero, n3];
    assert r.value.stack == [];
    assert r.value.buffer == [Ptr(1), Ptr(3), Ptr(4), Ptr(3)];
    assert r.value.order == [1, 3];
  }

  lemma QuotientsRun<N>(num: string -> Option<N>, zero: N, n2: N, n3: N)
    requires TwoOperandNumbers(num, n2, n3)
    ensures Run(QuotientsSource, num, zero, false, -1) == Ok(QuotientsState6(zero, n2, n3))
  {
    QuotientsStep1(num, zero, n2, n3);
    ScanFromStep(Initial<N>(false, -1), QuotientsSource, 0, num, zero, QuotientsState1(zero, n2, n3));
    QuotientsStep2(num, zero, n2, n3);
    ScanFromStep(QuotientsState1(zero, n2, n3), QuotientsSource, 1, num, zero, QuotientsState2(zero, n2, n3));
    QuotientsStep3(num, zero, n2, n3);
    ScanFromStep(QuotientsState2(zero, n2, n3), QuotientsSource, 2, num, zero, QuotientsState3(zero, n2, n3));
    QuotientsStep4(num, zero, n2, n3);
    ScanFromStep(QuotientsState3(zero, n2, n3), QuotientsSource, 3, num, zero, QuotientsState4(zero, n2, n3));
    QuotientsStep5(num, zero, n2, n3);
    ScanFromStep(QuotientsState4(zero, n2, n3), QuotientsSource, 4, num, zero, QuotientsState5(zero, n2, n3));
    QuotientsFinish(num, zero, n2, n3);
  }

  function UnopenedState1<N>(zero: N, n1: N): ParserState<N> {
    ParserState([], [], map[], [], [Null, Null, Null, Null], 0, true, 0, Null, Null, [])
  }

  function UnopenedState2<N>(zero: N, n1: N): ParserState<N> {
    ParserState([VariableToken("x"), ExpressionToken(Plus, 1, Null, Null)], [zero, zero], map["x" := 0], [], [Ptr(0), Ptr(1), Null, Null], 2, false, 0, Null, Ptr(1), [])
  }

  function UnopenedState3<N>(zero: N, n1: N): ParserState<N> {
    ParserState([VariableToken("x"), ExpressionToken(Plus, 1, Null, Null)], [zero, zero], map["x" := 0], [], [Ptr(0), Ptr(1), Null, Null], 2, true, 2, Null, Ptr(1), [])
  }

  lemma UnopenedStep1<N>(num: string -> Option<N>, zero: N, n1: N)
    requires OperandNumbers(num, "1", n1)
    requires WellFormed(Initial<N>(false, -1))
    ensures CharStep(Initial<N>(false, -1), UnopenedSource, 0, num, zero) == Ok(UnopenedState1(zero, n1))
  {
    assert UnopenedSource[0] == 'x';
    var s := Initial<N>(false, -1);
    var r := CharStep(s, UnopenedSource, 0, num, zero);
    assert r.value.tokens == [];
    assert r.value.values == [];
    assert r.value.stack == [];
    assert r.value.buffer == [Null, Null, Null, Null];
    assert r.value.order == [];
  }

  lemma UnopenedStep2<N>(num: string -> Option<N>, zero: N, n1: N)
    requires OperandNumbers(num, "1", n1)
    requires WellFormed(UnopenedState1(zero, n1))
    ensures CharStep(UnopenedState1(zero, n1), UnopenedSource, 1, num, zero) == Ok(UnopenedState2(zero, n1))
  {
    assert UnopenedSource[1] == '+' && UnopenedSource[..1] == "x";
    NameThenOperator(UnopenedSource, num, zero);
    assert NewExpression('+') == ExpressionToken(Plus, 1, Null, Null);
  }

  lemma UnopenedStep3<N>(num: string -> Option<N>, zero: N, n1: N)
    requires OperandNumbers(num, "1", n1)
    requires WellFormed(UnopenedState2(zero, n1))
    ensures CharStep(UnopenedState2(zero, n1), UnopenedSource, 2, num, zero) == Ok(UnopenedState3(zero, n1))
  {
    assert UnopenedSource[2] == '1';
    var s := UnopenedState2(zero, n1);
    var r := CharStep(s, UnopenedSource, 2, num, zero);
    assert r.value.tokens == [VariableToken("x"), ExpressionToken(Plus, 1, Null, Null)];
    assert r.value.values == [zero, zero];
    assert r.value.stack == [];
    assert r.value.buffer == [Ptr(0), Ptr(1), Null, Null];
    assert r.value.order == [];
  }

  lemma UnopenedStep4<N>(num: string -> Option<N>, zero: N, n1: N)
    requires OperandNumbers(num, "1", n1)
    requires WellFormed(UnopenedState3(zero, n1))
    ensures CharStep(UnopenedState3(zero, n1), UnopenedSource, 3, num, zero) == Err(Failure(EmptyStack, false, 2))
  {
    assert UnopenedSource[3] == ')';
    var s := UnopenedState3(zero, n1);
    assert UnopenedSource[2..3] == "1";
    var h1 := EndOperand(s, UnopenedSource, 3, num, zero);
    assert h1.value.tokens == [VariableToken("x"), ExpressionToken(Plus, 1, Null, Null), NumberToken];
    assert h1.value.values == [zero, zero, n1];
    assert h1.value.stack == [];
    assert h1.value.buffer == [Ptr(0), Ptr(1), Ptr(2), Null];
    assert h1.value.order == [];
    CloseChar(s, UnopenedSource, 3, num, zero, h1.value);
    var h2 := Group(h1.value);
    assert h2.tokens == [VariableToken("x"), ExpressionToken(Plus, 1, Ptr(0), Ptr(2)), NumberToken];
    assert h2.values == [zero, zero, n1];
    assert h2.stack == [];
    assert h2.buffer == [Ptr(0), Ptr(1), Ptr(2), Null];
    assert h2.order == [];
  }

  lemma UnopenedRun<N>(num: string -> Option<N>, zero: N, n1: N)
    requires OperandNumbers(num, "1", n1)
    ensures Run(UnopenedSource, num, zero, false, -1) == Err(Failure(EmptyStack, false, 2))
  {
    UnopenedStep1(num, zero, n1);
    ScanFromStep(Initial<N>(false, -1), UnopenedSource, 0, num, zero, UnopenedState1(zero, n1));
    UnopenedStep2(num, zero, n1);
    ScanFromStep(UnopenedState1(zero, n1), UnopenedSource, 1, num, zero, UnopenedState2(zero, n1));
    UnopenedStep3(num, zero, n1);
    ScanFromStep(UnopenedState2(zero, n1), UnopenedSource, 2, num, zero, UnopenedState3(zero, n1));
    UnopenedStep4(num, zero, n1);
    assert ScanFrom(UnopenedState3(zero, n1), UnopenedSource, 3, num, zero) == Err(Failure(EmptyStack, false, 2));
  }

  function UnclosedState1<N>(zero: N, n1: N): ParserState<N> {
    ParserState([OpenBracketToken], [zero], map[], [0], [Null, Null, Null, Null], 0, false, -1, Null, Null, [])
  }

  function UnclosedState2<N>(zero: N, n1: N): ParserState<N> {
    ParserState([OpenBracketToken], [zero], map[], [0], [Null, Null, Null, Null], 0, true, 1, Null, Null, [])
  }

  function UnclosedState3<N>(zero: N, n1: N): ParserState<N> {
    ParserState([OpenBracketToken, VariableToken("x"), ExpressionToken(Plus, 1, Null, Null)], [zero, zero, zero], map["x" := 1], [0], [Ptr(1), Ptr(2), Null, Null], 2, false, 1, Null, Ptr(2), [])
  }

  function UnclosedState4<N>(zero: N, n1: N): ParserState<N> {
    ParserState([OpenBracketToken, VariableToken("x"), ExpressionToken(Plus, 1, Null, Null)], [zero, zero, zero], map["x" := 1], [0], [Ptr(1), Ptr(2), Null, Null], 2, true, 3, Null, Ptr(2), [])
  }

  lemma UnclosedStep1<N>(num: string -> Option<N>, zero: N, n1: N)
    requires OperandNumbers(num, "1", n1)
    requires WellFormed(Initial<N>(false, -1))
    ensures CharStep(Initial<N>(false, -1), UnclosedSource, 0, num, zero) == Ok(UnclosedState1(zero, n1))
  {
    assert UnclosedSource[0] == '(';
    var s := Initial<N>(false, -1);
    var r := CharStep(s, UnclosedSource, 0, num, zero);
    assert r.value.tokens == [OpenBracketToken];
    assert r.value.values == [zero];
    assert r.value.stack == [0];
    assert r.value.buffer == [Null, Null, Null, Null];
    assert r.value.order == [];
  }

  lemma UnclosedStep2<N>(num: string -> Option<N>, zero: N, n1: N)
    requires OperandNumbers(num, "1", n1)
    requires WellFormed(UnclosedState1(zero, n1))
    ensures CharStep(UnclosedState1(zero, n1), UnclosedSource, 1, num, zero) == Ok(UnclosedState2(zero, n1))
  {
    assert UnclosedSource[1] == 'x';
    var s := UnclosedState1(zero, n1);
    var r := CharStep(s, UnclosedSource, 1, num, zero);
    assert r.value.tokens == [OpenBracketToken];
    assert r.value.values == [zero];
    assert r.value.stack == [0];
    assert r.value.buffer == [Null, Null, Null, Null];
    assert r.value.order == [];
  }

  lemma UnclosedStep3<N>(num: string -> Option<N>, zero: N, n1: N)
    requires OperandNumbers(num, "1", n1)
    requires WellFormed(UnclosedState2(zero, n1))
    ensures CharStep(UnclosedState2(zero, n1), UnclosedSource, 2, num, zero) == Ok(UnclosedState3(zero, n1))
  {
    assert UnclosedSource[2] == '+';
    var s := UnclosedState2(zero, n1);
    assert UnclosedSource[1..2] == "x";
    var h1 := EndOperand(s, UnclosedSource, 2, num, zero);
    assert h1.value.tokens == [OpenBracketToken, VariableToken("x")];
    assert h1.value.values == [zero, zero];
    assert h1.value.stack == [0];
    assert h1.value.buffer == [Ptr(1), Null, Null, Null];
    assert h1.value.order == [];
    OperatorChar(s, UnclosedSource, 2, num, zero, h1.value);
    var h2 := Enqueue(h1.value, '+', zero);
    assert h2.tokens == [OpenBracketToken, VariableToken("x"), ExpressionToken(Plus, 1, Null, Null)];
    assert h2.values == [zero, zero, zero];
    assert h2.stack == [0];
    assert h2.buffer == [Ptr(1), Ptr(2), Null, Null];
    assert h2.order == [];
    var r := Operator(h1.value, '+', zero);
    assert r.value.tokens == [OpenBracketToken, VariableToken("x"), ExpressionToken(Plus, 1, Null, Null)];
    assert r.value.values == [zero, zero, zero];
    assert r.value.stack == [0];
    assert r.value.buffer == [Ptr(1), Ptr(2), Null, Null];
    assert r.value.order == [];
  }

  lemma UnclosedStep4<N>(num: string -> Option<N>, zero: N, n1: N)
    requires OperandNumbers(num, "1", n1)
    requires WellFormed(UnclosedState3(zero, n1))
    ensures CharStep(UnclosedState3(zero, n1), UnclosedSource, 3, num, zero) == Ok(UnclosedState4(zero, n1))
  {
    assert UnclosedSource[3] == '1';
    var s := UnclosedState3(zero, n1);
    var r := CharStep(s, UnclosedSource, 3, num, zero);
    assert r.value.tokens == [OpenBracketToken, VariableToken("x"), ExpressionToken(Plus, 1, Null, Null)];
    assert r.value.values == [zero, zero, zero];
    assert r.value.stack == [0];
    assert r.value.buffer == [Ptr(1), Ptr(2), Null, Null];
    assert r.value.order == [];
  }

  lemma UnclosedFinish<N>(num: string -> Option<N>, zero: N, n1: N)
    requires OperandNumbers(num, "1", n1)
    requires WellFormed(UnclosedState4(zero, n1))
    ensures Finish(UnclosedState4(zero, n1), UnclosedSource, num, zero) == Err(Failure(InvalidCast, false, 3))
  {
    var s := UnclosedState4(zero, n1);
    assert UnclosedSource[3..4] == "1";
    var h1 := EndOperand(s, UnclosedSource, 4, num, zero);
    assert h1.value.tokens == [OpenBracketToken, VariableToken("x"), ExpressionToken(Plus, 1, Null, Null), NumberToken];
    assert h1.value.values == [zero, zero, zero, n1];
    assert h1.value.stack == [0];
    assert h1.value.buffer == [Ptr(1), Ptr(2), Ptr(3), Null];
    assert h1.value.order == [];
    var h2 := BindLast(h1.value);
    assert h2.value.tokens == [OpenBracketToken, VariableToken("x"), ExpressionToken(Plus, 1, Ptr(1), Ptr(3)), NumberToken];
    assert h2.value.values == [zero, zero, zero, n1];
    assert h2.value.stack == [0];
    assert h2.value.buffer == [Ptr(1), Ptr(2), Ptr(3), Null];
    assert h2.value.order == [2];
  }

  lemma UnclosedRun<N>(num: string -> Option<N>, zero: N, n1: N)
    requires OperandNumbers(num, "1", n1)
    ensures Run(UnclosedSource, num, zero, false, -1) == Err(Failure(InvalidCast, false, 3))
  {
    UnclosedStep1(num, zero, n1);
    ScanFromStep(Initial<N>(false, -1), UnclosedSource, 0, num, zero, UnclosedState1(zero, n1));
    UnclosedStep2(num, zero, n1);
    ScanFromStep(UnclosedState1(zero, n1), UnclosedSource, 1, num, zero, UnclosedState2(zero, n1));
    UnclosedStep3(num, zero, n1);
    ScanFromStep(UnclosedState2(zero, n1), UnclosedSource, 2, num, zero, UnclosedState3(zero, n1));
    UnclosedStep4(num, zero, n1);
    ScanFromStep(UnclosedState3(zero, n1), UnclosedSource, 3, num, zero, UnclosedState4(zero, n1));
    UnclosedFinish(num, zero, n1);
  }

}
