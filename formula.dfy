/**
 * A compiled formula and its replay evaluator.  The compiled form is the
 * token arena built by the parser, the variable table, the evaluation order
 * (indices of expression tokens) and the source text.  Evaluation writes the
 * input into the variable "x" and recomputes every operator of the order in
 * turn; the result is the value of the last one.
 */
module Formulas {
  import opened Wrappers
  import opened ExpressionTokens
  import opened Numbers

  /** The variable that receives the evaluation input. */
  const DefaultOperand: string := "x"

  /** The exceptions evaluation can raise. */
  datatype EvalError =
    | KeyNotFound          // the formula has no variable "x"
    | NullReference        // an operator of the order has a null operand link
    | ArgumentOutOfRange   // the order is empty

  /** A snapshot of a compiled formula: structure plus the current Value of every token. */
  datatype CompiledFormula<N> = CompiledFormula(
    tokens: seq<Token>,
    values: seq<N>,
    operands: map<string, nat>,
    order: seq<nat>,
    source: string)

  /** The structural invariant every formula produced by the parser satisfies. */
  ghost predicate Wired(tokens: seq<Token>, operands: map<string, nat>, order: seq<nat>)
  {
    LinksValid(tokens) && Interned(tokens, operands) && OrderValid(tokens, order)
  }

  ghost predicate ValidImage<N>(f: CompiledFormula<N>)
  {
    |f.values| == |f.tokens| && Wired(f.tokens, f.operands, f.order)
  }

  /**
   * The values after replaying the first `k` entries of the order, and the
   * exception that stopped the replay early, if any.
   */
  function Replay<N>(ar: Arithmetic<N>, tokens: seq<Token>, order: seq<nat>, values: seq<N>, k: nat)
    : (r: (seq<N>, Option<EvalError>))
    requires k <= |order| && |values| == |tokens|
    requires LinksValid(tokens) && OrderValid(tokens, order)
    ensures |r.0| == |values|
    decreases k
  {
    if k == 0 then (values, None)
    else
      var (v, e) := Replay(ar, tokens, order, values, k - 1);
      if e.Some? then (v, e)
      else
        var i := order[k - 1];
        var t := tokens[i];
        if t.left.Null? || t.right.Null? then (v, Some(NullReference))
        else (v[i := Apply(ar, t.operation, v[t.left.index], v[t.right.index])], None)
  }

  /** What `Evaluate(x)` returns, and the token values it leaves behind. */
  function EvaluateSpec<N>(ar: Arithmetic<N>, f: CompiledFormula<N>, x: N): (Result<N, EvalError>, seq<N>)
    requires ValidImage(f)
  {
    if DefaultOperand !in f.operands then (Err(KeyNotFound), f.values)
    else
      var start := f.values[f.operands[DefaultOperand] := x];
      var (v, e) := Replay(ar, f.tokens, f.order, start, |f.order|);
      if e.Some? then (Err(e.value), v)
      else if |f.order| == 0 then (Err(ArgumentOutOfRange), v)
      else (Ok(v[f.order[|f.order| - 1]]), v)
  }

  /** The result of evaluating a formula snapshot. */
  function Result<N>(ar: Arithmetic<N>, f: CompiledFormula<N>, x: N): Result<N, EvalError>
    requires ValidImage(f)
  {
    EvaluateSpec(ar, f, x).0
  }

  /** The snapshot after evaluating it once (same structure, new values). */
  function AfterEvaluate<N>(ar: Arithmetic<N>, f: CompiledFormula<N>, x: N): (g: CompiledFormula<N>)
    requires ValidImage(f)
    ensures ValidImage(g)
  {
    ReplayLength(ar, f, x);
    f.(values := EvaluateSpec(ar, f, x).1)
  }

  lemma ReplayLength<N>(ar: Arithmetic<N>, f: CompiledFormula<N>, x: N)
    requires ValidImage(f)
    ensures |EvaluateSpec(ar, f, x).1| == |f.tokens|
  {
  }

  /**
   * A compiled formula.  Its structure (arena, variable table, order, source)
   * is fixed once built; only the Value of each token changes, kept in `values`.
   */
  class Formula<N> {
    const tokens: seq<Token>
    const operands: map<string, nat>
    const order: seq<nat>
    const source: string
    const values: array<N>

    ghost predicate Valid()
    {
      values.Length == |tokens| && Wired(tokens, operands, order)
    }

    ghost function Image(): (f: CompiledFormula<N>)
      reads values
    {
      CompiledFormula(tokens, values[..], operands, order, source)
    }

    constructor (c: CompiledFormula<N>)
      requires ValidImage(c)
      ensures Valid() && Image() == c
      ensures fresh(values)
    {
      tokens := c.tokens;
      operands := c.operands;
      order := c.order;
      source := c.source;
      values := new N[|c.values|](i requires 0 <= i < |c.values| => c.values[i]);
    }

    /** The formula's text. */
    function ToString(): string
    {
      source
    }

    /**
     * Stores `x` into the variable "x" and replays the order.  Only the values
     * change: the structure is immutable.
     */
    method Evaluate(ar: Arithmetic<N>, x: N) returns (r: Result<N, EvalError>)
      requires Valid()
      modifies values
      ensures (r, values[..]) == EvaluateSpec(ar, old(Image()), x)
    {
      if DefaultOperand !in operands {
        return Err(KeyNotFound);
      }
      values[operands[DefaultOperand]] := x;
      assert values[..] == old(values[..])[operands[DefaultOperand] := x];
      var e := ReplayOrder(ar);
      if e.Some? {
        return Err(e.value);
      }
      if |order| == 0 {
        return Err(ArgumentOutOfRange);
      }
      r := Ok(values[order[|order| - 1]]);
    }

    /**
     * The loop of Evaluate: every operator of the order in turn gets the
     * value of its operation on its operands; a null operand link stops it.
     */
    method ReplayOrder(ar: Arithmetic<N>) returns (e: Option<EvalError>)
      requires Valid()
      modifies values
      ensures (values[..], e) == Replay(ar, tokens, order, old(values[..]), |order|)
    {
      ghost var start := values[..];
      var k := 0;
      while k < |order|
        invariant 0 <= k <= |order|
        invariant Replay(ar, tokens, order, start, k) == (values[..], None)
      {
        var i := order[k];
        var t := tokens[i];
        if t.left.Null? || t.right.Null? {
          ReplayStops(ar, tokens, order, start, k + 1, |order|);
          return Some(NullReference);
        }
        ghost var before := values[..];
        values[i] := Apply(ar, t.operation, values[t.left.index], values[t.right.index]);
        assert values[..] == before[i := Apply(ar, t.operation, before[t.left.index], before[t.right.index])];
        k := k + 1;
      }
      e := None;
    }
  }

  // ----- Properties of evaluation -----

  /** Once an operator faults, the replay stops: the state and the error stay as they were. */
  lemma {:induction false} ReplayStops<N>(ar: Arithmetic<N>, tokens: seq<Token>, order: seq<nat>, values: seq<N>, k: nat, m: nat)
    requires k <= m <= |order| && |values| == |tokens|
    requires LinksValid(tokens) && OrderValid(tokens, order)
    requires Replay(ar, tokens, order, values, k).1.Some?
    ensures Replay(ar, tokens, order, values, m) == Replay(ar, tokens, order, values, k)
    decreases m - k
  {
    if k < m {
      ReplayStops(ar, tokens, order, values, k, m - 1);
    }
  }

  /** Replay writes only the slots of operators it has visited. */
  lemma {:induction false} ReplayFrame<N>(ar: Arithmetic<N>, tokens: seq<Token>, order: seq<nat>, values: seq<N>, k: nat)
    requires k <= |order| && |values| == |tokens|
    requires LinksValid(tokens) && OrderValid(tokens, order)
    ensures forall j :: 0 <= j < |values| && j !in order[..k] ==>
              Replay(ar, tokens, order, values, k).0[j] == values[j]
  {
    if k > 0 {
      ReplayFrame(ar, tokens, order, values, k - 1);
      assert forall j :: j in order[..k - 1] ==> j in order[..k];
    }
  }

  /**
   * Evaluation changes the Value of the input variable and of the operators in
   * the order, and of no other token.
   */
  lemma EvaluateChangesOnlyInputAndOrder<N>(ar: Arithmetic<N>, f: CompiledFormula<N>, x: N)
    requires ValidImage(f)
    ensures var v := EvaluateSpec(ar, f, x).1;
            |v| == |f.values| &&
            forall j :: 0 <= j < |v| && j !in f.order &&
                        (DefaultOperand in f.operands ==> j != f.operands[DefaultOperand]) ==>
              v[j] == f.values[j]
  {
    if DefaultOperand in f.operands {
      var start := f.values[f.operands[DefaultOperand] := x];
      ReplayFrame(ar, f.tokens, f.order, start, |f.order|);
      assert f.order[..|f.order|] == f.order;
    }
  }

  /** An operand link that refers to a number or a variable, or to an operator the order recomputes before entry `k`. */
  ghost predicate SettledBefore(tokens: seq<Token>, order: seq<nat>, k: nat, r: Ref)
    requires k <= |order|
  {
    r.Ptr? && r.index < |tokens| &&
    (!tokens[r.index].ExpressionToken? || r.index in order[..k])
  }

  /** Every operator's operands are computed before it in the order. */
  ghost predicate Settled(tokens: seq<Token>, order: seq<nat>)
    requires OrderValid(tokens, order)
  {
    forall k :: 0 <= k < |order| ==>
      SettledBefore(tokens, order, k, tokens[order[k]].left) &&
      SettledBefore(tokens, order, k, tokens[order[k]].right)
  }

  /** Two value assignments that agree on every token that is not an operator. */
  ghost predicate SameLeaves<N>(tokens: seq<Token>, v1: seq<N>, v2: seq<N>)
  {
    |v1| == |tokens| && |v2| == |tokens| &&
    forall j :: 0 <= j < |tokens| && !tokens[j].ExpressionToken? ==> v1[j] == v2[j]
  }

  /** Replaying a settled order from two states with the same leaves agrees on every visited operator. */
  lemma {:induction false} ReplaySettled<N>(ar: Arithmetic<N>, tokens: seq<Token>, order: seq<nat>,
                                            v1: seq<N>, v2: seq<N>, k: nat)
    requires k <= |order| && LinksValid(tokens) && OrderValid(tokens, order)
    requires Settled(tokens, order) && SameLeaves(tokens, v1, v2)
    ensures Replay(ar, tokens, order, v1, k).1 == None && Replay(ar, tokens, order, v2, k).1 == None
    ensures SameLeaves(tokens, Replay(ar, tokens, order, v1, k).0, Replay(ar, tokens, order, v2, k).0)
    ensures forall j :: j in order[..k] ==>
              Replay(ar, tokens, order, v1, k).0[j] == Replay(ar, tokens, order, v2, k).0[j]
  {
    if k > 0 {
      ReplaySettled(ar, tokens, order, v1, v2, k - 1);
      var (a, _) := Replay(ar, tokens, order, v1, k - 1);
      var (b, _) := Replay(ar, tokens, order, v2, k - 1);
      var i := order[k - 1];
      var t := tokens[i];
      assert SettledBefore(tokens, order, k - 1, t.left);
      assert SettledBefore(tokens, order, k - 1, t.right);
      assert a[t.left.index] == b[t.left.index];
      assert a[t.right.index] == b[t.right.index];
      forall j | j in order[..k]
        ensures Replay(ar, tokens, order, v1, k).0[j] == Replay(ar, tokens, order, v2, k).0[j]
      {
        if j != i {
          assert j in order[..k - 1] by {
            var m :| 0 <= m < k && order[m] == j;
            assert m != k - 1;
            assert order[..k - 1][m] == j;
          }
        }
      }
    }
  }

  /**
   * Two value assignments that agree on every number and on every variable
   * other than the input "x", whose value evaluation overwrites.
   */
  ghost predicate SameConstants<N>(tokens: seq<Token>, v1: seq<N>, v2: seq<N>)
  {
    |v1| == |tokens| && |v2| == |tokens| &&
    forall j :: 0 <= j < |tokens| && !tokens[j].ExpressionToken? && tokens[j] != VariableToken(DefaultOperand) ==>
      v1[j] == v2[j]
  }

  /**
   * When every operator's operands are computed before it, the result of an
   * evaluation depends only on the input and on the values of numbers and
   * other variables: values left behind by earlier evaluations do not matter.
   */
  lemma HistoryIndependent<N>(ar: Arithmetic<N>, f: CompiledFormula<N>, g: CompiledFormula<N>, x: N)
    requires ValidImage(f) && Settled(f.tokens, f.order)
    requires g == f.(values := g.values) && SameConstants(f.tokens, f.values, g.values)
    ensures Result(ar, f, x) == Result(ar, g, x)
  {
    if DefaultOperand in f.operands {
      var n := |f.order|;
      var xi := f.operands[DefaultOperand];
      var s1 := f.values[xi := x];
      var s2 := g.values[xi := x];
      assert SameLeaves(f.tokens, s1, s2) by {
        forall j | 0 <= j < |f.tokens| && !f.tokens[j].ExpressionToken?
          ensures s1[j] == s2[j]
        {
          if f.tokens[j] == VariableToken(DefaultOperand) {
            assert j == xi;
          }
        }
      }
      ReplaySettled(ar, f.tokens, f.order, s1, s2, n);
      if n > 0 {
        assert f.order[n - 1] in f.order[..n];
      }
    }
  }

  /** Evaluating again with the same input gives the same result, for a settled order. */
  lemma EvaluateRepeatable<N>(ar: Arithmetic<N>, f: CompiledFormula<N>, x: N)
    requires ValidImage(f) && Settled(f.tokens, f.order)
    ensures Result(ar, AfterEvaluate(ar, f, x), x) == Result(ar, f, x)
  {
    var g := AfterEvaluate(ar, f, x);
    EvaluateChangesOnlyInputAndOrder(ar, f, x);
    assert SameConstants(f.tokens, g.values, f.values) by {
      forall j | 0 <= j < |f.tokens| && !f.tokens[j].ExpressionToken? && f.tokens[j] != VariableToken(DefaultOperand)
        ensures g.values[j] == f.values[j]
      {
        assert j !in f.order;
        if DefaultOperand in f.operands {
          assert f.tokens[f.operands[DefaultOperand]] == VariableToken(DefaultOperand);
        }
      }
    }
    HistoryIndependent(ar, g, f, x);
  }
}
