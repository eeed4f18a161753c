/**
 * The formula parser as the source writes it: an object whose fields are the
 * scan's state (buffer, count, stack, order, current and next expression,
 * the pending operand), updated in place character by character.  Every
 * method is proved to perform exactly the corresponding step of ParseSteps,
 * so the properties proved there hold of the object.
 */
module Parsing {
  import opened Wrappers
  import opened ExpressionTokens
  import ParseSteps
  import Formulas

  /** The parser's 4-slot token buffer, every slot empty. */
  method NewBuffer() returns (b: array<Ref>)
    ensures fresh(b) && b[..] == [Null, Null, Null, Null]
  {
    b := new Ref[ParseSteps.BufferSize](_ => Null);
    assert b[..] == [Null, Null, Null, Null];
  }

  class FormulaParser<N> {
    var source: string
    var tokens: seq<Token>              // the arena of tokens created by the current parse
    var values: seq<N>                  // their Value fields
    var operands: map<string, nat>      // the formula's variable table
    var stack: seq<nat>                 // deferred operators and bracket markers, top last
    var buffer: array<Ref>              // the 4-slot token buffer
    var count: int                      // the number of buffered items
    var inOperand: bool                 // an operand is being scanned (kept across parses)
    var start: int                      // where that operand started (kept across parses)
    var curr: Ref                       // the current expression
    var next: Ref                       // the next expression
    var order: seq<nat>                 // the reductions emitted so far

    /** The parser's fields as a ParseSteps state. */
    ghost function State(): ParseSteps.ParserState<N>
      reads this, buffer
    {
      ParseSteps.ParserState(tokens, values, operands, stack, buffer[..], count, inOperand, start, curr, next, order)
    }

    /**
     * A step either succeeded and left exactly the state the step function
     * computes, or raised the step function's exception, leaving its operand
     * flag and start index behind.
     */
    ghost predicate Reflects(r: Outcome<ParseSteps.ParseError>, spec: Result<ParseSteps.ParserState<N>, ParseSteps.Failure>)
      reads this, buffer
    {
      (spec.Ok? ==> r.Pass? && State() == spec.value) &&
      (spec.Err? ==> r == Fail(spec.error.error) && inOperand == spec.error.inOperand && start == spec.error.start)
    }

    /** A new parser is not inside an operand, and its operand start is -1. */
    constructor()
      ensures !inOperand && start == -1
    {
      source := "";
      tokens := [];
      values := [];
      operands := map[];
      stack := [];
      buffer := new Ref[ParseSteps.BufferSize](_ => Null);
      count := 0;
      inOperand := false;
      start := -1;
      curr := Null;
      next := Null;
      order := [];
    }

    /** StartOperand: the first character of an operand records its index. */
    method StartOperand(index: int)
      modifies this
      ensures buffer == old(buffer) && source == old(source)
      ensures State() == ParseSteps.StartOperand(old(State()), index)
    {
      if inOperand {
        return;
      }
      inOperand := true;
      start := index;
    }

    /**
     * The token for an operand text: a new number token holding the parsed
     * value, or the one variable token of that name, created on first use.
     */
    method Intern(text: string, num: string -> Option<N>, zero: N) returns (operand: nat)
      requires ParseSteps.WellFormed(State())
      modifies this
      ensures buffer == old(buffer) && source == old(source)
      ensures (State(), operand) == ParseSteps.Intern(old(State()), text, num, zero)
    {
      match num(text)
      case Some(v) =>
        operand := |tokens|;
        tokens := tokens + [NumberToken];
        values := values + [v];
      case None =>
        if text in operands {
          operand := operands[text];
        } else {
          operand := |tokens|;
          tokens := tokens + [VariableToken(text)];
          values := values + [zero];
          operands := operands[text := operand];
        }
    }

    /**
     * EndOperand: the pending operand's text becomes a number token, or the
     * shared variable token of that name, in the next buffer slot.
     */
    method EndOperand(index: int, num: string -> Option<N>, zero: N) returns (r: Outcome<ParseSteps.ParseError>)
      requires ParseSteps.WellFormed(State())
      modifies this, buffer
      ensures buffer == old(buffer) && source == old(source)
      ensures Reflects(r, ParseSteps.EndOperand(old(State()), source, index, num, zero))
    {
      r := Pass;
      if !inOperand {
        return;
      }
      if !(0 <= start <= index <= |source|) {
        return Fail(ParseSteps.ArgumentOutOfRange);
      }
      var operand := Intern(source[start..index], num, zero);
      if count == ParseSteps.BufferSize {
        return Fail(ParseSteps.IndexOutOfRange);
      }
      buffer[count] := Ptr(operand);
      count := count + 1;
      inOperand := false;
    }

    /** `(` after an operator: the buffered operator takes its Left and is deferred. */
    method PushPending() returns (r: Outcome<ParseSteps.ParseError>)
      requires ParseSteps.WellFormed(State())
      modifies this
      ensures buffer == old(buffer) && source == old(source)
      ensures Reflects(r, ParseSteps.PushPending(old(State())))
    {
      r := Pass;
      var b := buffer[1];
      if b.Ptr? && !tokens[b.index].ExpressionToken? {
        return Fail(ParseSteps.InvalidCast);
      }
      if b.Null? {
        return Fail(ParseSteps.NullReference);
      }
      tokens := tokens[b.index := tokens[b.index].(left := buffer[0])];
      stack := stack + [b.index];
    }

    /**
     * `(`: rejected directly after an identifier; otherwise the buffered
     * operator, if any, gets its Left and is deferred, a bracket marker is
     * pushed and the buffer starts over.
     */
    method OpenBracket(zero: N) returns (r: Outcome<ParseSteps.ParseError>)
      requires ParseSteps.WellFormed(State())
      modifies this, buffer
      ensures buffer == old(buffer) && source == old(source)
      ensures Reflects(r, ParseSteps.OpenBracket(old(State()), zero))
    {
      r := Pass;
      if inOperand {
        return Fail(ParseSteps.NotSupported);
      }
      if count > 0 {
        r := PushPending();
        if r.Fail? {
          return;
        }
      }
      count := 0;
      tokens := tokens + [OpenBracketToken];
      values := values + [zero];
      stack := stack + [|tokens| - 1];
    }

    /** The buffered operator of `)` becomes the next expression, bound to the buffered operands. */
    method Group()
      requires ParseSteps.WellFormed(State())
      requires buffer[1].Ptr? && tokens[buffer[1].index].ExpressionToken?
      modifies this
      ensures buffer == old(buffer) && source == old(source)
      ensures State() == ParseSteps.Group(old(State()))
    {
      next := buffer[1];
      tokens := tokens[next.index := tokens[next.index].(left := buffer[0])];
      tokens := tokens[next.index := tokens[next.index].(right := buffer[2])];
    }

    /** One round of the loop of `)`: the popped operator takes the next expression as Right and it is emitted. */
    method UnwindOnce()
      requires ParseSteps.WellFormed(State()) && next.Ptr? && |stack| > 0
      requires !tokens[stack[|stack| - 1]].OpenBracketToken?
      modifies this
      ensures buffer == old(buffer) && source == old(source)
      ensures State() == ParseSteps.UnwindStep(old(State()))
    {
      var t := stack[|stack| - 1];
      stack := stack[..|stack| - 1];
      order := order + [next.index];
      curr := Ptr(t);
      tokens := tokens[t := tokens[t].(right := next)];
      next := Ptr(t);
    }

    /**
     * The loop of `)`: operators are popped up to the bracket marker, each
     * taking the previous group as its Right and being emitted before it.
     */
    method Unwind() returns (r: Outcome<ParseSteps.ParseError>)
      requires ParseSteps.WellFormed(State()) && next.Ptr?
      modifies this
      ensures buffer == old(buffer) && source == old(source)
      ensures Reflects(r, ParseSteps.Unwind(old(State())))
    {
      r := Pass;
      while |stack| > 0 && !tokens[stack[|stack| - 1]].OpenBracketToken?
        invariant buffer == old(buffer) && source == old(source)
        invariant ParseSteps.WellFormed(State()) && next.Ptr?
        invariant ParseSteps.Unwind(State()) == ParseSteps.Unwind(old(State()))
        decreases |stack|
      {
        UnwindOnce();
      }
      if |stack| == 0 {
        return Fail(ParseSteps.EmptyStack);
      }
      PopMarker();
    }

    /** The end of the loop of `)`: the bracket marker on top is dropped. */
    method PopMarker()
      requires ParseSteps.WellFormed(State()) && next.Ptr? && |stack| > 0
      requires tokens[stack[|stack| - 1]].OpenBracketToken?
      modifies this
      ensures buffer == old(buffer) && source == old(source)
      ensures State() == old(State()).(stack := ParseSteps.Pop(old(stack)))
    {
      stack := stack[..|stack| - 1];
    }

    /** After a group: the deferred operator below takes the group as Right and its triple refills the buffer. */
    method Refill()
      requires ParseSteps.WellFormed(State()) && next.Ptr? && |stack| > 0
      requires !tokens[stack[|stack| - 1]].OpenBracketToken?
      modifies this, buffer
      ensures buffer == old(buffer) && source == old(source)
      ensures State() == ParseSteps.Refill(old(State()))
    {
      var c := stack[|stack| - 1];
      stack := stack[..|stack| - 1];
      curr := Ptr(c);
      tokens := tokens[c := tokens[c].(right := next)];
      buffer[1] := Ptr(c);
      buffer[0] := tokens[c].left;
      buffer[2] := tokens[c].right;
      count := 3;
    }

    /**
     * The end of `)`: the group's root gets the bracket priority and is
     * emitted; a deferred operator below refills the buffer, or else the
     * group is the only buffered item.
     */
    method EmitGroup()
      requires ParseSteps.WellFormed(State()) && next.Ptr?
      modifies this, buffer
      ensures buffer == old(buffer) && source == old(source)
      ensures State() == ParseSteps.EmitGroup(old(State()))
    {
      ParseSteps.SetPriorityWellFormed(State(), next.index, Bracket);
      tokens := tokens[next.index := tokens[next.index].(priority := Bracket)];
      order := order + [next.index];
      if |stack| > 0 && !tokens[stack[|stack| - 1]].OpenBracketToken? {
        Refill();
      } else {
        buffer[0] := next;
        count := 1;
      }
    }

    /** `)`: groups, unwinds to the bracket marker and emits the group. */
    method CloseBracket() returns (r: Outcome<ParseSteps.ParseError>)
      requires ParseSteps.WellFormed(State())
      modifies this, buffer
      ensures buffer == old(buffer) && source == old(source)
      ensures Reflects(r, ParseSteps.CloseBracket(old(State())))
    {
      var b := buffer[1];
      if b.Ptr? && !tokens[b.index].ExpressionToken? {
        return Fail(ParseSteps.InvalidCast);
      }
      if b.Null? {
        return Fail(ParseSteps.NullReference);
      }
      Group();
      r := Unwind();
      if r.Fail? {
        return;
      }
      EmitGroup();
    }

    /** One round of the reduce loop: the current operator is emitted and the popped one becomes current. */
    method ReduceOnce()
      requires ParseSteps.WellFormed(State()) && curr.Ptr? && count == 3
      requires |stack| > 0 && !tokens[stack[|stack| - 1]].OpenBracketToken?
      modifies this, buffer
      ensures buffer == old(buffer) && source == old(source)
      ensures State() == ParseSteps.ReduceStep(old(State()))
    {
      order := order + [curr.index];
      curr := Ptr(stack[|stack| - 1]);
      stack := stack[..|stack| - 1];
      buffer[1] := curr;
    }

    /** The end of the reduce branch: the current operator is emitted and the second operator moves down. */
    method Emit()
      requires ParseSteps.WellFormed(State()) && curr.Ptr? && count == 3 && buffer[3].Ptr?
      modifies this, buffer
      ensures buffer == old(buffer) && source == old(source)
      ensures State() == ParseSteps.Emit(old(State()))
    {
      order := order + [curr.index];
      buffer[0] := buffer[1];
      buffer[1] := buffer[3];
      count := 2;
    }

    /**
     * The shift branch: the first operator takes the first operand as Left
     * and the incoming operator as a provisional Right and is deferred.
     */
    method Defer()
      requires ParseSteps.WellFormed(State()) && count == 3
      requires buffer[3].Ptr? && tokens[buffer[3].index].ExpressionToken?
      requires tokens[buffer[1].index].ExpressionToken?
      modifies this, buffer
      ensures buffer == old(buffer) && source == old(source)
      ensures State() == ParseSteps.Defer(old(State()))
    {
      var c := buffer[1].index;
      curr := buffer[1];
      next := buffer[3];
      stack := stack + [c];
      tokens := tokens[c := tokens[c].(left := buffer[0])];
      tokens := tokens[c := tokens[c].(right := buffer[3])];
      buffer[0] := buffer[2];
      buffer[1] := buffer[3];
      count := 2;
    }

    /** The reduce branch before its loop: the first operator is current and takes the buffered operands. */
    method BindCurrent()
      requires ParseSteps.WellFormed(State()) && count == 3 && buffer[3].Ptr?
      requires tokens[buffer[1].index].ExpressionToken? && tokens[buffer[3].index].ExpressionToken?
      modifies this
      ensures buffer == old(buffer) && source == old(source)
      ensures State() == ParseSteps.Reducing(old(State()))
    {
      var b := buffer[1];
      curr := b;
      next := buffer[3];
      tokens := tokens[b.index := tokens[b.index].(left := buffer[0])];
      tokens := tokens[b.index := tokens[b.index].(right := buffer[2])];
    }

    /** The reduce loop: deferred operators of at least priority `p` are emitted in turn. */
    method Reduce(p: int)
      requires ParseSteps.WellFormed(State()) && curr.Ptr? && count == 3
      modifies this, buffer
      ensures buffer == old(buffer) && source == old(source)
      ensures State() == ParseSteps.Reduce(old(State()), p)
    {
      while |stack| > 0 && !tokens[stack[|stack| - 1]].OpenBracketToken? && PriorityOf(tokens[stack[|stack| - 1]]) >= p
        invariant buffer == old(buffer) && source == old(source)
        invariant ParseSteps.WellFormed(State()) && curr.Ptr? && count == 3
        invariant ParseSteps.Reduce(State(), p) == ParseSteps.Reduce(old(State()), p)
        decreases |stack|
      {
        ReduceOnce();
      }
    }

    /**
     * ProcessBuffer, with four buffered items (operand, operator, operand,
     * operator): the first operator is reduced if it binds at least as
     * tightly as the second, taking deferred operators of at least that
     * priority along, or else deferred; two items remain.
     */
    method ProcessBuffer() returns (r: Outcome<ParseSteps.ParseError>)
      requires ParseSteps.WellFormed(State()) && count == 3
      requires buffer[3].Ptr? && tokens[buffer[3].index].ExpressionToken?
      modifies this, buffer
      ensures buffer == old(buffer) && source == old(source)
      ensures Reflects(r, ParseSteps.ProcessBuffer(old(State())))
    {
      r := Pass;
      var b := buffer[1];
      if !tokens[b.index].ExpressionToken? {
        return Fail(ParseSteps.InvalidCast);
      }
      if PriorityOf(tokens[b.index]) >= PriorityOf(tokens[buffer[3].index]) {
        var p := PriorityOf(tokens[buffer[3].index]);
        BindCurrent();
        Reduce(p);
        Emit();
      } else {
        Defer();
      }
    }

    /**
     * An operator character: a new expression token becomes the next
     * expression and goes into the next buffer slot; a full buffer is
     * processed.
     */
    method Operator(sym: char, zero: N) returns (r: Outcome<ParseSteps.ParseError>)
      requires ParseSteps.WellFormed(State())
      modifies this, buffer
      ensures buffer == old(buffer) && source == old(source)
      ensures Reflects(r, ParseSteps.Operator(old(State()), sym, zero))
    {
      tokens := tokens + [NewExpression(sym)];
      values := values + [zero];
      next := Ptr(|tokens| - 1);
      if count == ParseSteps.BufferSize {
        return Fail(ParseSteps.IndexOutOfRange);
      }
      buffer[count] := next;
      assert State() == ParseSteps.Enqueue(old(State()), sym, zero);
      if count == 3 {
        r := ProcessBuffer();
      } else {
        count := count + 1;
        r := Pass;
      }
    }

    /** One character of the scan, dispatched as the parser's switch does. */
    method Step(i: nat, num: string -> Option<N>, zero: N) returns (r: Outcome<ParseSteps.ParseError>)
      requires ParseSteps.WellFormed(State()) && i < |source|
      modifies this, buffer
      ensures buffer == old(buffer) && source == old(source)
      ensures Reflects(r, ParseSteps.CharStep(old(State()), source, i, num, zero))
    {
      var c := source[i];
      if ParseSteps.IsWhitespace(c) {
        r := EndOperand(i, num, zero);
      } else if c == '(' {
        r := OpenBracket(zero);
      } else if c == ')' {
        r := EndOperand(i, num, zero);
        if r.Pass? {
          r := CloseBracket();
        }
      } else if IsOperatorSymbol(c) {
        r := EndOperand(i, num, zero);
        if r.Pass? {
          r := Operator(c, zero);
        }
      } else {
        StartOperand(i);
        r := Pass;
      }
    }

    /** At the end of input: the remaining triple is bound, or the single remaining group emitted. */
    method BindLast() returns (r: Outcome<ParseSteps.ParseError>)
      requires ParseSteps.WellFormed(State())
      modifies this
      ensures buffer == old(buffer) && source == old(source)
      ensures Reflects(r, ParseSteps.BindLast(old(State())))
    {
      r := Pass;
      if count == 1 {
        if !tokens[buffer[0].index].ExpressionToken? {
          return Fail(ParseSteps.InvalidCast);
        }
        next := buffer[0];
        order := order + [next.index];
      } else if count == 3 {
        if !tokens[buffer[1].index].ExpressionToken? {
          return Fail(ParseSteps.InvalidCast);
        }
        Group();
        order := order + [next.index];
      }
    }

    /** One round of the final loop: the popped operator takes the previous result as Right and is emitted. */
    method DrainOnce()
      requires ParseSteps.WellFormed(State()) && |stack| > 0
      requires !tokens[stack[|stack| - 1]].OpenBracketToken?
      modifies this
      ensures buffer == old(buffer) && source == old(source)
      ensures State() == ParseSteps.DrainStep(old(State()))
    {
      var t := stack[|stack| - 1];
      stack := stack[..|stack| - 1];
      curr := Ptr(t);
      tokens := tokens[t := tokens[t].(right := next)];
      order := order + [t];
      next := Ptr(t);
    }

    /**
     * The final loop: each deferred operator takes the previous result as
     * its Right and is emitted; an unclosed bracket marker fails the cast.
     */
    method Drain() returns (r: Outcome<ParseSteps.ParseError>)
      requires ParseSteps.WellFormed(State())
      modifies this
      ensures buffer == old(buffer) && source == old(source)
      ensures Reflects(r, ParseSteps.Drain(old(State())))
    {
      while |stack| > 0
        invariant buffer == old(buffer) && source == old(source)
        invariant ParseSteps.WellFormed(State())
        invariant ParseSteps.Drain(State()) == ParseSteps.Drain(old(State()))
        decreases |stack|
      {
        if tokens[stack[|stack| - 1]].OpenBracketToken? {
          return Fail(ParseSteps.InvalidCast);
        }
        DrainOnce();
      }
      r := Pass;
    }

    /** The end of input: the pending operand is closed, the last group bound and the stack drained. */
    method Finish(num: string -> Option<N>, zero: N) returns (r: Outcome<ParseSteps.ParseError>)
      requires ParseSteps.WellFormed(State())
      modifies this, buffer
      ensures buffer == old(buffer) && source == old(source)
      ensures Reflects(r, ParseSteps.Finish(old(State()), source, num, zero))
    {
      if inOperand {
        r := EndOperand(|source|, num, zero);
        if r.Fail? {
          return;
        }
      }
      r := BindLast();
      if r.Fail? {
        return;
      }
      r := Drain();
    }

    /** The scan of the whole text, one character at a time. */
    method Scan(num: string -> Option<N>, zero: N) returns (r: Outcome<ParseSteps.ParseError>)
      requires ParseSteps.WellFormed(State())
      modifies this, buffer
      ensures buffer == old(buffer) && source == old(source)
      ensures Reflects(r, ParseSteps.ScanFrom(old(State()), source, 0, num, zero))
    {
      for i := 0 to |source|
        invariant buffer == old(buffer) && source == old(source)
        invariant ParseSteps.WellFormed(State())
        invariant ParseSteps.ScanFrom(old(State()), source, 0, num, zero) == ParseSteps.ScanFrom(State(), source, i, num, zero)
      {
        ghost var before := State();
        r := Step(i, num, zero);
        if r.Fail? {
          return;
        }
        ParseSteps.ScanFromStep(before, source, i, num, zero, State());
      }
      r := Pass;
    }

    /** The start of Parse: the fresh buffer, an empty arena, stack and order; the operand flag and start stay. */
    method Reset(src: string, b: array<Ref>)
      modifies this
      ensures source == src && buffer == b && count == 0
      ensures inOperand == old(inOperand) && start == old(start)
      ensures tokens == [] && values == [] && operands == map[]
      ensures stack == [] && order == [] && curr == Null && next == Null
    {
      source, buffer, count := src, b, 0;
      tokens, values, operands := [], [], map[];
      stack, order, curr, next := [], [], Null, Null;
    }

    /**
     * Parse: starts from a fresh buffer, an empty stack and order and a new
     * formula, keeps only the operand flag and start index of the previous
     * call, scans the text once and finishes.  The result is the compiled
     * formula of ParseSteps.Run, or its exception.
     */
    method Parse(src: string, num: string -> Option<N>, zero: N) returns (r: Result<Formulas.Formula<N>, ParseSteps.ParseError>)
      modifies this
      ensures var run := ParseSteps.Run(src, num, zero, old(inOperand), old(start));
              (run.Ok? ==> r.Ok? && fresh(r.value) && fresh(r.value.values) && r.value.Valid() &&
                           r.value.Image() == ParseSteps.Compile(run.value, src) &&
                           inOperand == run.value.inOperand && start == run.value.start) &&
              (run.Err? ==> r == Err(run.error.error) && inOperand == run.error.inOperand && start == run.error.start)
    {
      var b := NewBuffer();
      Reset(src, b);
      assert State() == ParseSteps.Initial(old(inOperand), old(start));
      var res := Scan(num, zero);
      if res.Fail? {
        return Err(res.error);
      }
      res := Finish(num, zero);
      if res.Fail? {
        return Err(res.error);
      }
      ghost var c := ParseSteps.Compile(State(), src);
      var formula := new Formulas.Formula(Formulas.CompiledFormula(tokens, values, operands, order, src));
      r := Ok(formula);
    }
  }
}
