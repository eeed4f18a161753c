/**
 * The one-pass formula compiler as functions on the parser's state.  Each
 * function is one step of the scan: closing or opening an operand, an open
 * bracket, a close bracket, an operator (with the reduce-or-shift decision on
 * the 4-slot buffer), and the end of input.  The imperative parser class in
 * module Parsing is proved to perform exactly these steps.
 *
 * Tokens are held in an arena (`tokens`, with their current values in
 * `values`); the buffer, the stack and the order hold references into it.
 * The stack's top is the last element of `stack`.
 */
module ParseSteps {
  import opened Wrappers
  import opened ExpressionTokens
  import Formulas

  /** The exceptions the parser can raise. */
  datatype ParseError =
    | InvalidCast          // a buffer slot or stack entry is not an ExpressionToken
    | NullReference        // an operator is read from an empty buffer slot
    | EmptyStack           // `)` without a matching `(`
    | IndexOutOfRange      // a fifth item is written into the 4-slot buffer
    | ArgumentOutOfRange   // the pending operand's start lies after its end
    | NotSupported         // an identifier directly followed by `(` (a function call)

  /**
   * A failed parse: the exception, and the operand flag and start index at
   * that point, which the parser keeps for its next call.
   */
  datatype Failure = Failure(error: ParseError, inOperand: bool, start: int)

  const BufferSize: nat := 4

  datatype ParserState<N> = ParserState(
    tokens: seq<Token>,         // the arena
    values: seq<N>,             // the Value of each arena token
    operands: map<string, nat>, // the formula's variable table
    stack: seq<nat>,            // deferred operators and bracket markers, top last
    buffer: seq<Ref>,           // the 4-slot token buffer
    count: int,                 // the number of buffered items
    inOperand: bool,            // an operand is being scanned
    start: int,                 // where that operand started
    curr: Ref,                  // the current expression
    next: Ref,                  // the next (most recent) expression
    order: seq<nat>)            // reductions emitted so far

  function Fail<N>(e: ParseError, s: ParserState<N>): Failure
  {
    Failure(e, s.inOperand, s.start)
  }

  function Top(stack: seq<nat>): nat
    requires |stack| > 0
  {
    stack[|stack| - 1]
  }

  function Pop(stack: seq<nat>): seq<nat>
    requires |stack| > 0
  {
    stack[..|stack| - 1]
  }

  // ----- The parser's invariant -----

  /**
   * The buffer has four slots holding value-token references, the items
   * below the count are present, and a present slot has present slots below it.
   */
  ghost predicate BufferValid(tokens: seq<Token>, buffer: seq<Ref>, count: int)
  {
    |buffer| == BufferSize && 0 <= count <= BufferSize &&
    (forall k :: 0 <= k < BufferSize ==> ValueRef(tokens, buffer[k])) &&
    (forall k :: 0 <= k < count ==> buffer[k].Ptr?) &&
    (forall j, k :: 0 <= j < k < BufferSize && buffer[k].Ptr? ==> buffer[j].Ptr?)
  }

  /** The stack holds bracket markers and operators whose Left is bound. */
  ghost predicate StackValid(tokens: seq<Token>, stack: seq<nat>)
  {
    forall k :: 0 <= k < |stack| ==>
      stack[k] < |tokens| &&
      (tokens[stack[k]].OpenBracketToken? ||
       (tokens[stack[k]].ExpressionToken? && tokens[stack[k]].left.Ptr?))
  }

  ghost predicate WellFormed<N>(s: ParserState<N>)
  {
    |s.values| == |s.tokens| &&
    BufferValid(s.tokens, s.buffer, s.count) &&
    StackValid(s.tokens, s.stack) &&
    OrderValid(s.tokens, s.order) &&
    ExprRef(s.tokens, s.curr) && ExprRef(s.tokens, s.next) &&
    LinksValid(s.tokens) && Interned(s.tokens, s.operands)
  }

  // ----- Updates of one expression token -----

  function SetLeft<N>(s: ParserState<N>, i: nat, r: Ref): ParserState<N>
    requires i < |s.tokens| && s.tokens[i].ExpressionToken?
  {
    s.(tokens := s.tokens[i := s.tokens[i].(left := r)])
  }

  function SetRight<N>(s: ParserState<N>, i: nat, r: Ref): ParserState<N>
    requires i < |s.tokens| && s.tokens[i].ExpressionToken?
  {
    s.(tokens := s.tokens[i := s.tokens[i].(right := r)])
  }

  function SetPriority<N>(s: ParserState<N>, i: nat, p: int): ParserState<N>
    requires i < |s.tokens| && s.tokens[i].ExpressionToken?
  {
    s.(tokens := s.tokens[i := s.tokens[i].(priority := p)])
  }

  /** Rebinding an operand link to a value token keeps the invariant. */
  lemma SetLeftWellFormed<N>(s: ParserState<N>, i: nat, r: Ref)
    requires WellFormed(s) && i < |s.tokens| && s.tokens[i].ExpressionToken?
    requires ValueRef(s.tokens, r) && r.Ptr?
    ensures WellFormed(SetLeft(s, i, r))
  {
    var t := SetLeft(s, i, r).tokens;
    assert forall j :: 0 <= j < |t| ==> TypeOf(t[j]) == TypeOf(s.tokens[j]);
    assert forall j :: 0 <= j < |t| && j != i ==> t[j] == s.tokens[j];
  }

  lemma SetRightWellFormed<N>(s: ParserState<N>, i: nat, r: Ref)
    requires WellFormed(s) && i < |s.tokens| && s.tokens[i].ExpressionToken?
    requires ValueRef(s.tokens, r)
    ensures WellFormed(SetRight(s, i, r))
  {
    var t := SetRight(s, i, r).tokens;
    assert forall j :: 0 <= j < |t| ==> TypeOf(t[j]) == TypeOf(s.tokens[j]);
    assert forall j :: 0 <= j < |t| && j != i ==> t[j] == s.tokens[j];
  }

  lemma SetPriorityWellFormed<N>(s: ParserState<N>, i: nat, p: int)
    requires WellFormed(s) && i < |s.tokens| && s.tokens[i].ExpressionToken?
    ensures WellFormed(SetPriority(s, i, p))
  {
    var t := SetPriority(s, i, p).tokens;
    assert forall j :: 0 <= j < |t| ==> TypeOf(t[j]) == TypeOf(s.tokens[j]);
    assert forall j :: 0 <= j < |t| && j != i ==> t[j] == s.tokens[j];
  }

  /** Appending a fresh token that is not a variable keeps the invariant. */
  lemma AppendWellFormed<N>(s: ParserState<N>, t: Token, v: N)
    requires WellFormed(s) && !t.VariableToken?
    requires t.ExpressionToken? ==> t.left == Null && t.right == Null
    ensures WellFormed(s.(tokens := s.tokens + [t], values := s.values + [v]))
  {
    var u := s.tokens + [t];
    assert forall j :: 0 <= j < |s.tokens| ==> u[j] == s.tokens[j];
  }

  // ----- Operands -----

  /** StartOperand: the first character of an operand records where it starts. */
  function StartOperand<N>(s: ParserState<N>, i: int): (r: ParserState<N>)
    ensures s.inOperand ==> r == s
    ensures !s.inOperand ==> r == s.(inOperand := true, start := i)
  {
    if s.inOperand then s else s.(inOperand := true, start := i)
  }

  /**
   * The token for an operand text: a fresh number token holding the parsed
   * value, or the one variable token of that name, created on first use.
   */
  function Intern<N>(s: ParserState<N>, text: string, num: string -> Option<N>, zero: N): (r: (ParserState<N>, nat))
    requires WellFormed(s)
    ensures WellFormed(r.0) && r.1 < |r.0.tokens|
    ensures r.0.stack == s.stack && r.0.buffer == s.buffer && r.0.count == s.count && r.0.order == s.order
    ensures r.0.inOperand == s.inOperand && r.0.start == s.start && r.0.curr == s.curr && r.0.next == s.next
    ensures num(text).Some? ==>
              r.1 == |s.tokens| && r.0.tokens == s.tokens + [NumberToken] &&
              r.0.values == s.values + [num(text).value] && r.0.operands == s.operands
    ensures num(text).None? ==>
              r.0.tokens[r.1] == VariableToken(text) &&
              r.0.operands.Keys == s.operands.Keys + {text} &&
              (text in s.operands ==> r.0.tokens == s.tokens && r.0.values == s.values && r.0.operands == s.operands) &&
              (text !in s.operands ==> r.1 == |s.tokens| && r.0.tokens == s.tokens + [VariableToken(text)])
  {
    match num(text)
    case Some(v) =>
      AppendWellFormed(s, NumberToken, v);
      (s.(tokens := s.tokens + [NumberToken], values := s.values + [v]), |s.tokens|)
    case None =>
      if text in s.operands then (s, s.operands[text])
      else
        var r := s.(tokens := s.tokens + [VariableToken(text)], values := s.values + [zero],
                    operands := s.operands[text := |s.tokens|]);
        assert forall j :: 0 <= j < |s.tokens| ==> r.tokens[j] == s.tokens[j];
        (r, |s.tokens|)
  }

  /**
   * EndOperand: closes the pending operand ending before `index`, and puts
   * its token into the next buffer slot.  Without a pending operand nothing
   * happens.
   */
  function EndOperand<N>(s: ParserState<N>, src: string, index: int, num: string -> Option<N>, zero: N)
    : (r: Result<ParserState<N>, Failure>)
    requires WellFormed(s)
    ensures r.Ok? ==> WellFormed(r.value) && !r.value.inOperand
    ensures !s.inOperand ==> r == Ok(s)
  {
    if !s.inOperand then Ok(s)
    else if !(0 <= s.start <= index <= |src|) then Err(Fail(ArgumentOutOfRange, s))
    else
      var (s1, operand) := Intern(s, src[s.start..index], num, zero);
      if s1.count == BufferSize then Err(Fail(IndexOutOfRange, s1))
      else Ok(s1.(buffer := s1.buffer[s1.count := Ptr(operand)], count := s1.count + 1, inOperand := false))
  }

  // ----- Brackets -----

  /** `(` after an operator: binds the buffered operator's Left and defers it. */
  function PushPending<N>(s: ParserState<N>): (r: Result<ParserState<N>, Failure>)
    requires WellFormed(s)
    ensures r.Ok? ==> WellFormed(r.value)
  {
    var b := s.buffer[1];
    if b.Ptr? && !s.tokens[b.index].ExpressionToken? then Err(Fail(InvalidCast, s))
    else if b.Null? then Err(Fail(NullReference, s))
    else
      SetLeftWellFormed(s, b.index, s.buffer[0]);
      var s1 := SetLeft(s, b.index, s.buffer[0]);
      Ok(s1.(stack := s1.stack + [b.index]))
  }

  /**
   * `(`: directly after an identifier it is a function call, which is not
   * supported; otherwise the buffered operator (if any) is deferred, a bracket
   * marker is pushed and the buffer starts over.
   */
  function OpenBracket<N>(s: ParserState<N>, zero: N): (r: Result<ParserState<N>, Failure>)
    requires WellFormed(s)
    ensures r.Ok? ==> WellFormed(r.value)
  {
    if s.inOperand then Err(Fail(NotSupported, s))
    else
      var s1 :- if s.count > 0 then PushPending(s) else Ok(s);
      AppendWellFormed(s1, OpenBracketToken, zero);
      var s2 := s1.(tokens := s1.tokens + [OpenBracketToken], values := s1.values + [zero]);
      Ok(s2.(stack := s2.stack + [|s1.tokens|], count := 0))
  }

  /**
   * Binds expression `i` to the first and third buffered items, as its Left
   * and Right operands.
   */
  function Bind<N>(s: ParserState<N>, i: nat): (r: ParserState<N>)
    requires WellFormed(s) && i < |s.tokens| && s.tokens[i].ExpressionToken? && s.buffer[0].Ptr?
    ensures WellFormed(r)
  {
    SetLeftWellFormed(s, i, s.buffer[0]);
    SetRightWellFormed(SetLeft(s, i, s.buffer[0]), i, s.buffer[2]);
    SetRight(SetLeft(s, i, s.buffer[0]), i, s.buffer[2])
  }

  /** The buffered operator of a `)` becomes the next expression, bound to the buffered operands. */
  function Group<N>(s: ParserState<N>): (r: ParserState<N>)
    requires WellFormed(s) && s.buffer[1].Ptr? && s.tokens[s.buffer[1].index].ExpressionToken?
    ensures WellFormed(r) && r.next.Ptr?
  {
    Bind(s.(next := s.buffer[1]), s.buffer[1].index)
  }

  /** Some entry of the stack is a bracket marker: a `(` not yet closed. */
  ghost predicate HasMarker(tokens: seq<Token>, stack: seq<nat>)
  {
    exists k :: 0 <= k < |stack| && stack[k] < |tokens| && tokens[stack[k]].OpenBracketToken?
  }

  /**
   * Popping an entry that is not a marker, while the tokens keep their kinds,
   * neither adds nor removes a marker below it.
   */
  lemma PopKeepsMarker(tokens: seq<Token>, tokens2: seq<Token>, stack: seq<nat>)
    requires |stack| > 0 && Top(stack) < |tokens| && !tokens[Top(stack)].OpenBracketToken?
    requires |tokens2| == |tokens|
    requires forall i :: 0 <= i < |tokens| ==> tokens2[i].OpenBracketToken? == tokens[i].OpenBracketToken?
    ensures HasMarker(tokens2, Pop(stack)) <==> HasMarker(tokens, stack)
  {
    if HasMarker(tokens, stack) {
      var k :| 0 <= k < |stack| && stack[k] < |tokens| && tokens[stack[k]].OpenBracketToken?;
      assert k < |stack| - 1 && Pop(stack)[k] == stack[k];
    }
    if HasMarker(tokens2, Pop(stack)) {
      var k :| 0 <= k < |Pop(stack)| && Pop(stack)[k] < |tokens2| && tokens2[Pop(stack)[k]].OpenBracketToken?;
      assert stack[k] == Pop(stack)[k];
    }
  }

  /** One round of the loop of `)`: the popped operator takes the next expression as Right, which is emitted. */
  function UnwindStep<N>(s: ParserState<N>): (r: ParserState<N>)
    requires WellFormed(s) && s.next.Ptr? && |s.stack| > 0 && !s.tokens[Top(s.stack)].OpenBracketToken?
    ensures WellFormed(r) && r.next.Ptr? && |r.stack| == |s.stack| - 1
    ensures r.inOperand == s.inOperand && r.start == s.start
    ensures HasMarker(r.tokens, r.stack) <==> HasMarker(s.tokens, s.stack)
  {
    var t := Top(s.stack);
    var s1 := s.(stack := Pop(s.stack), order := s.order + [s.next.index], curr := Ptr(t));
    SetRightWellFormed(s1, t, s1.next);
    PopKeepsMarker(s.tokens, SetRight(s1, t, s1.next).tokens, s.stack);
    SetRight(s1, t, s1.next).(next := Ptr(t))
  }

  /**
   * The loop of `)`: pops operators up to the nearest bracket marker, each
   * taking the previous group as its Right and being emitted before it.
   */
  function Unwind<N>(s: ParserState<N>): (r: Result<ParserState<N>, Failure>)
    requires WellFormed(s) && s.next.Ptr?
    ensures r.Ok? ==> WellFormed(r.value) && r.value.next.Ptr? && |r.value.stack| < |s.stack|
    ensures r.Err? <==> !HasMarker(s.tokens, s.stack)
    ensures r.Err? ==> r.error == Fail(EmptyStack, s)
    decreases |s.stack|
  {
    if |s.stack| == 0 then Err(Fail(EmptyStack, s))
    else if s.tokens[Top(s.stack)].OpenBracketToken? then Ok(s.(stack := Pop(s.stack)))
    else Unwind(UnwindStep(s))
  }

  /**
   * `)`: binds the buffered operator to the buffered operands, unwinds to the
   * bracket marker, and emits the group.
   */
  function CloseBracket<N>(s: ParserState<N>): (r: Result<ParserState<N>, Failure>)
    requires WellFormed(s)
    ensures r.Ok? ==> WellFormed(r.value)
  {
    var b := s.buffer[1];
    if b.Ptr? && !s.tokens[b.index].ExpressionToken? then Err(Fail(InvalidCast, s))
    else if b.Null? then Err(Fail(NullReference, s))
    else
      var s1 :- Unwind(Group(s));
      Ok(EmitGroup(s1))
  }

  /**
   * The end of `)`: the group's root (the next expression) gets the bracket
   * priority and is emitted; a deferred operator below takes it as its Right
   * and refills the buffer, otherwise the group becomes the first buffered item.
   */
  function EmitGroup<N>(s: ParserState<N>): (r: ParserState<N>)
    requires WellFormed(s) && s.next.Ptr?
    ensures WellFormed(r)
  {
    SetPriorityWellFormed(s, s.next.index, Bracket);
    var s1 := SetPriority(s, s.next.index, Bracket);
    var s2 := s1.(order := s1.order + [s1.next.index]);
    if |s2.stack| > 0 && !s2.tokens[Top(s2.stack)].OpenBracketToken? then Refill(s2)
    else s2.(buffer := s2.buffer[0 := s2.next], count := 1)
  }

  /** After a group: the deferred operator below takes the group as Right and its triple refills the buffer. */
  function Refill<N>(s: ParserState<N>): (r: ParserState<N>)
    requires WellFormed(s) && s.next.Ptr? && |s.stack| > 0 && !s.tokens[Top(s.stack)].OpenBracketToken?
    ensures WellFormed(r)
  {
    var c := Top(s.stack);
    var s1 := s.(curr := Ptr(c), stack := Pop(s.stack));
    SetRightWellFormed(s1, c, s1.next);
    var s2 := SetRight(s1, c, s1.next);
    s2.(buffer := s2.buffer[1 := Ptr(c)][0 := s2.tokens[c].left][2 := s2.tokens[c].right], count := 3)
  }

  // ----- Operators -----

  /** Whether the reduce loop goes on: the stack's top is an operator of at least priority `p`. */
  predicate ReduceGoesOn<N>(s: ParserState<N>, p: int)
    requires forall k :: 0 <= k < |s.stack| ==> s.stack[k] < |s.tokens|
  {
    |s.stack| > 0 && !s.tokens[Top(s.stack)].OpenBracketToken? && PriorityOf(s.tokens[Top(s.stack)]) >= p
  }

  /** One round of the reduce loop: the current operator is emitted and the popped one becomes current. */
  function ReduceStep<N>(s: ParserState<N>): (r: ParserState<N>)
    requires WellFormed(s) && s.curr.Ptr? && s.count == 3
    requires |s.stack| > 0 && !s.tokens[Top(s.stack)].OpenBracketToken?
    ensures WellFormed(r) && r.curr.Ptr? && r.count == 3 && |r.stack| == |s.stack| - 1
    ensures r.buffer[0] == s.buffer[0] && r.buffer[2] == s.buffer[2] && r.buffer[3] == s.buffer[3]
  {
    var t := Top(s.stack);
    s.(order := s.order + [s.curr.index], curr := Ptr(t), stack := Pop(s.stack), buffer := s.buffer[1 := Ptr(t)])
  }

  /**
   * The reduce loop: while the stack's top is an operator of at least
   * priority `p`, the current operator is emitted and the top becomes the
   * current one (its Right is not rebound).
   */
  function Reduce<N>(s: ParserState<N>, p: int): (r: ParserState<N>)
    requires WellFormed(s) && s.curr.Ptr? && s.count == 3
    ensures WellFormed(r) && r.curr.Ptr? && r.count == 3
    ensures r.buffer[0] == s.buffer[0] && r.buffer[2] == s.buffer[2] && r.buffer[3] == s.buffer[3]
    decreases |s.stack|
  {
    if ReduceGoesOn(s, p) then Reduce(ReduceStep(s), p) else s
  }

  /** The reduce branch before its loop: the buffered operator is current and takes the buffered operands. */
  function Reducing<N>(s: ParserState<N>): (r: ParserState<N>)
    requires WellFormed(s) && s.count == 3 && s.buffer[3].Ptr?
    requires s.tokens[s.buffer[1].index].ExpressionToken? && s.tokens[s.buffer[3].index].ExpressionToken?
    ensures WellFormed(r) && r.curr.Ptr? && r.count == 3 && r.buffer == s.buffer
  {
    Bind(s.(curr := s.buffer[1], next := s.buffer[3]), s.buffer[1].index)
  }

  /**
   * ProcessBuffer: the buffer holds operand, operator, operand, operator.
   * If the first operator binds at least as tightly as the second, it takes
   * both operands, the reduce loop runs, and it is emitted (left
   * associativity); otherwise it takes the first operand as Left and the
   * incoming operator as a provisional Right and is deferred.  Either way two
   * items remain buffered.
   */
  function ProcessBuffer<N>(s: ParserState<N>): (r: Result<ParserState<N>, Failure>)
    requires WellFormed(s) && s.count == 3
    requires s.buffer[3].Ptr? && s.tokens[s.buffer[3].index].ExpressionToken?
    ensures r.Ok? ==> WellFormed(r.value) && r.value.count == 2
  {
    var b := s.buffer[1];
    if !s.tokens[b.index].ExpressionToken? then Err(Fail(InvalidCast, s))
    else
      var c := b.index;
      var n := s.buffer[3];
      if PriorityOf(s.tokens[c]) >= PriorityOf(s.tokens[n.index]) then Ok(Emit(Reduce(Reducing(s), PriorityOf(s.tokens[n.index]))))
      else Ok(Defer(s))
  }

  /** The end of the reduce branch: the current operator is emitted and the second operator moves down. */
  function Emit<N>(s: ParserState<N>): (r: ParserState<N>)
    requires WellFormed(s) && s.curr.Ptr? && s.count == 3 && s.buffer[3].Ptr?
    ensures WellFormed(r) && r.count == 2
  {
    var s1 := s.(order := s.order + [s.curr.index]);
    s1.(buffer := s1.buffer[0 := s1.buffer[1]][1 := s1.buffer[3]], count := 2)
  }

  /**
   * The shift branch: the first operator takes the first operand as Left and
   * the incoming operator as a provisional Right and is deferred.
   */
  function Defer<N>(s: ParserState<N>): (r: ParserState<N>)
    requires WellFormed(s) && s.count == 3
    requires s.buffer[3].Ptr? && s.tokens[s.buffer[3].index].ExpressionToken?
    requires s.tokens[s.buffer[1].index].ExpressionToken?
    ensures WellFormed(r) && r.count == 2
  {
    var c := s.buffer[1].index;
    var s1 := s.(curr := s.buffer[1], next := s.buffer[3]);
    SetLeftWellFormed(s1, c, s.buffer[0]);
    var s2 := SetLeft(s1, c, s.buffer[0]);
    SetRightWellFormed(s2, c, s.buffer[3]);
    var s3 := SetRight(s2, c, s.buffer[3]);
    s3.(stack := s3.stack + [c], buffer := s3.buffer[0 := s3.buffer[2]][1 := s3.buffer[3]], count := 2)
  }

  /** A new expression token for the operator becomes the next expression and fills the next buffer slot. */
  function Enqueue<N>(s: ParserState<N>, sym: char, zero: N): (r: ParserState<N>)
    requires WellFormed(s) && s.count < BufferSize
    ensures WellFormed(r) && r.count == s.count
    ensures r.buffer[s.count].Ptr? && r.tokens[r.buffer[s.count].index].ExpressionToken?
  {
    var e := |s.tokens|;
    AppendWellFormed(s, NewExpression(sym), zero);
    var s1 := s.(tokens := s.tokens + [NewExpression(sym)], values := s.values + [zero], next := Ptr(e));
    s1.(buffer := s1.buffer[s1.count := Ptr(e)])
  }

  /**
   * An operator character: a new expression token goes into the next buffer
   * slot; a full triple in front of it is processed.
   */
  function Operator<N>(s: ParserState<N>, sym: char, zero: N): (r: Result<ParserState<N>, Failure>)
    requires WellFormed(s)
    ensures r.Ok? ==> WellFormed(r.value) && 1 <= r.value.count <= 3
  {
    if s.count == BufferSize then Err(Fail(IndexOutOfRange, s))
    else
      var s1 := Enqueue(s, sym, zero);
      if s1.count == 3 then ProcessBuffer(s1)
      else Ok(s1.(count := s1.count + 1))
  }

  // ----- One character, a prefix, the end of input -----

  predicate IsWhitespace(c: char)
  {
    c == '\t' || c == ' ' || c == '\n' || c == '\r'
  }

  /** The step the parser takes for the character at `i`. */
  function CharStep<N>(s: ParserState<N>, src: string, i: nat, num: string -> Option<N>, zero: N)
    : (r: Result<ParserState<N>, Failure>)
    requires WellFormed(s) && i < |src|
    ensures r.Ok? ==> WellFormed(r.value)
  {
    var c := src[i];
    if IsWhitespace(c) then EndOperand(s, src, i, num, zero)
    else if c == '(' then OpenBracket(s, zero)
    else if c == ')' then
      var s1 :- EndOperand(s, src, i, num, zero);
      CloseBracket(s1)
    else if IsOperatorSymbol(c) then
      var s1 :- EndOperand(s, src, i, num, zero);
      Operator(s1, c, zero)
    else Ok(StartOperand(s, i))
  }

  // ----- The dispatch of one character, case by case -----

  /** White space closes the pending operand. */
  lemma SpaceChar<N>(s: ParserState<N>, src: string, i: nat, num: string -> Option<N>, zero: N)
    requires WellFormed(s) && i < |src| && IsWhitespace(src[i])
    ensures CharStep(s, src, i, num, zero) == EndOperand(s, src, i, num, zero)
  {
  }

  /** `(` opens a bracket. */
  lemma OpenChar<N>(s: ParserState<N>, src: string, i: nat, num: string -> Option<N>, zero: N)
    requires WellFormed(s) && i < |src| && src[i] == '('
    ensures CharStep(s, src, i, num, zero) == OpenBracket(s, zero)
  {
  }

  /** `)` closes the pending operand, then the bracket. */
  lemma CloseChar<N>(s: ParserState<N>, src: string, i: nat, num: string -> Option<N>, zero: N, s1: ParserState<N>)
    requires WellFormed(s) && i < |src| && src[i] == ')'
    requires EndOperand(s, src, i, num, zero) == Ok(s1)
    ensures CharStep(s, src, i, num, zero) == CloseBracket(s1)
  {
  }

  /** An operator character closes the pending operand, then enqueues the operator. */
  lemma OperatorChar<N>(s: ParserState<N>, src: string, i: nat, num: string -> Option<N>, zero: N, s1: ParserState<N>)
    requires WellFormed(s) && i < |src| && IsOperatorSymbol(src[i])
    requires EndOperand(s, src, i, num, zero) == Ok(s1)
    ensures CharStep(s, src, i, num, zero) == Operator(s1, src[i], zero)
  {
    assert !IsWhitespace(src[i]) && src[i] != '(' && src[i] != ')';
  }

  /** Any other character belongs to an operand. */
  lemma OperandChar<N>(s: ParserState<N>, src: string, i: nat, num: string -> Option<N>, zero: N)
    requires WellFormed(s) && i < |src|
    requires !IsWhitespace(src[i]) && src[i] != '(' && src[i] != ')' && !IsOperatorSymbol(src[i])
    ensures CharStep(s, src, i, num, zero) == Ok(StartOperand(s, i))
  {
  }

  /** The scan from character `i` to the end of the text. */
  function ScanFrom<N>(s: ParserState<N>, src: string, i: nat, num: string -> Option<N>, zero: N)
    : (r: Result<ParserState<N>, Failure>)
    requires WellFormed(s) && i <= |src|
    ensures r.Ok? ==> WellFormed(r.value)
    decreases |src| - i
  {
    if i == |src| then Ok(s)
    else
      var s1 :- CharStep(s, src, i, num, zero);
      ScanFrom(s1, src, i + 1, num, zero)
  }

  /** One character of the scan: a successful step continues from the state it produced. */
  lemma ScanFromStep<N>(s: ParserState<N>, src: string, i: nat, num: string -> Option<N>, zero: N, t: ParserState<N>)
    requires WellFormed(s) && i < |src| && CharStep(s, src, i, num, zero) == Ok(t)
    ensures WellFormed(t) && ScanFrom(s, src, i, num, zero) == ScanFrom(t, src, i + 1, num, zero)
  {
  }

  /** At the end of input: the remaining triple is bound, or the single remaining group emitted. */
  function BindLast<N>(s: ParserState<N>): (r: Result<ParserState<N>, Failure>)
    requires WellFormed(s)
    ensures r.Ok? ==> WellFormed(r.value) && r.value.inOperand == s.inOperand
  {
    if s.count == 1 then
      var b := s.buffer[0];
      if !s.tokens[b.index].ExpressionToken? then Err(Fail(InvalidCast, s))
      else Ok(s.(next := b, order := s.order + [b.index]))
    else if s.count == 3 then
      var b := s.buffer[1];
      if !s.tokens[b.index].ExpressionToken? then Err(Fail(InvalidCast, s))
      else
        var s1 := Group(s);
        Ok(s1.(order := s1.order + [b.index]))
    else Ok(s)
  }

  /** One round of the final loop: the popped operator takes the previous result as Right and is emitted. */
  function DrainStep<N>(s: ParserState<N>): (r: ParserState<N>)
    requires WellFormed(s) && |s.stack| > 0 && !s.tokens[Top(s.stack)].OpenBracketToken?
    ensures WellFormed(r) && |r.stack| == |s.stack| - 1 && r.inOperand == s.inOperand && r.start == s.start
    ensures HasMarker(r.tokens, r.stack) <==> HasMarker(s.tokens, s.stack)
  {
    var t := Top(s.stack);
    var s1 := s.(stack := Pop(s.stack), curr := Ptr(t));
    SetRightWellFormed(s1, t, s1.next);
    var s2 := SetRight(s1, t, s1.next);
    PopKeepsMarker(s.tokens, s2.tokens, s.stack);
    s2.(order := s2.order + [t], next := Ptr(t))
  }

  /** The final loop: an unclosed bracket marker fails the cast. */
  function Drain<N>(s: ParserState<N>): (r: Result<ParserState<N>, Failure>)
    requires WellFormed(s)
    ensures r.Ok? ==> WellFormed(r.value) && r.value.stack == [] && r.value.inOperand == s.inOperand
    ensures r.Err? <==> HasMarker(s.tokens, s.stack)
    ensures r.Err? ==> r.error == Fail(InvalidCast, s)
    decreases |s.stack|
  {
    if |s.stack| == 0 then Ok(s)
    else if s.tokens[Top(s.stack)].OpenBracketToken? then Err(Fail(InvalidCast, s))
    else Drain(DrainStep(s))
  }

  function Finish<N>(s: ParserState<N>, src: string, num: string -> Option<N>, zero: N)
    : (r: Result<ParserState<N>, Failure>)
    requires WellFormed(s)
    ensures r.Ok? ==> WellFormed(r.value) && r.value.stack == [] && !r.value.inOperand
  {
    var s1 :- EndOperand(s, src, |src|, num, zero);
    var s2 :- BindLast(s1);
    Drain(s2)
  }

  /**
   * The state every parse starts from: empty arena, empty buffer, count 0,
   * empty stack and order; only the operand flag and its start index are
   * carried over from the previous call.
   */
  function Initial<N>(inOperand: bool, start: int): (s: ParserState<N>)
    ensures WellFormed(s)
  {
    ParserState([], [], map[], [], [Null, Null, Null, Null], 0, inOperand, start, Null, Null, [])
  }

  /** The whole parse, from the carried-over operand flag and start index. */
  function Run<N>(src: string, num: string -> Option<N>, zero: N, inOperand: bool, start: int)
    : (r: Result<ParserState<N>, Failure>)
    ensures r.Ok? ==> WellFormed(r.value) && r.value.stack == [] && !r.value.inOperand
  {
    var s :- ScanFrom(Initial(inOperand, start), src, 0, num, zero);
    Finish(s, src, num, zero)
  }

  /** The compiled formula of a finished parse. */
  function Compile<N>(s: ParserState<N>, src: string): (f: Formulas.CompiledFormula<N>)
    requires WellFormed(s)
    ensures Formulas.ValidImage(f) && f.source == src
  {
    Formulas.CompiledFormula(s.tokens, s.values, s.operands, s.order, src)
  }

  /** Parse(src): the compiled formula, or the exception raised. */
  function ParseSpec<N>(src: string, num: string -> Option<N>, zero: N, inOperand: bool, start: int)
    : (r: Result<Formulas.CompiledFormula<N>, ParseError>)
    ensures r.Ok? ==> Formulas.ValidImage(r.value) && r.value.source == src
  {
    match Run(src, num, zero, inOperand, start)
    case Ok(s) => Ok(Compile(s, src))
    case Err(f) => Err(f.error)
  }
}
