/**
 * The token model of the formula compiler: arithmetic operations, precedence
 * tiers, token kinds and the four kinds of token.  Tokens live in an arena
 * (a sequence addressed by index); a `Ref` is a nullable reference into it.
 */
module ExpressionTokens {
  import opened Wrappers
  import opened Texts

  /** The four binary operations, in the declaration order of the enum (so the default is Minus). */
  datatype Operation = Minus | Plus | Mul | Div

  /** Precedence tiers. */
  const PlusMinus: int := 1
  const MulDiv: int := 2
  const Bracket: int := 3

  /** The token kinds of the source's TokenType enum; variables are of kind Operand. */
  datatype TokenType = Operand | Expression | OpenBracket | Function | Number

  /** A nullable reference to a token of the arena. */
  datatype Ref = Null | Ptr(index: nat)

  /**
   * A token.  Number and variable tokens carry their current value in the
   * arena's value slot, not here; an expression token carries its operation,
   * its (mutable) priority and its operand links.
   */
  datatype Token =
    | NumberToken
    | VariableToken(source: string)
    | ExpressionToken(operation: Operation, priority: int, left: Ref, right: Ref)
    | OpenBracketToken

  function TypeOf(t: Token): TokenType
  {
    match t
    case NumberToken => Number
    case VariableToken(_) => Operand
    case ExpressionToken(_, _, _, _) => Expression
    case OpenBracketToken => OpenBracket
  }

  /** Whether a token may be cast to ValueToken (every kind but the bracket marker). */
  predicate IsValueToken(t: Token)
  {
    !t.OpenBracketToken?
  }

  /** The priority of a token: bracket markers are fixed at Bracket, operands have the default 0. */
  function PriorityOf(t: Token): int
  {
    match t
    case ExpressionToken(_, p, _, _) => p
    case OpenBracketToken => Bracket
    case _ => 0
  }

  /** The operator character that stands for an operation. */
  function Symbol(op: Operation): char
  {
    match op
    case Plus => '+'
    case Minus => '-'
    case Mul => '*'
    case Div => '/'
  }

  predicate IsOperatorSymbol(c: char)
  {
    c == '+' || c == '-' || c == '*' || c == '/'
  }

  /**
   * The ExpressionToken constructor: the operator character selects the
   * operation and the tier; links start out null.  Any other character keeps
   * the enum default (Minus) and priority 0.
   */
  function NewExpression(sym: char): (t: Token)
    ensures t.ExpressionToken? && TypeOf(t) == Expression
    ensures t.left == Null && t.right == Null
    ensures IsOperatorSymbol(sym) ==> Symbol(t.operation) == sym
    ensures IsOperatorSymbol(sym) ==>
              t.priority == (if sym == '+' || sym == '-' then PlusMinus else MulDiv)
    ensures !IsOperatorSymbol(sym) ==> t.operation == Minus && t.priority == 0
  {
    match sym
    case '+' => ExpressionToken(Plus, PlusMinus, Null, Null)
    case '-' => ExpressionToken(Minus, PlusMinus, Null, Null)
    case '*' => ExpressionToken(Mul, MulDiv, Null, Null)
    case '/' => ExpressionToken(Div, MulDiv, Null, Null)
    case _ => ExpressionToken(Minus, 0, Null, Null)
  }

  /** Each operation is produced by its own symbol, with the tier of its group. */
  lemma NewExpressionOfSymbol(op: Operation)
    ensures NewExpression(Symbol(op)).operation == op
    ensures NewExpression(Symbol(op)).priority ==
              (if op == Plus || op == Minus then PlusMinus else MulDiv)
  {
  }

  /** The name the source prints for an operation (the enum member's name). */
  function OperationName(op: Operation): string
  {
    match op
    case Minus => "Minus"
    case Plus => "Plus"
    case Mul => "Mul"
    case Div => "Div"
  }

  /** `r` is null or addresses a token that may be cast to ValueToken. */
  ghost predicate ValueRef(tokens: seq<Token>, r: Ref)
  {
    r.Ptr? ==> r.index < |tokens| && IsValueToken(tokens[r.index])
  }

  /** `r` is null or addresses an expression token. */
  ghost predicate ExprRef(tokens: seq<Token>, r: Ref)
  {
    r.Ptr? ==> r.index < |tokens| && tokens[r.index].ExpressionToken?
  }

  /** Every operand link of every expression token is a ValueToken reference. */
  ghost predicate LinksValid(tokens: seq<Token>)
  {
    forall i :: 0 <= i < |tokens| && tokens[i].ExpressionToken? ==>
      ValueRef(tokens, tokens[i].left) && ValueRef(tokens, tokens[i].right)
  }

  /**
   * The variable table maps each name to the one variable token of that name,
   * and every variable token of the arena is registered under its own name:
   * so names are unique and each variable is shared by all its occurrences.
   */
  ghost predicate Interned(tokens: seq<Token>, operands: map<string, nat>)
  {
    (forall name :: name in operands ==>
       operands[name] < |tokens| && tokens[operands[name]] == VariableToken(name))
    && (forall i :: 0 <= i < |tokens| && tokens[i].VariableToken? ==>
          tokens[i].source in operands && operands[tokens[i].source] == i)
  }

  /** Every entry of an evaluation order addresses an expression token. */
  ghost predicate OrderValid(tokens: seq<Token>, order: seq<nat>)
  {
    forall k :: 0 <= k < |order| ==> order[k] < |tokens| && tokens[order[k]].ExpressionToken?
  }

  // ----- ToString -----

  /**
   * The text of a token: a number shows its value, a variable its name, a
   * null link shows as nothing, and an expression shows as
   * `[Left]Operation[Right]`.
   * The source recurses without bound, so a cyclic link overflows its stack;
   * here each level spends one unit of fuel and running out yields None.
   */
  function Render<N>(tokens: seq<Token>, values: seq<N>, show: N -> string, r: Ref, fuel: nat): Option<string>
    requires |values| == |tokens| && LinksValid(tokens) && ValueRef(tokens, r)
    decreases fuel
  {
    match r
    case Null => Some("")
    case Ptr(i) =>
      var t := tokens[i];
      if t.VariableToken? then Some(t.source)
      else if !t.ExpressionToken? then Some(show(values[i]))
      else if fuel == 0 then None
      else
        var a := Render(tokens, values, show, t.left, fuel - 1);
        var b := Render(tokens, values, show, t.right, fuel - 1);
        if a.None? || b.None? then None
        else Some("[" + a.value + "]" + OperationName(t.operation) + "[" + b.value + "]")
  }

  /** More fuel never changes a text that was already produced. */
  lemma {:induction false} RenderFuel<N>(tokens: seq<Token>, values: seq<N>, show: N -> string, r: Ref, fuel: nat, more: nat)
    requires |values| == |tokens| && LinksValid(tokens) && ValueRef(tokens, r)
    requires fuel <= more && Render(tokens, values, show, r, fuel).Some?
    ensures Render(tokens, values, show, r, more) == Render(tokens, values, show, r, fuel)
    decreases fuel
  {
    if r.Ptr? && tokens[r.index].ExpressionToken? {
      var t := tokens[r.index];
      RenderFuel(tokens, values, show, t.left, fuel - 1, more - 1);
      RenderFuel(tokens, values, show, t.right, fuel - 1, more - 1);
    }
  }

  /** No operation name holds a square bracket. */
  lemma NameUnbracketed(op: Operation)
    ensures Count(OperationName(op), '[') == 0 && Count(OperationName(op), ']') == 0
  {
    var name := OperationName(op);
    assert '[' !in name && ']' !in name by {
      match op
      case Minus => assert name == ['M', 'i', 'n', 'u', 's'];
      case Plus => assert name == ['P', 'l', 'u', 's'];
      case Mul => assert name == ['M', 'u', 'l'];
      case Div => assert name == ['D', 'i', 'v'];
    }
  }

  /** Wrapping both operands adds one `[` and one `]` around each. */
  lemma WrapCounts(a: string, name: string, b: string, c: char)
    requires c == '[' || c == ']'
    ensures Count("[" + a + "]" + name + "[" + b + "]", c) == 2 + Count(a, c) + Count(name, c) + Count(b, c)
  {
    CountAppend("[" + a + "]" + name + "[" + b, "]", c);
    CountAppend("[" + a + "]" + name + "[", b, c);
    CountAppend("[" + a + "]" + name, "[", c);
    CountAppend("[" + a + "]", name, c);
    CountAppend("[" + a, "]", c);
    CountAppend("[", a, c);
  }

  /** No variable of the arena has a square bracket in its name. */
  ghost predicate NamesUnbracketed(tokens: seq<Token>)
  {
    forall i :: 0 <= i < |tokens| && tokens[i].VariableToken? ==>
      '[' !in tokens[i].source && ']' !in tokens[i].source
  }

  /**
   * When no number shows a square bracket and no variable is named with
   * one, every rendered text has as many `[` as `]`: each expression level
   * adds one pair around each operand.
   */
  lemma {:induction false} RenderBalanced<N>(tokens: seq<Token>, values: seq<N>, show: N -> string, r: Ref, fuel: nat)
    requires |values| == |tokens| && LinksValid(tokens) && ValueRef(tokens, r)
    requires forall v :: '[' !in show(v) && ']' !in show(v)
    requires NamesUnbracketed(tokens)
    requires Render(tokens, values, show, r, fuel).Some?
    ensures var text := Render(tokens, values, show, r, fuel).value;
            Count(text, '[') == Count(text, ']')
    decreases fuel
  {
    if r.Ptr? {
      var t := tokens[r.index];
      if t.ExpressionToken? {
        RenderBalanced(tokens, values, show, t.left, fuel - 1);
        RenderBalanced(tokens, values, show, t.right, fuel - 1);
        var a := Render(tokens, values, show, t.left, fuel - 1).value;
        var b := Render(tokens, values, show, t.right, fuel - 1).value;
        assert Render(tokens, values, show, r, fuel).value == "[" + a + "]" + OperationName(t.operation) + "[" + b + "]";
        NameUnbracketed(t.operation);
        WrapCounts(a, OperationName(t.operation), b, '[');
        WrapCounts(a, OperationName(t.operation), b, ']');
      } else if t.VariableToken? {
        assert Render(tokens, values, show, r, fuel) == Some(t.source);
      } else {
        assert Render(tokens, values, show, r, fuel) == Some(show(values[r.index]));
      }
    } else {
      assert Render(tokens, values, show, r, fuel) == Some("");
    }
  }
}
