# Teta packages: formula parser, file handling and authorization

This project models the core of the Teta packages in Dafny and proves
properties of that model. It covers three parts.

* **Unit-measure formulas.** `FormulaParser` turns a conversion formula such
  as `x * (54.32 + x/1.3)/12 + 5` into a `Formula`. A formula is an arena of
  tokens (numbers, variables and `ExpressionToken` operators with `Left` and
  `Right` links) plus an evaluation order. `Formula.Evaluate` stores the input
  in the variable `x`, then recomputes each operator of the order in turn.
  `UnitGroup.GetUnitOrDefault` picks the unit a conversion uses.
* **Files.** The file service covers several pieces:
  * `FileService` builds base64url file keys from `<version>key` and reads
    them back, derives a user's folder from an S3 object key, and stores an
    upload only when its checksum differs from the stored one;
  * `GetEncoding2` guesses a text encoding from the byte-order mark, and
    `GetDouble` reads a number that may be written with a decimal comma;
  * the LAS and XLSX row readers and the LAS header reader fill a
    `FileDescription`, whose groups `ReplacaGroup` replaces;
  * `FileDescriptionReaderFactory` picks a header reader by the file's
    extension;
  * problems are collected in a `FileParseException`.
* **Authorization.** `AuthorizationFilter` lets anonymous endpoints through,
  answers 401 to unauthenticated users, and raises when no claims are
  configured. Otherwise an injected access check decides between going on and
  answering 403.

How the C# becomes Dafny:

* Code that mutates objects becomes classes whose methods are proved against
  specification functions. Examples are the parser's fields and its
  four-slot token buffer, a formula's token values, the file service's bucket,
  the readers' positions and the exception's error list.
* Each method's `ensures` equals a function of the old state, or reflects that
  function's `Result`.
* The properties are proved as lemmas about those functions.
* C# exceptions are modelled as `Result` or `Outcome` values that carry the
  exception's kind.
* The number type of formulas is a parameter that supplies its four
  operations. `Reals` instantiates it with Dafny's `real`.
* Regular expressions, UTF-8, SHA-256, number parsing, the LAS line rewriting
  rules and the access check are parameters of the functions that use them.
* Base64 is modelled by the RFC 4648 (section 4) codec, with its round trip
  proved.

## Model

| member | source | states |
|---|---|---|
| ExpressionTokens.NewExpression | Source/Packages/UnitMeasure/Teta.Packages.UnitMeasure.Expression/Tokens/ExpressionToken.cs:7-29 | the token is an Expression with no links; '+' and '-' give Plus and Minus at priority 1, '*' and '/' give Mul and Div at priority 2; any other symbol leaves Minus at priority 0 |
| ExpressionTokens.NewExpressionOfSymbol | Source/Packages/UnitMeasure/Teta.Packages.UnitMeasure.Expression/Tokens/ExpressionToken.cs:10-28 | building a token from an operation's own symbol gives back that operation and its priority |
| ExpressionTokens.RenderBalanced | Source/Packages/UnitMeasure/Teta.Packages.UnitMeasure.Expression/Tokens/ExpressionToken.cs:37-40 | the `[Left]Operation[Right]` text of any finite expression graph has as many '[' as ']' when numbers show without brackets and no variable of the arena has a bracket in its name |
| ExpressionTokens.NameUnbracketed | Source/Packages/UnitMeasure/Teta.Packages.UnitMeasure.Expression/Tokens/ExpressionToken.cs:37-40 | no operation name contains a bracket |
| ExpressionTokens.WrapCounts | Source/Packages/UnitMeasure/Teta.Packages.UnitMeasure.Expression/Tokens/ExpressionToken.cs:39 | wrapping Left and Right in brackets adds exactly two of each bracket |
| ExpressionTokens.Render | Source/Packages/UnitMeasure/Teta.Packages.UnitMeasure.Expression/Tokens/ExpressionToken.cs:37-40 | the text of a token: a variable its name (VariableToken.cs:15-17), a number its value, a null link nothing, an expression `[Left]Operation[Right]`; no text when the fuel runs out on a cycle |
| ExpressionTokens.RenderFuel | Source/Packages/UnitMeasure/Teta.Packages.UnitMeasure.Expression/Tokens/ExpressionToken.cs:37-40 | rendering that finishes with some fuel gives the same text with any larger fuel |
| ParseSteps.StartOperand | Source/Packages/UnitMeasure/Teta.Packages.UnitMeasure.Expression/FormulaParser.cs:167-176 | a pending operand keeps its start; otherwise the operand starts at the index given |
| ParseSteps.Intern | Source/Packages/UnitMeasure/Teta.Packages.UnitMeasure.Expression/FormulaParser.cs:188-202 | a number text appends a fresh number token holding its value; a name reuses the variable already in the table or appends one new variable token and adds the name, so the table's keys grow by exactly that name |
| ParseSteps.EndOperand | Source/Packages/UnitMeasure/Teta.Packages.UnitMeasure.Expression/FormulaParser.cs:178-206 | a successful step keeps the arena well formed and clears the operand flag; outside an operand nothing changes |
| ParseSteps.PushPending | Source/Packages/UnitMeasure/Teta.Packages.UnitMeasure.Expression/FormulaParser.cs:50-54 | a successful push keeps the arena well formed |
| ParseSteps.OpenBracket | Source/Packages/UnitMeasure/Teta.Packages.UnitMeasure.Expression/FormulaParser.cs:46-78 | a successful '(' step keeps the arena well formed |
| ParseSteps.Bind | Source/Packages/UnitMeasure/Teta.Packages.UnitMeasure.Expression/FormulaParser.cs:83-84 | binding an operator to the buffered operands keeps the arena well formed |
| ParseSteps.Group | Source/Packages/UnitMeasure/Teta.Packages.UnitMeasure.Expression/FormulaParser.cs:82-84 | binding the buffered operator keeps the arena well formed and leaves a next expression |
| ParseSteps.UnwindStep | Source/Packages/UnitMeasure/Teta.Packages.UnitMeasure.Expression/FormulaParser.cs:86-92 | one round of the ')' loop pops exactly one operator, keeps the arena well formed, leaves a next expression and keeps a bracket marker on the stack exactly when one was there |
| ParseSteps.Unwind | Source/Packages/UnitMeasure/Teta.Packages.UnitMeasure.Expression/FormulaParser.cs:85-92 | the ')' loop fails with EmptyStack exactly when no bracket marker is on the stack (an unmatched ')'); a successful loop pops at least one entry (the bracket marker) and keeps the arena well formed |
| ParseSteps.CloseBracket | Source/Packages/UnitMeasure/Teta.Packages.UnitMeasure.Expression/FormulaParser.cs:80-112 | a successful ')' step keeps the arena well formed |
| ParseSteps.EmitGroup | Source/Packages/UnitMeasure/Teta.Packages.UnitMeasure.Expression/FormulaParser.cs:94-110 | tagging and emitting the group root keeps the arena well formed |
| ParseSteps.Refill | Source/Packages/UnitMeasure/Teta.Packages.UnitMeasure.Expression/FormulaParser.cs:95-104 | refilling the buffer from the deferred operator keeps the arena well formed |
| ParseSteps.ReduceStep | Source/Packages/UnitMeasure/Teta.Packages.UnitMeasure.Expression/FormulaParser.cs:218-224 | one round of the reduce loop pops exactly one operator, keeps three items buffered and leaves buffer slots 0, 2 and 3 alone |
| ParseSteps.Reduce | Source/Packages/UnitMeasure/Teta.Packages.UnitMeasure.Expression/FormulaParser.cs:218-224 | the reduce loop leaves buffer slots 0, 2 and 3 alone and keeps three items buffered |
| ParseSteps.Reducing | Source/Packages/UnitMeasure/Teta.Packages.UnitMeasure.Expression/FormulaParser.cs:210-216 | entering the reduce branch keeps three items buffered, sets the current operator and leaves the buffer as it was |
| ParseSteps.ProcessBuffer | Source/Packages/UnitMeasure/Teta.Packages.UnitMeasure.Expression/FormulaParser.cs:208-246 | processing a full buffer leaves exactly two items buffered and the arena well formed |
| ParseSteps.Emit | Source/Packages/UnitMeasure/Teta.Packages.UnitMeasure.Expression/FormulaParser.cs:227-232 | emitting the current operator leaves two items buffered |
| ParseSteps.Defer | Source/Packages/UnitMeasure/Teta.Packages.UnitMeasure.Expression/FormulaParser.cs:236-245 | deferring the buffered operator leaves two items buffered |
| ParseSteps.Enqueue | Source/Packages/UnitMeasure/Teta.Packages.UnitMeasure.Expression/FormulaParser.cs:119-120 | the new operator token lands in the next free buffer slot as an Expression token, keeping the arena well formed |
| ParseSteps.Operator | Source/Packages/UnitMeasure/Teta.Packages.UnitMeasure.Expression/FormulaParser.cs:114-128 | a successful operator step keeps the arena well formed and leaves between one and three items buffered |
| ParseSteps.CharStep | Source/Packages/UnitMeasure/Teta.Packages.UnitMeasure.Expression/FormulaParser.cs:36-133 | every character step keeps the arena well formed |
| ParseSteps.SpaceChar | Source/Packages/UnitMeasure/Teta.Packages.UnitMeasure.Expression/FormulaParser.cs:39-44 | tab, space, line feed and carriage return only close the pending operand |
| ParseSteps.OpenChar | Source/Packages/UnitMeasure/Teta.Packages.UnitMeasure.Expression/FormulaParser.cs:46-78 | '(' takes the bracket step |
| ParseSteps.CloseChar | Source/Packages/UnitMeasure/Teta.Packages.UnitMeasure.Expression/FormulaParser.cs:80-81 | ')' closes the pending operand, then takes the bracket-closing step on the resulting state |
| ParseSteps.OperatorChar | Source/Packages/UnitMeasure/Teta.Packages.UnitMeasure.Expression/FormulaParser.cs:114-118 | an operator character closes the pending operand, then takes the operator step on the resulting state |
| ParseSteps.OperandChar | Source/Packages/UnitMeasure/Teta.Packages.UnitMeasure.Expression/FormulaParser.cs:130-132 | every other character starts or continues an operand |
| ParseSteps.ScanFrom | Source/Packages/UnitMeasure/Teta.Packages.UnitMeasure.Expression/FormulaParser.cs:34-134 | the scan of the rest of the source keeps the arena well formed |
| ParseSteps.ScanFromStep | Source/Packages/UnitMeasure/Teta.Packages.UnitMeasure.Expression/FormulaParser.cs:34-134 | a successful character step hands the scan on to the next index |
| ParseSteps.BindLast | Source/Packages/UnitMeasure/Teta.Packages.UnitMeasure.Expression/FormulaParser.cs:141-153 | a successful binding of the last buffered triple keeps the operand flag and the arena well formed |
| ParseSteps.DrainStep | Source/Packages/UnitMeasure/Teta.Packages.UnitMeasure.Expression/FormulaParser.cs:157-160 | one drain round pops exactly one operator, keeps the operand flag and keeps a bracket marker on the stack exactly when one was there |
| ParseSteps.Drain | Source/Packages/UnitMeasure/Teta.Packages.UnitMeasure.Expression/FormulaParser.cs:155-161 | the drain fails with InvalidCast exactly when a bracket marker is still on the stack (an unclosed '('); a successful drain empties the stack and keeps the operand flag |
| ParseSteps.Finish | Source/Packages/UnitMeasure/Teta.Packages.UnitMeasure.Expression/FormulaParser.cs:136-164 | the end of input leaves no pending operand and an empty stack |
| ParseSteps.Initial | Source/Packages/UnitMeasure/Teta.Packages.UnitMeasure.Expression/FormulaParser.cs:27-32 | the fresh state of a parse is well formed |
| ParseSteps.Run | Source/Packages/UnitMeasure/Teta.Packages.UnitMeasure.Expression/FormulaParser.cs:25-165 | a successful parse ends with an empty stack, no pending operand and a well-formed arena; FormulaShapes shows what it computes on the simple shapes |
| ParseSteps.Compile | Source/Packages/UnitMeasure/Teta.Packages.UnitMeasure.Expression/FormulaParser.cs:163-164 | the formula built from the final state is a valid formula holding the source |
| ParseSteps.ParseSpec | Source/Packages/UnitMeasure/Teta.Packages.UnitMeasure.Expression/FormulaParser.cs:25-165 | a successful parse yields a valid formula holding the source |
| Parsing.NewBuffer | Source/Packages/UnitMeasure/Teta.Packages.UnitMeasure.Expression/FormulaParser.cs:29 | the parser's buffer is a fresh array of four empty slots |
| Parsing.FormulaParser.constructor | Source/Packages/UnitMeasure/Teta.Packages.UnitMeasure.Expression/FormulaParser.cs:14-15 | a new parser is outside any operand, with operand start -1 |
| Parsing.FormulaParser.StartOperand | Source/Packages/UnitMeasure/Teta.Packages.UnitMeasure.Expression/FormulaParser.cs:167-176 | the fields change exactly as ParseSteps.StartOperand says |
| Parsing.FormulaParser.Intern | Source/Packages/UnitMeasure/Teta.Packages.UnitMeasure.Expression/FormulaParser.cs:188-202 | the fields and the returned operand are exactly ParseSteps.Intern's |
| Parsing.FormulaParser.EndOperand | Source/Packages/UnitMeasure/Teta.Packages.UnitMeasure.Expression/FormulaParser.cs:178-206 | the fields change, or the exception is raised, exactly as ParseSteps.EndOperand says |
| Parsing.FormulaParser.PushPending | Source/Packages/UnitMeasure/Teta.Packages.UnitMeasure.Expression/FormulaParser.cs:50-54 | the buffered operator takes the buffered operand as Left and is pushed, exactly as ParseSteps.PushPending, or the exception it raises |
| Parsing.FormulaParser.OpenBracket | Source/Packages/UnitMeasure/Teta.Packages.UnitMeasure.Expression/FormulaParser.cs:46-78 | the fields change, or the exception is raised, exactly as ParseSteps.OpenBracket says |
| Parsing.FormulaParser.Group | Source/Packages/UnitMeasure/Teta.Packages.UnitMeasure.Expression/FormulaParser.cs:82-84 | the fields change exactly as ParseSteps.Group says |
| Parsing.FormulaParser.UnwindOnce | Source/Packages/UnitMeasure/Teta.Packages.UnitMeasure.Expression/FormulaParser.cs:86-92 | one loop round changes the fields exactly as ParseSteps.UnwindStep says |
| Parsing.FormulaParser.Unwind | Source/Packages/UnitMeasure/Teta.Packages.UnitMeasure.Expression/FormulaParser.cs:85-92 | the loop ends in ParseSteps.Unwind's state or raises its exception |
| Parsing.FormulaParser.PopMarker | Source/Packages/UnitMeasure/Teta.Packages.UnitMeasure.Expression/FormulaParser.cs:86 | the bracket marker on top of the stack is popped and nothing else changes |
| Parsing.FormulaParser.Refill | Source/Packages/UnitMeasure/Teta.Packages.UnitMeasure.Expression/FormulaParser.cs:95-104 | the fields change exactly as ParseSteps.Refill says |
| Parsing.FormulaParser.EmitGroup | Source/Packages/UnitMeasure/Teta.Packages.UnitMeasure.Expression/FormulaParser.cs:94-110 | the fields change exactly as ParseSteps.EmitGroup says |
| Parsing.FormulaParser.CloseBracket | Source/Packages/UnitMeasure/Teta.Packages.UnitMeasure.Expression/FormulaParser.cs:80-112 | the fields change, or the exception is raised, exactly as ParseSteps.CloseBracket says |
| Parsing.FormulaParser.BindCurrent | Source/Packages/UnitMeasure/Teta.Packages.UnitMeasure.Expression/FormulaParser.cs:210-216 | the first buffered operator becomes current and takes the buffered operands, exactly as ParseSteps.Reducing |
| Parsing.FormulaParser.ReduceOnce | Source/Packages/UnitMeasure/Teta.Packages.UnitMeasure.Expression/FormulaParser.cs:221-223 | one loop round changes the fields exactly as ParseSteps.ReduceStep says |
| Parsing.FormulaParser.Reduce | Source/Packages/UnitMeasure/Teta.Packages.UnitMeasure.Expression/FormulaParser.cs:218-224 | the loop emits deferred operators of at least the given priority and ends in ParseSteps.Reduce of the old state |
| Parsing.FormulaParser.Emit | Source/Packages/UnitMeasure/Teta.Packages.UnitMeasure.Expression/FormulaParser.cs:227-232 | the fields change exactly as ParseSteps.Emit says |
| Parsing.FormulaParser.Defer | Source/Packages/UnitMeasure/Teta.Packages.UnitMeasure.Expression/FormulaParser.cs:236-245 | the fields change exactly as ParseSteps.Defer says |
| Parsing.FormulaParser.ProcessBuffer | Source/Packages/UnitMeasure/Teta.Packages.UnitMeasure.Expression/FormulaParser.cs:208-246 | the reduce loop or the shift leaves exactly ParseSteps.ProcessBuffer's state |
| Parsing.FormulaParser.Operator | Source/Packages/UnitMeasure/Teta.Packages.UnitMeasure.Expression/FormulaParser.cs:114-128 | the fields change, or the exception is raised, exactly as ParseSteps.Operator says |
| Parsing.FormulaParser.Step | Source/Packages/UnitMeasure/Teta.Packages.UnitMeasure.Expression/FormulaParser.cs:36-133 | the switch on one character does exactly ParseSteps.CharStep |
| Parsing.FormulaParser.BindLast | Source/Packages/UnitMeasure/Teta.Packages.UnitMeasure.Expression/FormulaParser.cs:141-153 | the fields change, or the exception is raised, exactly as ParseSteps.BindLast says |
| Parsing.FormulaParser.DrainOnce | Source/Packages/UnitMeasure/Teta.Packages.UnitMeasure.Expression/FormulaParser.cs:157-160 | one drain round changes the fields exactly as ParseSteps.DrainStep says |
| Parsing.FormulaParser.Drain | Source/Packages/UnitMeasure/Teta.Packages.UnitMeasure.Expression/FormulaParser.cs:155-161 | the drain loop ends in ParseSteps.Drain's state or raises its exception |
| Parsing.FormulaParser.Finish | Source/Packages/UnitMeasure/Teta.Packages.UnitMeasure.Expression/FormulaParser.cs:136-164 | the end of input does exactly ParseSteps.Finish |
| Parsing.FormulaParser.Scan | Source/Packages/UnitMeasure/Teta.Packages.UnitMeasure.Expression/FormulaParser.cs:34-134 | the character loop ends in ParseSteps.ScanFrom's state or raises its exception |
| Parsing.FormulaParser.Reset | Source/Packages/UnitMeasure/Teta.Packages.UnitMeasure.Expression/FormulaParser.cs:27-32 | a parse starts from a zero count, the given buffer and source, and an empty arena, stack and order, keeping the operand flag and start |
| Parsing.FormulaParser.Parse | Source/Packages/UnitMeasure/Teta.Packages.UnitMeasure.Expression/FormulaParser.cs:25-165 | Parse returns a fresh formula whose structure and values are those of ParseSteps.Run on the source, starting from the operand flag and start left by the previous call; on failure it raises that exception and keeps the flag and start where the failing step left them |
| Formulas.Replay | Source/Packages/UnitMeasure/Teta.Packages.UnitMeasure.Expression/Formula.cs:24-36 | replaying any prefix of the order keeps one value per token |
| Formulas.AfterEvaluate | Source/Packages/UnitMeasure/Teta.Packages.UnitMeasure.Expression/Formula.cs:18-39 | evaluation leaves a valid formula behind: only the values change |
| Formulas.ReplayLength | Source/Packages/UnitMeasure/Teta.Packages.UnitMeasure.Expression/Formula.cs:18-39 | evaluation keeps one value per token |
| Formulas.Formula.constructor | Source/Packages/UnitMeasure/Teta.Packages.UnitMeasure.Expression/Formula.cs:6-16 | a formula object holds exactly the compiled structure and values |
| Formulas.Formula.Evaluate | Source/Packages/UnitMeasure/Teta.Packages.UnitMeasure.Expression/Formula.cs:18-39 | the result and the new token values are EvaluateSpec's: KeyNotFound without "x", x stored in "x", each operator of the order recomputed in turn (NullReference on a missing link), ArgumentOutOfRange on an empty order, else the last operator's value |
| Formulas.Formula.ReplayOrder | Source/Packages/UnitMeasure/Teta.Packages.UnitMeasure.Expression/Formula.cs:24-36 | recomputing each operator of the order in turn leaves the token values and error that Replay gives for the whole order |
| Formulas.ReplayStops | Source/Packages/UnitMeasure/Teta.Packages.UnitMeasure.Expression/Formula.cs:26-36 | once an operator faults the replay state and error stay fixed |
| Formulas.ReplayFrame | Source/Packages/UnitMeasure/Teta.Packages.UnitMeasure.Expression/Formula.cs:26-36 | replay changes only the values of operators it has visited |
| Formulas.EvaluateChangesOnlyInputAndOrder | Source/Packages/UnitMeasure/Teta.Packages.UnitMeasure.Expression/Formula.cs:18-39 | evaluation changes only the value of "x" and of the operators in the order |
| Formulas.ReplaySettled | Source/Packages/UnitMeasure/Teta.Packages.UnitMeasure.Expression/Formula.cs:26-36 | when every operand of an operator is a leaf or an earlier entry of the order, replays from two value sets that agree on the leaves agree on every replayed operator and never fault |
| Formulas.HistoryIndependent | Source/Packages/UnitMeasure/Teta.Packages.UnitMeasure.Expression/Formula.cs:26-36 | for such a settled order the result depends only on the input and the constants, not on values left by earlier evaluations |
| Formulas.EvaluateRepeatable | Source/Packages/UnitMeasure/Teta.Packages.UnitMeasure.Expression/Formula.cs:18-39 | for a settled order, evaluating twice with the same input gives the same result |
| FormulaExamples.TestFormulaParses | Source/Packages/UnitMeasure/Teta.Packages.UnitMeasure.Tests/FormulaParserTests.cs:16 | a fresh parser compiles "x * (54.32 + x/1.3)/12 + 5" into the arena and order spelled out in the model |
| FormulaExamples.TestFormulaSettled | Source/Packages/UnitMeasure/Teta.Packages.UnitMeasure.Tests/FormulaParserTests.cs:16 | that order is settled: every operand is computed before it is used |
| FormulaExamples.TestFormulaReplays | Source/Packages/UnitMeasure/Teta.Packages.UnitMeasure.Tests/FormulaParserTests.cs:21 | its replay computes ((x * (a + x / b)) / c) + d in the number type's own operations |
| FormulaExamples.TestFormulaEvaluates | Source/Packages/UnitMeasure/Teta.Packages.UnitMeasure.Tests/FormulaParserTests.cs:17-23 | whatever values earlier evaluations left, evaluating the compiled test formula gives ((x * (a + x / b)) / c) + d |
| FormulaExamples.RealsTestValue | Source/Packages/UnitMeasure/Teta.Packages.UnitMeasure.Tests/FormulaParserTests.cs:22 | in real arithmetic that expression is i * (a + i / b) / c + d |
| FormulaExamples.TestFormulaReplaysOnReals | Source/Packages/UnitMeasure/Teta.Packages.UnitMeasure.Tests/FormulaParserTests.cs:21-22 | over the reals the compiled formula evaluates to i * (a + i / b) / c + d |
| FormulaExamples.TestFormulaOnReals | Source/Packages/UnitMeasure/Teta.Packages.UnitMeasure.Tests/FormulaParserTests.cs:16-22 | over the reals, the parsed test formula evaluates to i * (54.32 + i / 1.3) / 12 + 5 with a, b, c, d the parsed numbers |
| FormulaExamples.ChainParses | Source/Packages/UnitMeasure/Teta.Packages.UnitMeasure.Expression/FormulaParser.cs:208-246 | "x + 2 * 3 * 4 - 5" compiles into the arena and order spelled out in the model |
| FormulaExamples.ChainSettled | Source/Packages/UnitMeasure/Teta.Packages.UnitMeasure.Expression/FormulaParser.cs:218-227 | that order is settled |
| FormulaExamples.ChainReplays | Source/Packages/UnitMeasure/Teta.Packages.UnitMeasure.Expression/Formula.cs:24-38 | over the reals that compiled formula evaluates to x + 1 |
| FormulaExamples.ChainLosesOperand | Source/Packages/UnitMeasure/Teta.Packages.UnitMeasure.Expression/FormulaParser.cs:218-224 | in the parsed chain '+' still points at the first '*', so the formula evaluates to x + 1 and not to x + 19 |
| FormulaExamples.NestedParses | Source/Packages/UnitMeasure/Teta.Packages.UnitMeasure.Expression/FormulaParser.cs:80-110 | "((x+1))" compiles into the arena and order spelled out in the model |
| FormulaExamples.NestedSelfLoop | Source/Packages/UnitMeasure/Teta.Packages.UnitMeasure.Expression/FormulaParser.cs:82-84 | parsing "((x+1))" makes '+' its own Left with order [+, +, +], so evaluation returns 3 and then 6: each call adds 3 to the previous value |
| FormulaExamples.NestedRenderOverflows | Source/Packages/UnitMeasure/Teta.Packages.UnitMeasure.Expression/Tokens/ExpressionToken.cs:37-40 | rendering the self-linked '+' never finishes, whatever the fuel |
| FormulaExamples.NestedReplaysTwice | Source/Packages/UnitMeasure/Teta.Packages.UnitMeasure.Expression/Formula.cs:24-38 | the self-linked formula evaluates to 3 and then to 6 |
| FormulaExamples.BracketedOperandFails | Source/Packages/UnitMeasure/Teta.Packages.UnitMeasure.Expression/FormulaParser.cs:82-84 | "(x)" fails with a null dereference |
| FormulaExamples.SingleOperandFails | Source/Packages/UnitMeasure/Teta.Packages.UnitMeasure.Expression/FormulaParser.cs:143-146 | "x" fails with an invalid cast |
| FormulaExamples.CallFails | Source/Packages/UnitMeasure/Teta.Packages.UnitMeasure.Expression/FormulaParser.cs:59-61 | "x(" fails with NotSupported and leaves the operand flag set at index 0 |
| FormulaExamples.CrowdedBufferFails | Source/Packages/UnitMeasure/Teta.Packages.UnitMeasure.Expression/FormulaParser.cs:204 | "1 2 3 4 5" overruns the four-slot buffer |
| FormulaExamples.FailedParseLeaksIntoNext | Source/Packages/UnitMeasure/Teta.Packages.UnitMeasure.Expression/FormulaParser.cs:14-15 | after "x(" fails the parser is left inside an operand at 0; " 5" fails with an invalid cast on a fresh parser but parses, to an empty order, on that one |
| FormulaTraces.TestRun | Source/Packages/UnitMeasure/Teta.Packages.UnitMeasure.Expression/FormulaParser.cs:25-165 | the parser's state after the unit-test formula, character by character |
| FormulaTraces.ChainRun | Source/Packages/UnitMeasure/Teta.Packages.UnitMeasure.Expression/FormulaParser.cs:25-165 | the parser's final state on the operator chain |
| FormulaTraces.NestedRun | Source/Packages/UnitMeasure/Teta.Packages.UnitMeasure.Expression/FormulaParser.cs:25-165 | the parser's final state on "((x+1))" |
| FormulaTraces.BareRun | Source/Packages/UnitMeasure/Teta.Packages.UnitMeasure.Expression/FormulaParser.cs:80-84 | "(x)" fails with a null dereference at ')', with no operand pending |
| FormulaTraces.SingleRun | Source/Packages/UnitMeasure/Teta.Packages.UnitMeasure.Expression/FormulaParser.cs:136-146 | "x" fails with an invalid cast at the end of input |
| FormulaTraces.CallRun | Source/Packages/UnitMeasure/Teta.Packages.UnitMeasure.Expression/FormulaParser.cs:46-61 | "x(" fails with NotSupported with the operand flag still set |
| FormulaTraces.CrowdedRun | Source/Packages/UnitMeasure/Teta.Packages.UnitMeasure.Expression/FormulaParser.cs:204 | "1 2 3 4 5" fails with an index error while the operand starting at 8 is pending |
| FormulaTraces.FreshRun | Source/Packages/UnitMeasure/Teta.Packages.UnitMeasure.Expression/FormulaParser.cs:136-146 | " 5" on a fresh parser fails with an invalid cast |
| FormulaTraces.CarriedRun | Source/Packages/UnitMeasure/Teta.Packages.UnitMeasure.Expression/FormulaParser.cs:167-185 | " 5" on a parser left inside an operand at 0 reads the operand "" and ends without an order |
| ParseSteps.PopKeepsMarker | Source/Packages/UnitMeasure/Teta.Packages.UnitMeasure.Expression/FormulaParser.cs:86-92 | popping an operator that is not a bracket marker neither adds nor removes a marker below it |
| ShapeTraces.NameEnds | Source/Packages/UnitMeasure/Teta.Packages.UnitMeasure.Expression/FormulaParser.cs:188-202 | after "x", ending the operand registers the variable x as the first token and first buffer slot |
| ShapeTraces.NameThenOperator | Source/Packages/UnitMeasure/Teta.Packages.UnitMeasure.Expression/FormulaParser.cs:114-128 | an operator after "x" ends the operand and enqueues the operator's expression token as the second buffer slot |
| ShapeTraces.SumRun | Source/Packages/UnitMeasure/Teta.Packages.UnitMeasure.Expression/FormulaParser.cs:25-165 | a fresh parser's final state on "x+2": the '+' over x and the number |
| ShapeTraces.DifferenceRun | Source/Packages/UnitMeasure/Teta.Packages.UnitMeasure.Expression/FormulaParser.cs:25-165 | a fresh parser's final state on "x-2": the '-' over x and the number |
| ShapeTraces.ProductRun | Source/Packages/UnitMeasure/Teta.Packages.UnitMeasure.Expression/FormulaParser.cs:25-165 | a fresh parser's final state on "x*2": the '*' over x and the number |
| ShapeTraces.QuotientRun | Source/Packages/UnitMeasure/Teta.Packages.UnitMeasure.Expression/FormulaParser.cs:25-165 | a fresh parser's final state on "x/2": the '/' over x and the number |
| ShapeTraces.SumOfProductRun | Source/Packages/UnitMeasure/Teta.Packages.UnitMeasure.Expression/FormulaParser.cs:25-165 | a fresh parser's final state on "x+2*3": the '*' computed first and the '+' over x and it |
| ShapeTraces.ProductThenSumRun | Source/Packages/UnitMeasure/Teta.Packages.UnitMeasure.Expression/FormulaParser.cs:25-165 | a fresh parser's final state on "x*2+3": the '*' over x and 2 computed first, then the '+' over it and 3 |
| ShapeTraces.DifferencesRun | Source/Packages/UnitMeasure/Teta.Packages.UnitMeasure.Expression/FormulaParser.cs:25-165 | a fresh parser's final state on "x-2-3": the first '-' computed first, then the second '-' over it and 3 |
| ShapeTraces.QuotientsRun | Source/Packages/UnitMeasure/Teta.Packages.UnitMeasure.Expression/FormulaParser.cs:25-165 | a fresh parser's final state on "x/2/3": the first '/' computed first, then the second '/' over it and 3 |
| ShapeTraces.UnopenedRun | Source/Packages/UnitMeasure/Teta.Packages.UnitMeasure.Expression/FormulaParser.cs:80-92 | "x+1)" fails with EmptyStack at ')' with no operand pending |
| ShapeTraces.UnclosedRun | Source/Packages/UnitMeasure/Teta.Packages.UnitMeasure.Expression/FormulaParser.cs:155-161 | "(x+1" fails with InvalidCast in the final drain |
| FormulaShapes.SumComputes | Source/Packages/UnitMeasure/Teta.Packages.UnitMeasure.Expression/FormulaParser.cs:114-128 | a fresh parser accepts "x+2" and the compiled formula evaluates to x + n2, for any number type |
| FormulaShapes.SumReplays | Source/Packages/UnitMeasure/Teta.Packages.UnitMeasure.Expression/Formula.cs:24-38 | evaluating the compiled "x+2" gives x + n2 |
| FormulaShapes.DifferenceComputes | Source/Packages/UnitMeasure/Teta.Packages.UnitMeasure.Expression/FormulaParser.cs:114-128 | a fresh parser accepts "x-2" and the compiled formula evaluates to x - n2, for any number type |
| FormulaShapes.DifferenceReplays | Source/Packages/UnitMeasure/Teta.Packages.UnitMeasure.Expression/Formula.cs:24-38 | evaluating the compiled "x-2" gives x - n2 |
| FormulaShapes.ProductComputes | Source/Packages/UnitMeasure/Teta.Packages.UnitMeasure.Expression/FormulaParser.cs:114-128 | a fresh parser accepts "x*2" and the compiled formula evaluates to x * n2, for any number type |
| FormulaShapes.ProductReplays | Source/Packages/UnitMeasure/Teta.Packages.UnitMeasure.Expression/Formula.cs:24-38 | evaluating the compiled "x*2" gives x * n2 |
| FormulaShapes.QuotientComputes | Source/Packages/UnitMeasure/Teta.Packages.UnitMeasure.Expression/FormulaParser.cs:114-128 | a fresh parser accepts "x/2" and the compiled formula evaluates to x / n2, for any number type |
| FormulaShapes.QuotientReplays | Source/Packages/UnitMeasure/Teta.Packages.UnitMeasure.Expression/Formula.cs:24-38 | evaluating the compiled "x/2" gives x / n2 |
| FormulaShapes.SumOfProductComputes | Source/Packages/UnitMeasure/Teta.Packages.UnitMeasure.Expression/FormulaParser.cs:208-246 | a fresh parser accepts "x+2*3" and the compiled formula evaluates to x + n2 * n3: the later, higher-priority operator binds tighter, for any number type |
| FormulaShapes.SumOfProductReplays | Source/Packages/UnitMeasure/Teta.Packages.UnitMeasure.Expression/Formula.cs:24-38 | evaluating the compiled "x+2*3" gives x + n2 * n3 |
| FormulaShapes.ProductThenSumComputes | Source/Packages/UnitMeasure/Teta.Packages.UnitMeasure.Expression/FormulaParser.cs:208-246 | a fresh parser accepts "x*2+3" and the compiled formula evaluates to x * n2 + n3: the earlier, higher-priority operator binds tighter, for any number type |
| FormulaShapes.ProductThenSumReplays | Source/Packages/UnitMeasure/Teta.Packages.UnitMeasure.Expression/Formula.cs:24-38 | evaluating the compiled "x*2+3" gives x * n2 + n3 |
| FormulaShapes.DifferencesComputes | Source/Packages/UnitMeasure/Teta.Packages.UnitMeasure.Expression/FormulaParser.cs:208-246 | a fresh parser accepts "x-2-3" and the compiled formula evaluates to (x - n2) - n3: operators of one priority associate to the left, for any number type |
| FormulaShapes.DifferencesReplays | Source/Packages/UnitMeasure/Teta.Packages.UnitMeasure.Expression/Formula.cs:24-38 | evaluating the compiled "x-2-3" gives (x - n2) - n3 |
| FormulaShapes.QuotientsComputes | Source/Packages/UnitMeasure/Teta.Packages.UnitMeasure.Expression/FormulaParser.cs:208-246 | a fresh parser accepts "x/2/3" and the compiled formula evaluates to (x / n2) / n3: operators of one priority associate to the left, for any number type |
| FormulaShapes.QuotientsReplays | Source/Packages/UnitMeasure/Teta.Packages.UnitMeasure.Expression/Formula.cs:24-38 | evaluating the compiled "x/2/3" gives (x / n2) / n3 |
| FormulaShapes.SumRenders | Source/Packages/UnitMeasure/Teta.Packages.UnitMeasure.Expression/Tokens/ExpressionToken.cs:37-40 | the '+' of the compiled "x+2" renders as `[x]Plus[<number>]`: the variable by its name (VariableToken.cs:15-17), the number by its value |
| FormulaShapes.UnopenedFails | Source/Packages/UnitMeasure/Teta.Packages.UnitMeasure.Expression/FormulaParser.cs:85-92 | "x+1)", an unmatched ')', is rejected with EmptyStack |
| FormulaShapes.UnclosedFails | Source/Packages/UnitMeasure/Teta.Packages.UnitMeasure.Expression/FormulaParser.cs:155-161 | "(x+1", an unclosed '(', is rejected with InvalidCast |
| Base64Url.Digit | Source/Packages/Auth/Teta.Packages.Auth/AuthorizationExtensions.cs:253 | the base64 digit of a 6-bit value is never padding or a url-safe character |
| Base64Url.DigitValue | Source/Packages/Auth/Teta.Packages.Auth/AuthorizationExtensions.cs:273 | a digit's value is a 6-bit number |
| Base64Url.DigitValueOfDigit | Source/Packages/Auth/Teta.Packages.Auth/AuthorizationExtensions.cs:253-273 | every 6-bit value is read back from its digit |
| Base64Url.Digits | Source/Packages/Auth/Teta.Packages.Auth/AuthorizationExtensions.cs:253-254 | the unpadded base64 digits of n bytes number ceil(4n/3), all of them valid digits |
| Base64Url.Sextets | Source/Packages/Auth/Teta.Packages.Auth/AuthorizationExtensions.cs:253 | n bytes split into ceil(4n/3) six-bit values, the last group left short instead of padded |
| Base64Url.Unsextets | Source/Packages/Auth/Teta.Packages.Auth/AuthorizationExtensions.cs:273 | a value count of 1 mod 4 is rejected; any other count packs back into 3/4 as many bytes |
| Base64Url.Base64Encode | Source/Packages/Auth/Teta.Packages.Auth/AuthorizationExtensions.cs:253 | standard base64 output has a length that is a multiple of 4, namely 4 * ceil(n/3) |
| Base64Url.DecodeDigits | Source/Packages/Auth/Teta.Packages.Auth/AuthorizationExtensions.cs:273 | decoding unpadded digits yields 3/4 as many bytes, or fails with a format error |
| Base64Url.Base64Decode | Source/Packages/Auth/Teta.Packages.Auth/AuthorizationExtensions.cs:273 | standard base64 decoding first drops spaces, tabs, carriage returns and line feeds, then rejects a remaining length that is not a multiple of 4; every failure is a format error, and text without white space decodes as DecodeCompact does |
| Base64Url.SkipWhiteSpace | Source/Packages/Auth/Teta.Packages.Auth/AuthorizationExtensions.cs:273 | the result holds no space, tab, carriage return or line feed, is never longer, keeps a text without them and empties a text made only of them |
| Base64Url.DecodeCompact | Source/Packages/Auth/Teta.Packages.Auth/AuthorizationExtensions.cs:273 | decoding text without white space rejects a length that is not a multiple of 4 |
| Base64Url.SkipAppend | Source/Packages/Auth/Teta.Packages.Auth/AuthorizationExtensions.cs:273 | dropping white space from two joined texts drops it from each |
| Base64Url.SurroundedEncodingDecodes | Source/Packages/Auth/Teta.Packages.Auth/AuthorizationExtensions.cs:253-273 | a standard encoding surrounded by white space on either side still decodes to the bytes |
| Base64Url.GroupRoundTrip | Source/Packages/Auth/Teta.Packages.Auth/AuthorizationExtensions.cs:253-273 | the bit packing of a full group can be undone |
| Base64Url.UnpackGroup | Source/Packages/Auth/Teta.Packages.Auth/AuthorizationExtensions.cs:253-273 | unpacking a full group in front of more values yields its three bytes in front of theirs |
| Base64Url.UnpackOne | Source/Packages/Auth/Teta.Packages.Auth/AuthorizationExtensions.cs:253-273 | the two values of a one-byte final group unpack to that byte |
| Base64Url.UnpackTwo | Source/Packages/Auth/Teta.Packages.Auth/AuthorizationExtensions.cs:253-273 | the three values of a two-byte final group unpack to those bytes |
| Base64Url.UnsextetsOfSextets | Source/Packages/Auth/Teta.Packages.Auth/AuthorizationExtensions.cs:253-273 | unpacking the six-bit values of any bytes gives the bytes back |
| Base64Url.DigitsOf | Source/Packages/Auth/Teta.Packages.Auth/AuthorizationExtensions.cs:253 | each six-bit value becomes the digit at the same position |
| Base64Url.Values | Source/Packages/Auth/Teta.Packages.Auth/AuthorizationExtensions.cs:273 | reading digits back to values succeeds only on text whose digits they are |
| Base64Url.ValuesOfDigits | Source/Packages/Auth/Teta.Packages.Auth/AuthorizationExtensions.cs:253-273 | reading back the digits of any six-bit values gives those values |
| Base64Url.DecodeDigitsOfDigits | Source/Packages/Auth/Teta.Packages.Auth/AuthorizationExtensions.cs:253-273 | the unpadded digits of any bytes decode back to them |
| Base64Url.DecodeTwoPadded | Source/Packages/Auth/Teta.Packages.Auth/AuthorizationExtensions.cs:273 | decoding text without white space ignores a final "==" after a group of two digits |
| Base64Url.DecodeOnePadded | Source/Packages/Auth/Teta.Packages.Auth/AuthorizationExtensions.cs:273 | decoding text without white space ignores a final "=" after a group of three digits |
| Base64Url.DecodeUnpadded | Source/Packages/Auth/Teta.Packages.Auth/AuthorizationExtensions.cs:273 | decoding text with no white space and no padding is plain digit decoding |
| Base64Url.DecodeStripsPadding | Source/Packages/Auth/Teta.Packages.Auth/AuthorizationExtensions.cs:253-273 | standard decoding of a standard encoding equals decoding its unpadded digits |
| Base64Url.Base64RoundTrip | Source/Packages/Auth/Teta.Packages.Auth/AuthorizationExtensions.cs:253-273 | standard base64 decoding inverts standard base64 encoding |
| Base64Url.TakeUntil | Source/Packages/Auth/Teta.Packages.Auth/AuthorizationExtensions.cs:254 | the first piece of a split is the longest prefix without the separator |
| Base64Url.Replace | Source/Packages/Auth/Teta.Packages.Auth/AuthorizationExtensions.cs:255-256 | Replace changes exactly the occurrences of one character |
| Base64Url.Encode | Source/Packages/Auth/Teta.Packages.Auth/AuthorizationExtensions.cs:251-258 | the url-safe encoding holds no '=', '+' or '/' |
| Base64Url.Decode | Source/Packages/Auth/Teta.Packages.Auth/AuthorizationExtensions.cs:260-274 | decoding fails with "Illegal base64url string!" exactly when the length is 1 mod 4 |
| Base64Url.TakeUntilAt | Source/Packages/Auth/Teta.Packages.Auth/AuthorizationExtensions.cs:254 | cutting a text with no c, followed by nothing or by c, at the first c gives back that text |
| Base64Url.TakeUntilPadding | Source/Packages/Auth/Teta.Packages.Auth/AuthorizationExtensions.cs:254 | dropping everything from the first '=' leaves exactly the unpadded digits |
| Base64Url.ToStandard | Source/Packages/Auth/Teta.Packages.Auth/AuthorizationExtensions.cs:263-264 | the standard text has the same length, holds no '-' or '_', and keeps every other character in place |
| Base64Url.Padding | Source/Packages/Auth/Teta.Packages.Auth/AuthorizationExtensions.cs:253 | the standard padding is fewer than three '=' and brings the byte count to a multiple of 3 |
| Base64Url.ToStandardRestores | Source/Packages/Auth/Teta.Packages.Auth/AuthorizationExtensions.cs:263-264 | mapping '-' and '_' back restores the standard digits |
| Base64Url.EncodeDigits | Source/Packages/Auth/Teta.Packages.Auth/AuthorizationExtensions.cs:251-258 | mapping an encoding back to the standard alphabet gives the unpadded standard digits |
| Base64Url.PadTo4 | Source/Packages/Auth/Teta.Packages.Auth/AuthorizationExtensions.cs:265-269 | the padding appended is fewer than four '=' characters and brings the length to a multiple of 4 |
| Base64Url.PadCases | Source/Packages/Auth/Teta.Packages.Auth/AuthorizationExtensions.cs:265-269 | lengths of 0, 2 and 3 mod 4 get no padding, "==" and "=" respectively |
| Base64Url.DecodePads | Source/Packages/Auth/Teta.Packages.Auth/AuthorizationExtensions.cs:265-273 | for a length of 0, 2 or 3 mod 4, Decode is standard decoding of the standard text padded to a multiple of 4 with '=' |
| Base64Url.DigitCount | Source/Packages/Auth/Teta.Packages.Auth/AuthorizationExtensions.cs:265-269 | n bytes give a digit count of 0, 2 or 3 mod 4 as n is 0, 1 or 2 mod 3 |
| Base64Url.RepaddedDigits | Source/Packages/Auth/Teta.Packages.Auth/AuthorizationExtensions.cs:254-269 | re-padding the unpadded digits as Decode does restores the standard encoding |
| Base64Url.DecodeEncode | Source/Packages/Auth/Teta.Packages.Auth/AuthorizationExtensions.cs:251-274 | Decode(Encode(b)) == b for every byte sequence |
| FileKeys.Split | Source/Packages/Files/Teta.Packages.Files.Bll/Implementation/FileService.cs:133 | splitting on a character gives one more piece than occurrences, none holding the separator |
| FileKeys.JoinSplit | Source/Packages/Files/Teta.Packages.Files.Bll/Implementation/FileService.cs:133 | joining the pieces with the separator gives back the text |
| FileKeys.SplitOnce | Source/Packages/Files/Teta.Packages.Files.Bll/Implementation/FileService.cs:133-139 | a text with exactly one separator splits into the two sides |
| FileKeys.SplitNone | Source/Packages/Files/Teta.Packages.Files.Bll/Implementation/FileService.cs:152-154 | a text without the separator is one piece |
| FileKeys.CreateFileKey | Source/Packages/Files/Teta.Packages.Files.Bll/Implementation/FileService.cs:142-147 | the key is the base64 text of the UTF-8 bytes of "<version>key" |
| FileKeys.Extract | Source/Packages/Files/Teta.Packages.Files.Bll/Implementation/FileService.cs:128-140 | an undecodable key fails; a decoded text without exactly one '>' fails with "Key format exception"; a text with one '>' at its start fails with ArgumentOutOfRange (the Substring(1, -1) of FileService.cs:139), and exactly then; otherwise the text is one character, the version, '>' and the key |
| FileKeys.ExtractCreate | Source/Packages/Files/Teta.Packages.Files.Bll/Implementation/FileService.cs:128-147 | Extract(CreateFileKey(p)) gives back (version, key) when neither holds '>' |
| FileKeys.Folder | Source/Packages/Files/Teta.Packages.Files.Bll/Implementation/FileService.cs:149-155 | the owner is the prefix of the object key up to its first '/' (all of it when there is none) |
| FileKeys.FirstPiece | Source/Packages/Files/Teta.Packages.Files.Bll/Implementation/FileService.cs:152-154 | the first piece of a split is the prefix up to the first separator |
| FileKeys.ConvertToFileDescriptor | Source/Packages/Files/Teta.Packages.Files.Bll/Implementation/FileService.cs:167-178 | etag, expiry, file name and size are copied unchanged and the owner is the key's folder |
| FileKeys.DescriptorKey | Source/Packages/Files/Teta.Packages.Files.Bll/Implementation/FileService.cs:167-178 | the descriptor's file key extracts back to the object's version and key |
| FileKeys.FileService.constructor | Source/Packages/Files/Teta.Packages.Files.Bll/Implementation/FileService.cs:36-42 | a new service holds the given objects and has not yet checked the bucket |
| FileKeys.FileService.StoreFile | Source/Packages/Files/Teta.Packages.Files.Bll/Implementation/FileService.cs:51-69 | the bucket exists afterwards; an object of that name in the user's folder with the same checksum is described and nothing is written; otherwise the new version is stored under the name and described |
| FileKeys.StoreTwice | Source/Packages/Files/Teta.Packages.Files.Bll/Implementation/FileService.cs:51-69 | storing the same data twice under one name returns the first version's descriptor both times |
| TextEncodings.ByteStream.constructor | Source/Packages/Files/Teta.Packages.Files.Bll/FilesBllExtensions.cs:89-93 | a stream over the bytes starts at position 0 |
| TextEncodings.ByteStream.Read | Source/Packages/Files/Teta.Packages.Files.Bll/FilesBllExtensions.cs:93 | Read copies min(count, remaining) bytes into the buffer at the offset, leaves the rest of the buffer alone and advances the position by that many |
| TextEncodings.Classify | Source/Packages/Files/Teta.Packages.Files.Bll/FilesBllExtensions.cs:96-129 | the first matching signature in the order UTF-7, UTF-8, UTF-32 LE, UTF-16 LE, UTF-16 BE, UTF-32 BE picks the encoding, and windows-1251 otherwise |
| TextEncodings.ClassifiedBySignature | Source/Packages/Files/Teta.Packages.Files.Bll/FilesBllExtensions.cs:96-129 | every encoding other than windows-1251 is chosen only when the bytes begin with its signature, and UTF-16 LE only when the next two bytes are not both zero |
| TextEncodings.SignatureClassified | Source/Packages/Files/Teta.Packages.Files.Bll/FilesBllExtensions.cs:96-124 | every signature is recognised whatever follows it, except that FF FE 00 00 is read as UTF-32 LE because that rule comes first |
| TextEncodings.Peek | Source/Packages/Files/Teta.Packages.Files.Bll/FilesBllExtensions.cs:91-93 | the classified buffer always has four bytes |
| TextEncodings.GetEncoding2 | Source/Packages/Files/Teta.Packages.Files.Bll/FilesBllExtensions.cs:89-130 | the encoding is the classification of the next four bytes (zero-filled past the end) and the stream moves on by up to four bytes |
| TextEncodings.BareUtf16MarkReadsAsUtf32 | Source/Packages/Files/Teta.Packages.Files.Bll/FilesBllExtensions.cs:106-114 | a two-byte file holding only FF FE is classified UTF-32 LE: the unread buffer bytes stay zero |
| TextEncodings.CommaToPoint | Source/Packages/Files/Teta.Packages.Files.Bll/FilesBllExtensions.cs:144 | every ',' becomes '.' and nothing else changes |
| TextEncodings.GetDouble | Source/Packages/Files/Teta.Packages.Files.Bll/FilesBllExtensions.cs:137-150 | null or empty text gives 0; otherwise the comma-to-point text is parsed, 0 when it does not parse |
| TextEncodings.SupportGetDouble | Source/Packages/Files/Teta.Packages.Files.Bll/Support.cs:61-65 | the variant without a null guard fails exactly on null |
| TextEncodings.GetDoubleCommaBlind | Source/Packages/Files/Teta.Packages.Files.Bll/FilesBllExtensions.cs:137-150 | both variants read a comma exactly like a point |
| TextEncodings.GetDoubleVariantsAgree | Source/Packages/Files/Teta.Packages.Files.Bll/Support.cs:61-65 | with one parser for the style Any (FilesBllExtensions.cs:144) and one for the style Number (Support.cs:64), where Any reads everything Number reads to the same value: on non-null text the two conversions agree exactly when Number reads the text or the Any result is 0; on null one fails and the other gives 0 |
| ParseErrors.Digits | Source/Packages/Files/Teta.Files.Contracts/FileParseException.cs:57 | the decimal digits of a natural number are non-empty, digits only, without a leading zero |
| ParseErrors.ValueOfDigits | Source/Packages/Files/Teta.Files.Contracts/FileParseException.cs:57 | the decimal digits read back as the number |
| ParseErrors.DecimalRoundTrip | Source/Packages/Files/Teta.Files.Contracts/FileParseException.cs:57 | the decimal text of any row or column reads back as that integer |
| ParseErrors.LinesAppend | Source/Packages/Files/Teta.Files.Contracts/FileParseException.cs:55-58 | the error lines of two logs are the lines of each in order |
| ParseErrors.LineBreaks | Source/Packages/Files/Teta.Files.Contracts/FileParseException.cs:57 | each error line ends with exactly one line break when the message has none |
| ParseErrors.OneLinePerEntry | Source/Packages/Files/Teta.Files.Contracts/FileParseException.cs:55-58 | the report has one line per error |
| ParseErrors.LinesSnoc | Source/Packages/Files/Teta.Files.Contracts/FileParseException.cs:55-58 | the loop's text after each error is the text before plus that error's line |
| ParseErrors.FileParseException.constructor | Source/Packages/Files/Teta.Files.Contracts/FileParseException.cs:28-32 | a new exception has the message, no errors and no stack trace, and HasErrors is false |
| ParseErrors.FileParseException.HasErrors | Source/Packages/Files/Teta.Files.Contracts/FileParseException.cs:37 | true exactly when the log holds an entry |
| ParseErrors.FileParseException.AddParseException | Source/Packages/Files/Teta.Files.Contracts/FileParseException.cs:45-48 | the entry (row, col, msg) is appended at the end and HasErrors becomes true |
| ParseErrors.FileParseException.ToString | Source/Packages/Files/Teta.Files.Contracts/FileParseException.cs:52-63 | the text is the message, one "[row:col]: msg" line per error in order, then the stack trace and a line break |
| ParseErrors.ReportExtends | Source/Packages/Files/Teta.Files.Contracts/FileParseException.cs:52-63 | adding an error adds exactly its line before the stack trace |
| FileDescriptions.Replaced | Source/Packages/Files/Teta.Files.Contracts/Internal/FileDescription.cs:71-78 | only slot idx changes; it takes the base group's columns, name and first row and keeps the old preview rows |
| FileDescriptions.ReplacedIdempotent | Source/Packages/Files/Teta.Files.Contracts/Internal/FileDescription.cs:67-80 | replacing a slot twice with the same base group is replacing it once |
| FileDescriptions.ReplacedByOwnBase | Source/Packages/Files/Teta.Files.Contracts/Internal/FileDescription.cs:67-80 | replacing a slot with its own base group changes nothing |
| FileDescriptions.ReplacedCommute | Source/Packages/Files/Teta.Files.Contracts/Internal/FileDescription.cs:67-80 | replacements of two different slots commute |
| FileDescriptions.FileDescription.constructor | Source/Packages/Files/Teta.Files.Contracts/Internal/FileDescription.cs:19-60 | a new description has no data groups, an unknown type and the preview row count given |
| FileDescriptions.FileDescription.ReplaceGroup | Source/Packages/Files/Teta.Files.Contracts/Internal/FileDescription.cs:67-80 | no groups: nothing happens; an index outside the list fails with ArgumentOutOfRange and changes nothing; otherwise the groups become Replaced(groups, base, idx) |
| ReaderFactory.CreateReader | Source/Packages/Files/Teta.Packages.Files.Bll/Implementation/FileDescriptionReaderFactory.cs:22-35 | ".txt" and ".csv" give the CSV reader, ".xlsx" the XLSX reader, ".las" the LAS reader, anything else none |
| ReaderFactory.UpperCaseUnknown | Source/Packages/Files/Teta.Packages.Files.Bll/Implementation/FileDescriptionReaderFactory.cs:24-33 | upper-case extensions such as ".CSV" give no reader |
| ReaderFactory.Extension | Source/Packages/Files/Teta.Packages.Files.Bll/Implementation/FileDescriptionReaderFactory.cs:40 | the extension is empty or a suffix of the path that starts with '.' and holds no further '.' or '/' |
| ReaderFactory.DotBefore | Source/Packages/Files/Teta.Packages.Files.Bll/Implementation/FileDescriptionReaderFactory.cs:40 | the last '.' before a position with no '/' after it |
| ReaderFactory.DotBeforeSuffix | Source/Packages/Files/Teta.Packages.Files.Bll/Implementation/FileDescriptionReaderFactory.cs:40 | in stem + ext the last dot is the one starting ext |
| ReaderFactory.ExtensionOfSuffix | Source/Packages/Files/Teta.Packages.Files.Bll/Implementation/FileDescriptionReaderFactory.cs:40 | the extension of stem + ".ext" is ".ext" |
| ReaderFactory.CreateReaderFor | Source/Packages/Files/Teta.Packages.Files.Bll/Implementation/FileDescriptionReaderFactory.cs:38-52 | a reader is found for a descriptor only when its file name's extension is a known one |
| ReaderFactory.ReaderForName | Source/Packages/Files/Teta.Packages.Files.Bll/Implementation/FileDescriptionReaderFactory.cs:38-52 | a name ending in ".las", ".xlsx" or ".csv" gets the LAS, XLSX or CSV reader |
| ReaderFactory.NoDotNoReader | Source/Packages/Files/Teta.Packages.Files.Bll/Implementation/FileDescriptionReaderFactory.cs:38-52 | a name without a '.' gets no reader |
| UnitGroups.FirstWithId | Source/Packages/UnitMeasure/Teta.Packages.UnitMeasure/Contracts/UnitGroup.cs:53 | the index of the first unit with the id, or none when no unit has it |
| UnitGroups.FirstDefault | Source/Packages/UnitMeasure/Teta.Packages.UnitMeasure/Contracts/UnitGroup.cs:56 | the first default unit, or none, or the first unit without a conversion, where the search dereferences null |
| UnitGroups.GetUnitOrDefault | Source/Packages/UnitMeasure/Teta.Packages.UnitMeasure/Contracts/UnitGroup.cs:51-60 | null units fail; the first unit with the id is returned; otherwise the first default unit, null when none, or a null-reference failure on a unit without a conversion before any default |
| UnitGroups.IdWins | Source/Packages/UnitMeasure/Teta.Packages.UnitMeasure/Contracts/UnitGroup.cs:53-57 | a unit with the id wins even when it is not the default |
| UnitGroups.FoundUnitMatches | Source/Packages/UnitMeasure/Teta.Packages.UnitMeasure/Contracts/UnitGroup.cs:51-60 | a returned unit belongs to the group and has the id or is the default |
| UnitGroups.NothingFound | Source/Packages/UnitMeasure/Teta.Packages.UnitMeasure/Contracts/UnitGroup.cs:53-59 | with no id match and no default the result is null |
| UnitGroups.MissingConversionFails | Source/Packages/UnitMeasure/Teta.Packages.UnitMeasure/Contracts/UnitGroup.cs:56 | a unit without a conversion reached by the fallback search makes it fail |
| Authorization.HasRole | Source/Packages/Auth/Teta.Packages.Auth/ClaimsPrincipalExtension.cs:16-20 | the user has the role exactly when some claim has the role type and that value |
| Authorization.Decide | Source/Packages/Auth/Teta.Packages.Auth/AuthorizationFilter.cs:51-86 | anonymous endpoints proceed; unauthenticated users get 401; an authenticated user with no required claims raises; otherwise the access check decides between proceeding and 403 |
| Authorization.AuthorizationFilter.constructor | Source/Packages/Auth/Teta.Packages.Auth/AuthorizationFilter.cs:36-42 | the filter holds the claims and the access check |
| Authorization.AuthorizationFilter.OnAuthorization | Source/Packages/Auth/Teta.Packages.Auth/AuthorizationFilter.cs:51-86 | the filter raises exactly when Decide says so, sets the context result to Decide's answer when it answers, and leaves it alone otherwise |
| Authorization.NewAuthorizationFilter | Source/Packages/Auth/Teta.Packages.Auth/AuthorizationFilter.cs:36-42 | null claims fail with ArgumentNull("claims"), a null access check with ArgumentNull("authImplementation"); otherwise a fresh filter |
| Authorization.GrantAttributesRaise | Source/Packages/Auth/Teta.Packages.Auth/AllUserGrantAccessAttribute.cs:20-22 | the grant attributes pass no claims, so every authenticated request to a non-anonymous endpoint raises |
| Authorization.IsAnonymous | Source/Packages/Auth/Teta.Packages.Auth/AuthorizationFilter.cs:55-61 | a request is anonymous exactly when its endpoint exists and its metadata holds the allow-anonymous marker |
| Authorization.IsSuperUser | Source/Packages/Auth/Teta.Packages.Auth/AuthorizationFilter.cs:71 | a user is a super user when one of their claims is the role claim with value TETACOM_SU |
| Authorization.SuperUserFlag | Source/Packages/Auth/Teta.Packages.Auth/AuthorizationFilter.cs:71 | the super-user flag is exactly the presence of the claim teta_role = TETACOM_SU |
| Authorization.UnauthorizedOnlyAnonymousUsers | Source/Packages/Auth/Teta.Packages.Auth/AuthorizationFilter.cs:81-84 | 401 is answered exactly to unauthenticated users at non-anonymous endpoints |
| LasData.TrimEnd | Source/Packages/Files/Teta.Packages.Files.Bll/Implementation/DataParser/LasByRowReader.cs:139 | the longest prefix not ending in the character, all removed characters being that one |
| LasData.TrimEndUnique | Source/Packages/Files/Teta.Packages.Files.Bll/Implementation/DataParser/LasByRowReader.cs:139 | TrimEnd is the only such prefix |
| LasData.NormalizeField | Source/Packages/Files/Teta.Packages.Files.Bll/Implementation/DataParser/LasByRowReader.cs:136-142 | the result is empty or a prefix of the field, never a sentinel; a field without '.' is kept unless it is a sentinel |
| LasData.WholeNumberField | Source/Packages/Files/Teta.Packages.Files.Bll/Implementation/DataParser/LasByRowReader.cs:136-140 | a whole number written with '.' and trailing zeros reads as the bare digits |
| LasData.PaddedSentinels | Source/Packages/Files/Teta.Packages.Files.Bll/Implementation/DataParser/LasByRowReader.cs:52-67 | "-999.2500", "-999.00" and "32767." read as blank |
| LasData.RemoveEmpty | Source/Packages/Files/Teta.Packages.Files.Bll/Implementation/DataParser/LasByRowReader.cs:122 | the kept pieces are the non-empty ones |
| LasData.Fields | Source/Packages/Files/Teta.Packages.Files.Bll/Implementation/DataParser/LasByRowReader.cs:122 | the fields of a line are non-empty and hold no space |
| LasData.ConcatRemoveEmpty | Source/Packages/Files/Teta.Packages.Files.Bll/Implementation/DataParser/LasByRowReader.cs:122 | dropping empty pieces keeps the text |
| LasData.ConcatSplit | Source/Packages/Files/Teta.Packages.Files.Bll/Implementation/DataParser/LasByRowReader.cs:122 | the pieces of a split on ' ' together are the line without spaces |
| LasData.FieldsKeepText | Source/Packages/Files/Teta.Packages.Files.Bll/Implementation/DataParser/LasByRowReader.cs:122 | the fields together are the line without its spaces |
| LasData.SkipFrom | Source/Packages/Files/Teta.Packages.Files.Bll/Implementation/DataParser/LasByRowReader.cs:289-297 | the search for the data section moves forward and stays in the file |
| LasData.SkipFromMarker | Source/Packages/Files/Teta.Packages.Files.Bll/Implementation/DataParser/LasByRowReader.cs:289-297 | the search stops just past the first "~A" line |
| LasData.SkipFromNoMarker | Source/Packages/Files/Teta.Packages.Files.Bll/Implementation/DataParser/LasByRowReader.cs:289-297 | without a "~A" line the search reads the whole file |
| LasData.DataStartAtMarker | Source/Packages/Files/Teta.Packages.Files.Bll/Implementation/DataParser/LasByRowReader.cs:286-298 | the data start just after the first "~A" line |
| LasData.DataStartNoMarker | Source/Packages/Files/Teta.Packages.Files.Bll/Implementation/DataParser/LasByRowReader.cs:286-298 | without a "~A" line no data rows remain |
| LasData.ReadStep | Source/Packages/Files/Teta.Packages.Files.Bll/Implementation/DataParser/LasByRowReader.cs:104-124 | Read answers false exactly at the end and then changes nothing; otherwise it consumes one line and counts it |
| LasData.CellNumber | Source/Packages/Files/Teta.Packages.Files.Bll/Implementation/DataParser/LasByRowReader.cs:311-322 | no number exactly when there is no row or the index is negative; 0 for an index past the row's end; otherwise the GetDouble of the cell text with sentinels read as 0; no result is ever a sentinel |
| LasData.SentinelCellReadsBlank | Source/Packages/Files/Teta.Packages.Files.Bll/Implementation/DataParser/LasByRowReader.cs:132-168 | a cell holding a null sentinel reads as the empty text and as the number 0 |
| LasData.LasByRowReader.constructor | Source/Packages/Files/Teta.Packages.Files.Bll/Implementation/DataParser/LasByRowReader.cs:89-99 | a new reader over the lines is in the state of an opened file |
| LasData.LasByRowReader.ReadLine | Source/Packages/Files/Teta.Packages.Files.Bll/Implementation/DataParser/LasByRowReader.cs:324-328 | the row counter rises by one; a line is returned and consumed, or none at the end |
| LasData.LasByRowReader.ChangePointToLasData | Source/Packages/Files/Teta.Packages.Files.Bll/Implementation/DataParser/LasByRowReader.cs:286-298 | the reader stops just past the first "~A" line (or at the end) and the counter rises by one per line read |
| LasData.LasByRowReader.Read | Source/Packages/Files/Teta.Packages.Files.Bll/Implementation/DataParser/LasByRowReader.cs:104-124 | the answer and the new state are exactly ReadStep's |
| LasData.LasByRowReader.ReadString | Source/Packages/Files/Teta.Packages.Files.Bll/Implementation/DataParser/LasByRowReader.cs:132-149 | the normalised cell text, or none with (row, index, "Can not get double value") appended to a supplied log |
| LasData.LasByRowReader.ReadDouble | Source/Packages/Files/Teta.Packages.Files.Bll/Implementation/DataParser/LasByRowReader.cs:157-168 | the cell's number; 0 with nothing logged for an index past the row's end; or 0 with (row, index, "Can not get double value") appended to the log |
| LasData.Open | Source/Packages/Files/Teta.Packages.Files.Bll/Implementation/DataParser/LasByRowReader.cs:89-99 | a null stream fails with ArgumentNull("fileStream"); otherwise a fresh reader in the opened state, rewriting with the reader's four replacement groups |
| LasData.ReplacementRules | Source/Packages/Files/Teta.Packages.Files.Bll/Implementation/DataParser/LasByRowReader.cs:23-28 | one rewrite per replacement group, in order, each replacing its pattern by its replacement text |
| LasData.RewriteInOrder | Source/Packages/Files/Teta.Packages.Files.Bll/Implementation/DataParser/LasByRowReader.cs:117-120 | a line is rewritten by the four groups one after the other, the first group first |
| LasData.LasByRowReader.CurrentRowIdx | Source/Packages/Files/Teta.Packages.Files.Bll/Implementation/DataParser/LasByRowReader.cs:246 | the row index is the counter of lines read |
| LasData.ReadCounts | Source/Packages/Files/Teta.Packages.Files.Bll/Implementation/DataParser/LasByRowReader.cs:104-128 | the counter rises by the lines consumed; an empty line keeps the row; another line becomes fields holding its rewritten text without spaces |
| LasHeader.IndexOfChar | Source/Packages/Files/Teta.Packages.Files.Bll/Implementation/HeaderInterpreters/LasFileHeaderReader.cs:140 | the first index of the character, or -1 when absent |
| LasHeader.IndexOfDots | Source/Packages/Files/Teta.Packages.Files.Bll/Implementation/HeaderInterpreters/LasFileHeaderReader.cs:139 | the first ".." at or after a position, or -1 |
| LasHeader.ConfigureMetadataPatterns | Source/Packages/Files/Teta.Packages.Files.Bll/Implementation/HeaderInterpreters/LasFileHeaderReader.cs:120-159 | without ':' the no-colon value and dotted names on ".."; with ':' and no '.' before it the missing-period patterns; with a '.' before it the full pattern; with ':' the dotted names are chosen when some ".." follows a non-space anywhere in the line and the first ".." precedes the first ':' (so "..:x.." picks them) |
| LasHeader.LaterDotsPickDottedNames | Source/Packages/Files/Teta.Packages.Files.Bll/Implementation/HeaderInterpreters/LasFileHeaderReader.cs:137-145 | "..:x.." takes the dotted names: the ".." after 'x' satisfies the pattern, and the first ".." precedes the ':' |
| LasHeader.DottedNameNeedsPeriod | Source/Packages/Files/Teta.Packages.Files.Bll/Implementation/HeaderInterpreters/LasFileHeaderReader.cs:128-146 | the two overrides never meet: a ".." before the first ':' puts a '.' before it |
| LasHeader.PatternShape | Source/Packages/Files/Teta.Packages.Files.Bll/Implementation/HeaderInterpreters/LasFileHeaderReader.cs:158 | the pattern is always name + unit + value + description, with one of the three name patterns |
| LasHeader.TrimStart | Source/Packages/Files/Teta.Packages.Files.Bll/Implementation/HeaderInterpreters/LasFileHeaderReader.cs:87 | no leading white space remains |
| LasHeader.TrimEndSpace | Source/Packages/Files/Teta.Packages.Files.Bll/Implementation/HeaderInterpreters/LasFileHeaderReader.cs:87 | no trailing white space remains |
| LasHeader.Trim | Source/Packages/Files/Teta.Packages.Files.Bll/Implementation/HeaderInterpreters/LasFileHeaderReader.cs:87 | neither leading nor trailing white space remains |
| LasHeader.TrimEndPrefix | Source/Packages/Files/Teta.Packages.Files.Bll/Implementation/HeaderInterpreters/LasFileHeaderReader.cs:87 | trimming the end keeps a prefix |
| LasHeader.ScanColumns | Source/Packages/Files/Teta.Packages.Files.Bll/Implementation/HeaderInterpreters/LasFileHeaderReader.cs:56-92 | the matched header lines get consecutive positions 0, 1, 2, ... and are not imported |
| LasHeader.ScanStopsAtData | Source/Packages/Files/Teta.Packages.Files.Bll/Implementation/HeaderInterpreters/LasFileHeaderReader.cs:66-69 | nothing after the first "~A" line affects the columns |
| LasHeader.NoSectionNoColumns | Source/Packages/Files/Teta.Packages.Files.Bll/Implementation/HeaderInterpreters/LasFileHeaderReader.cs:71-79 | without a "~C" line there are no columns |
| LasHeader.RowOf | Source/Packages/Files/Teta.Packages.Files.Bll/Implementation/HeaderInterpreters/LasFileHeaderReader.cs:105-113 | a preview row holds one value per column, the cell text of each |
| LasHeader.PreviewFrom | Source/Packages/Files/Teta.Packages.Files.Bll/Implementation/HeaderInterpreters/LasFileHeaderReader.cs:96-117 | every preview row has one value per column and there are at most RowsInPreview of them |
| LasHeader.FillDescriptionData | Source/Packages/Files/Teta.Packages.Files.Bll/Implementation/HeaderInterpreters/LasFileHeaderReader.cs:40-118 | the description becomes a LAS file with one group named after the file, holding the scanned columns and the preview rows |
| LasHeader.ScanHeader | Source/Packages/Files/Teta.Packages.Files.Bll/Implementation/HeaderInterpreters/LasFileHeaderReader.cs:56-92 | the header loop computes ScanColumns |
| LasHeader.Preview | Source/Packages/Files/Teta.Packages.Files.Bll/Implementation/HeaderInterpreters/LasFileHeaderReader.cs:94-117 | the preview loop computes PreviewFrom |
| LasHeader.PreviewBounded | Source/Packages/Files/Teta.Packages.Files.Bll/Implementation/HeaderInterpreters/LasFileHeaderReader.cs:98-117 | the preview holds at most RowsInPreview rows of the column count each |
| XlsxReaders.CellValue | Source/Packages/Files/Teta.Packages.Files.Bll/Implementation/DataParser/XlsxByRowReader.cs:140 | a text cell reads as its text, a missing cell as null, and an unconvertible one fails |
| XlsxReaders.XlsxByRowReader.constructor | Source/Packages/Files/Teta.Packages.Files.Bll/Implementation/DataParser/XlsxByRowReader.cs:42-52 | a reader starts at the first data row with no marks |
| XlsxReaders.XlsxByRowReader.Read | Source/Packages/Files/Teta.Packages.Files.Bll/Implementation/DataParser/XlsxByRowReader.cs:124-128 | the counter rises by exactly one and Read answers whether it is within the sheet's rows |
| XlsxReaders.XlsxByRowReader.AddParseException | Source/Packages/Files/Teta.Packages.Files.Bll/Implementation/DataParser/XlsxByRowReader.cs:396-400 | (row, column, msg) is appended to the log and the cell (row, column + 1) is marked; without a log the call fails on null |
| XlsxReaders.XlsxByRowReader.SetCellMark | Source/Packages/Files/Teta.Packages.Files.Bll/Implementation/DataParser/XlsxByRowReader.cs:402-407 | the cell (row, column + 1) is marked with the message |
| XlsxReaders.XlsxByRowReader.CurrentRowIdx | Source/Packages/Files/Teta.Packages.Files.Bll/Implementation/DataParser/XlsxByRowReader.cs:326 | the row index is the counter of rows read |
| XlsxReaders.XlsxByRowReader.ReadString | Source/Packages/Files/Teta.Packages.Files.Bll/Implementation/DataParser/XlsxByRowReader.cs:136-147 | the cell at (row, index + 1); an unreadable cell logs "Can not get string value", marks the cell and reads as null, or fails on a null log |
| XlsxReaders.ReadResults | Source/Packages/Files/Teta.Packages.Files.Bll/Implementation/DataParser/XlsxByRowReader.cs:124-128 | the i-th Read answers true exactly when row count + i + 1 is within the sheet |
| XlsxReaders.OnceFalseAlwaysFalse | Source/Packages/Files/Teta.Packages.Files.Bll/Implementation/DataParser/XlsxByRowReader.cs:126-127 | once Read answers false it keeps answering false |
| XlsxReaders.FindSheet | Source/Packages/Files/Teta.Packages.Files.Bll/Implementation/DataParser/XlsxByRowReader.cs:79 | the first sheet with the name, or none when no sheet has it |
| XlsxReaders.OpenSheet | Source/Packages/Files/Teta.Packages.Files.Bll/Implementation/DataParser/XlsxByRowReader.cs:42-52 | a negative first row fails; otherwise a fresh reader on the sheet, named after it |
| XlsxReaders.OpenNamed | Source/Packages/Files/Teta.Packages.Files.Bll/Implementation/DataParser/XlsxByRowReader.cs:60-85 | a negative row, an empty name and a null stream fail in that order; a missing sheet fails with KeyNotFound; otherwise a reader on the first sheet of that name |
| XlsxReaders.SheetByNumber | Source/Packages/Files/Teta.Packages.Files.Bll/Implementation/DataParser/XlsxByRowReader.cs:105-112 | the lookup as written opens only indices within the workbook |
| XlsxReaders.NegativeNumberNeverOpens | Source/Packages/Files/Teta.Packages.Files.Bll/Implementation/DataParser/XlsxByRowReader.cs:105-107 | as written, every negative sheet number fails on a null package |
| XlsxReaders.SheetFromEnd | Source/Packages/Files/Teta.Packages.Files.Bll/Implementation/DataParser/XlsxByRowReader.cs:105-112 | a negative number counts from the end; numbers outside -count .. count - 1 fail with IndexOutOfRange |
| XlsxReaders.FromEndOpensLast | Source/Packages/Files/Teta.Packages.Files.Bll/Implementation/DataParser/XlsxByRowReader.cs:105-108 | -1 opens the last sheet, -count the first, and non-negative numbers open as before |
| XlsxReaders.OpenNumbered | Source/Packages/Files/Teta.Packages.Files.Bll/Implementation/DataParser/XlsxByRowReader.cs:93-119 | a negative row and a null stream fail in that order; otherwise the reader opens the sheet SheetFromEnd picks or fails with its error |
| XlsxReaders.AllSheetsRead | Source/Packages/Files/Teta.Packages.Files.Bll/Implementation/DataParser/XlsxByRowAllSheetsReader.cs:73-89 | no switch while the sheet has rows; true only within the current sheet's rows; false only past the last sheet; a switch restarts one row after the first row |
| XlsxReaders.SkippedSheetsEmpty | Source/Packages/Files/Teta.Packages.Files.Bll/Implementation/DataParser/XlsxByRowAllSheetsReader.cs:76-82 | every sheet skipped on the way has no row past the first row |
| XlsxReaders.XlsxByRowAllSheetsReader.constructor | Source/Packages/Files/Teta.Packages.Files.Bll/Implementation/DataParser/XlsxByRowAllSheetsReader.cs:40-60 | the reader starts on the first sheet at the first row, sheet counter 1 |
| XlsxReaders.XlsxByRowAllSheetsReader.Read | Source/Packages/Files/Teta.Packages.Files.Bll/Implementation/DataParser/XlsxByRowAllSheetsReader.cs:73-89 | the answer, sheet counter and row are AllSheetsRead's; without a switch the sheet reader and its marks stay, after one it is a fresh reader on the new sheet |
| XlsxReaders.XlsxByRowAllSheetsReader.AddParseException | Source/Packages/Files/Teta.Packages.Files.Bll/Implementation/DataParser/XlsxByRowAllSheetsReader.cs:154-157 | the error goes to the current sheet's reader: logged and marked there |
| XlsxReaders.XlsxByRowAllSheetsReader.CurrentRowIdx | Source/Packages/Files/Teta.Packages.Files.Bll/Implementation/DataParser/XlsxByRowAllSheetsReader.cs:28 | the row index of the reader of the current sheet |
| XlsxReaders.XlsxByRowAllSheetsReader.SheetName | Source/Packages/Files/Teta.Packages.Files.Bll/Implementation/DataParser/XlsxByRowAllSheetsReader.cs:33 | the name of the current sheet |
| XlsxReaders.OpenAllSheets | Source/Packages/Files/Teta.Packages.Files.Bll/Implementation/DataParser/XlsxByRowAllSheetsReader.cs:40-60 | a null stream fails with ArgumentNull("stream"), an empty workbook with ArgumentNull("_sheetsCount"), a negative row through the sheet reader; otherwise a reader on the first sheet |

## Left out

- Regular expressions are parameters: the LAS header patterns go through a `Matcher`, and the LAS rewrite groups through a `replace` function that takes a line, a pattern and a replacement. The pattern and replacement texts are kept as constants (`LasHeader` patterns, `LasData.ReplaceGroups`); what a regular expression matches and how `$1` substitutes are not modelled.
- Operand names are compared by exact equality, in `ParseSteps.Intern` and in the lookup of "x" by the evaluation. The source keeps them in a `SortedList<string, ValueToken>` with the default comparer (Formula.cs:16), which compares by culture: characters it ignores, such as the soft hyphen U+00AD, make two different texts one name there but two here.
- UTF-8 encoding and decoding are a pair of functions; the round trip of file keys assumes they are lossless.
- SHA-256, the S3 client, bucket creation, upload and download requests, `Task` scheduling and all network I/O are not modelled; the object store is a map from (folder, name) to stored object.
- `CharsetDetector`-based `GetEncoding` (FilesBllExtensions.cs:65-82, Support.cs:37-54) is not modelled: it calls an external library; only `GetEncoding2` is.
- `StreamReader` decoding of the file text is not modelled: LAS and header readers take the file as a sequence of lines.
- The number styles `NumberStyles.Any` and `NumberStyles.Number` are two parser parameters; which texts each accepts (currency symbols, exponents, hexadecimal and so on) is not modelled, only that Any accepts everything Number accepts, to the same value.
- Culture-dependent `double.TryParse` and IEEE doubles: number parsing is a parameter returning an optional `real`, so rounding and overflow of doubles are not captured.
- `Trim` treats only space, tab, line feed, vertical tab, form feed and carriage return as white space, not every Unicode white-space character.
- Formulas.Formula.ToString: has no contract of its own. It returns the stored source, and `Parsing.FormulaParser.Parse` with `ParseSteps.Compile` state that this source is the parsed text.
- `ExpressionToken.ToString`, `VariableToken.ToString` and `ValueToken.ToString` are modelled together by `Render`: a variable shows its name, a number shows its value through the `show` parameter (the invariant-culture formatting of doubles is not modelled). `Render` takes a fuel bound because the token graph may be cyclic, so text that never ends is modelled as no result.
- ParseSteps.ParseSpec: no theorem relates every compiled formula to a reference evaluation of its text, because the parser as written is wrong on some inputs (see the defects below). What it computes is proved for the shapes in FormulaShapes and for the unit-test formula.
- The parser's branch for a function call after a name (FormulaParser.cs:63-75) is unreachable, since the preceding check at lines 59-61 always throws; the model keeps only the throw.
- ClaimsPrincipal details other than the authentication flag and the claims list, and an absent `Identity`, are not modelled.
- EPPlus specifics are not modelled: the model takes the workbook's sheets as numbered from 0 (the numbering of EPPlus 5 and later; older EPPlus numbers them from 1, which is not modelled), and it leaves out name comparison rules, the null `Dimension` of an empty sheet, adding a comment to a cell that already has one, `SaveChanges` and `Dispose`.
- The XLSX reader's `ReadDouble`, `ReadDoubleNullOrDefault`, `ReadDateTime`, `ReadTimeSpan`, `ReadText`, `ReadTimeFromDays`, `ReadTimeFromMinutes` and `ReadValue` are not modelled: they convert EPPlus cell values to .NET types. The all-sheets reader's members that only forward to the current sheet's reader are not modelled either, except `Read`, `AddParseException`, `CurrentRowIdx` and `SheetName`.
- The LAS reader's `ReadText` only forwards to `ReadString`, which is modelled. Its `ReadDoubleNullOrDefault`, `ReadDateTime`, `ReadTimeFromDays`, `ReadTimeFromMinutes`, `ReadValue`, `SaveChanges` and `SheetName` are not modelled: they throw `NotSupportedException` or `NotImplementedException`, or convert to .NET types. Its `AddParseException` is not modelled either; it throws `NotImplementedException` (LasByRowReader.cs:278-281).
- LasHeader.FillDescriptionData: the source adds the data group to the description first and fills its columns and rows afterwards through the same reference; the model builds the group and stores it once, so that aliasing is not captured.
- LasData.LasByRowReader.ReadDouble: takes a non-null log. The source accepts a null `baseEx`; a cell that then fails to convert raises a null reference from the catch block (LasByRowReader.cs:162-166), which the model does not capture.
- ParseErrors.NewLine: `AppendLine` writes `Environment.NewLine`, which is "\r\n" on Windows; the model fixes the line break to "\n", so `ToString`'s text is the one produced on Unix-like systems.
- XlsxReaders.OpenNumbered: opens the sheet chosen by the corrected lookup `SheetFromEnd` (see Findings); the code as written is `SheetByNumber`.
- The parser's defects are modelled as written and shown by lemmas, with no corrected parser: `x + 2 * 3 * 4 - 5` loses an operand and evaluates to `x + 1` (ChainLosesOperand); `((x+1))` links `+` to itself so each evaluation adds 3 and rendering never ends (NestedSelfLoop, NestedRenderOverflows); `(x)`, `x`, `x(` and `1 2 3 4 5` fail with null-reference, invalid-cast, not-supported and index errors; a failed parse leaves the operand flag set for the next call (FailedParseLeaksIntoNext).

## Findings

| source | as written | input that shows it | evidently intended | confidence | as-written member | corrected member |
|---|---|---|---|---|---|---|
| Source/Packages/Files/Teta.Packages.Files.Bll/Implementation/DataParser/XlsxByRowReader.cs:105-111 | for a negative `worksheetNum` the constructor reads the workbook's sheet count through `_epPackage` before that field is assigned, so it throws a null reference | any negative sheet number, e.g. -1 | a negative number counts from the end, -1 being the last sheet | not executed | XlsxReaders.NegativeNumberNeverOpens | XlsxReaders.FromEndOpensLast |
