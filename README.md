# A Pascal-subset compiler and interpreter, modelled in Dafny

The system reads a small Pascal dialect and passes it through four stages:

- A hand-written scanner turns characters into `(type, value)` tokens.
- A recursive-descent parser builds an abstract syntax tree from the tokens.
- Every node can be run by an interpreter: `eval` for expressions and
  `exec` for statements, over a chain of environments.
- Every node can also be compiled to a MIPS assembly listing by an emitter.
  The emitter tracks labels, pushes and pops, and the current procedure.

The model follows that structure module by module. Each stateful Java class
becomes a Dafny `class` whose methods update fields in place and are proved
equal to a pure specification function. The properties are then proved as
lemmas about those functions.

| Java | specification (functions, lemmas) | in-place model (class, methods) |
|---|---|---|
| `Token` | `Tokens` (token.dfy) | — (immutable) |
| `Scanner` | `Lexer` (scanner.dfy), `LexerProperties` | `ScannerObject.Scanner` |
| `Parser` | `Parsing` (parser.dfy), `ParserProperties`, `StatementPrinting`, `ProgramPrinting` | `ParserObject.Parser` |
| AST classes | `Ast` (ast.dfy) | — |
| `eval` / `exec` | `Semantics`, `SemanticsProperties` | `Interpreter` (methods over `Environment` objects) |
| `Environment` | `Environments` | `EnvironmentObject.Environment` |
| `Emitter` | `Emitters` | `EmitterObject.Emitter` |
| `compile` | `Codegen`, `CodegenProperties` | `Compiler` (methods over an `Emitter` object) |

How the Java program's effects appear in the model:

- An exception becomes an `Err` of the `Error` datatype, which has one kind
  per Java exception class. Three more kinds mark what the model adds:
  `NoCompile`, `Diverges` and `FuelExhausted`.
- `Break`, `Continue` and `Exit` become the signals of an `Outcome`.
- Output printed by `Writeln` is a `seq<int>`: one element per printed line.
- The emitter's output file is its listing, a `seq<string>` of lines. `Text`
  is that listing as the file would hold it.
- The scanner reads a `seq<char>`.
- Interpretation carries a `fuel` bound on loop iterations and call nesting.
  Running out yields `Err(FuelExhausted)`. Every other result is the one
  the Java code reaches.
- Java's `/` and `%` truncate toward zero; they are written out as
  `Base.JavaDiv` and `Base.JavaRem`. `String.hashCode` wraps to 32 bits
  explicitly (`Tokens.Wrap`).

### Where the code and its documentation differ

Each bullet says whether the model follows the code, the documentation, or
the environment extension described in the first bullet.

- **Extension.** `Environment.java` defines only `setVariable`,
  `getVariable`, `modifyLoopDepth` and `getLoopDepth`. The AST classes also
  call `setParent`, `getProcedure`, `setProcedure` and `declareVariable`.
  These are a separate extension in `Environments`:
  - a parent link;
  - a name declared with no value (the Java `null`);
  - a lookup that tries this scope, then its parents (`Environments.Lookup`);
  - a procedure table kept at the root of the chain.

  `setVariable` and `getVariable` stay local to one scope, exactly as
  written.
- **Extension, not the code.** `Variable.eval` (`Variable.java:47`) calls
  the local `getVariable`. As written, a name bound only in a caller's scope
  unboxes a `null` and throws `NullPointerException`. The model's
  `Semantics.VariableValue` (and so `Interpreter.Eval`) reads through the
  extension's chain lookup instead, and returns the outer value. Only a
  name unbound on the whole chain, or bound to the null sentinel, gives
  `Err(NullPointer)`.
- **Extension for the check, code for the write.** `Assignment.exec`
  (`Assignment.java:63`) tests `getVariable(name) == null`. The model makes
  that test through the chain lookup, to match `Variable.eval` above. The
  write is `setVariable`, as in the code. So inside a procedure, assigning
  to an outer name creates a local binding.
- **Code.** `ProcedureCall.eval` returns the value of the procedure's own
  name, which is 0 if the body never assigns it (`ProcedureCall.java:47,
  66`).
- **Documentation, not the code.** An `Exit` that escapes a procedure body
  ends the call normally. That is what `Exit.java:19-21` documents.
  `ProcedureCall.java:49-65` catches only Break and Continue, so as written
  the Exit would propagate to the caller.
- **Code.** The parser builds `ProcedureDeclaration` with three arguments,
  so locals are empty, and `Program` with two, so there are no global
  declarations. It builds `Break()` and `Continue()` with no loop. The loop
  they belong to (its kind and id) is a parameter of `compile`. The check
  that the constructors make is `Ast.LoopKindOf`.
- **Code.** A procedure call used as a statement (built at
  `Parser.java:267`) is `Stmt.Call`. It runs the call and discards the
  value.
- **Code.** `While.java` and `ProcedureCall.java` have no `compile`.
  Compiling them gives `Err(NoCompile)`. A statement-level call gives the
  same.
- **Documentation, not the code.** As written, the `break` at
  `While.java:60-61` leaves only the `switch`, so a `Break` signal acts like
  `Continue`. The documentation of `Break.java` says a Break ends the loop.
  `Interpreter.ExecWhile` models the documented behaviour. The as-written
  loop is `Semantics.ExecWhile` with `breakEnds` false; see "## Findings".

Other behaviour the code has as written, and which the model keeps:

- The scanner reads a `.` as the end of input.
- A word or number directly followed by a `.` repeats its last character:
  `END.` followed by a newline scans as `ENDD`. At the true end of input
  that loop never ends; the model gives `Err(Diverges)`.
- A `/` that does not start a comment swallows the next character.
- A closed block comment leaves its final `/` current, which then scans as
  an operator.
- `**/` does not close a block comment.
- A `Scanner(String)` never sets `lineno` or `colno`, so its counts start
  from 0.
- `parseTerm` and `parseExpression` never reassign `left`, so `1 - 2 - 3`
  parses as `1 - 3`.
- `For.compile` leaves `extraStack` two words higher than on entry. Inside
  a procedure, the offsets of later statements are then 8 bytes too large.
  `CodegenProperties.ForLeavesTwoWordsCounted` states this behaviour.
- Different tokens can have the same `hashCode`.

## Model

| member | source | states |
|---|---|---|
| Base.JavaDivRem | src/ast/BinOp.java:53-56 | Java's `/` and `%`: quotient times divisor plus remainder gives the dividend; the remainder is smaller than the divisor and has the dividend's sign |
| Base.JavaDivTruncates | src/ast/BinOp.java:53-56 | the Java quotient rounds toward zero: its magnitude times the divisor's never exceeds the dividend's |
| Base.JavaDivNegate | src/ast/BinOp.java:53-56 | negating the dividend negates both quotient and remainder (unlike Euclidean division) |
| Base.NatToStringRoundTrip | src/ast/Number.java:49-52 | the decimal text written for a number is non-empty, all digits, and denotes the number |
| Base.NatToStringInjective | src/emitter/Emitter.java:122-135 | two numbers have the same decimal text exactly when they are equal |
| Base.NumberedLabelInjective | src/ast/If.java:63-69 | a label made of a fixed prefix and a number identifies the number, in both directions |
| Base.ParseIntRoundTrip | src/parser/Parser.java:87-91 | Integer.parseInt reads back every int that Integer.toString writes |
| Ast.LoopKindOf | src/ast/Break.java:17-25 | the constructor check of Break and Continue succeeds exactly for a While or a For, gives the kind of loop, and otherwise throws IllegalArgumentException |
| Ast.SplitNames | src/ast/VariableDeclaration.java:57-66 | one single-name declaration per name, in the same order; multipleNames holds exactly when more than one results |
| Ast.DecrementExp | src/ast/Assignment.java:43-48 | the heading with its expression replaced by expression - 1; DecrementYieldsOneLess proves it evaluates to one less with the same output |
| Tokens.ToString | src/scanner/Token.java:51-54 | the type's name, ": " and the value; ToStringInjective proves two tokens never print alike |
| Tokens.HashCode | src/scanner/Token.java:82-85 | String.hashCode of the type's name followed by the value; equal tokens hash alike (EqualTokensEqualHashes) but different ones can too (HashCodesCollide) |
| Tokens.Equals | src/scanner/Token.java:65-73 | equality is sameness of type and value; a non-Token argument throws IllegalArgumentException |
| Tokens.EqualsReflexive | src/scanner/Token.java:65-73 | a token equals itself |
| Tokens.EqualsSymmetric | src/scanner/Token.java:65-73 | equals gives the same answer with the arguments swapped |
| Tokens.Wrap | src/scanner/Token.java:82-85 | 32-bit wrap-around: the result is an int and differs from the input by a multiple of 2^32 |
| Tokens.StringHash | src/scanner/Token.java:82-85 | String.hashCode as computed in 32-bit arithmetic stays in int range |
| Tokens.EqualTokensEqualHashes | src/scanner/Token.java:82-85 | equal tokens have equal hash codes |
| Tokens.TypeNamesPrefixFree | src/scanner/Token.java:82-85 | no token type's name is a proper prefix of another's, so the hashed string splits one way only |
| Tokens.HashKeyInjective | src/scanner/Token.java:82-85 | the string that hashCode hashes determines the token |
| Tokens.HashCodesCollide | src/scanner/Token.java:82-85 | two different tokens (`Aa` and `BB`) have the same hash code |
| Tokens.WrapStep | src/scanner/Token.java:82-85 | wrapping an intermediate hash does not change the next wrapped step |
| Tokens.CollidingSuffixes | src/scanner/Token.java:82-85 | any common prefix keeps the `Aa`/`BB` collision |
| Tokens.ToStringInjective | src/scanner/Token.java:51-54 | different tokens print differently with toString |
| Environments.GetVariable | src/environments/Environment.java:74-77 | getVariable succeeds exactly when the name is bound to a value in this scope, returning it; otherwise the unboxing throws NullPointerException |
| Environments.EmptyEnvIsEmpty | src/environments/Environment.java:19-23 | a new environment has no variables, no procedures and loop depth 0 |
| Environments.SetThenGet | src/environments/Environment.java:33-36 | after setVariable, getVariable of that name returns the value |
| Environments.SetVariableFrame | src/environments/Environment.java:33-36 | setVariable changes no other name's binding, nor the loop depth, parent or procedures |
| Environments.LoopDepthRoundTrip | src/environments/Environment.java:49-52 | modifyLoopDepth adds 1 for true and subtracts 1 for false; a pair in either order restores the environment |
| Environments.Root | src/ast/ProcedureCall.java:45-48 | the end of the parent chain has no parent |
| Environments.LookupShadows | src/ast/ProcedureCall.java:46-48 | a binding in the nearest scope hides the parent's |
| Environments.LookupFallsBack | src/ast/ProcedureCall.java:46-48 | a name missing from a scope is looked up in its parent |
| Environments.DeclareThenLookup | src/ast/VariableDeclaration.java:76-82 | a declared but unassigned name reads as null, and getVariable of it throws |
| Environments.SetThenGetProcedure | src/ast/ProcedureDeclaration.java:46-49 | a registered procedure is found under its id; other ids, all variables and the loop depth are unchanged |
| Environments.ChildSeesProcedures | src/ast/ProcedureCall.java:45-48 | a child scope sees every procedure of its parent's chain |
| Environments.SetVariable | src/environments/Environment.java:33-36 | a put into this scope only; SetThenGet and SetVariableFrame prove it reads back and touches no other name, the depth, the parent or the procedures |
| Environments.ModifyLoopDepth | src/environments/Environment.java:49-52 | the depth one up on entry, one down on exit; LoopDepthRoundTrip proves the two cancel |
| Environments.GetLoopDepth | src/environments/Environment.java:61-64 | the depth of this scope only, not the parent's; a fresh scope has 0 (EmptyEnvIsEmpty) |
| Environments.SetParent | src/ast/ProcedureCall.java:48 | links a parent scope; LookupFallsBack and ChildSeesProcedures prove what a child then sees |
| Environments.DeclareVariable | src/ast/VariableDeclaration.java:80 | binds the name in this scope to the null sentinel; DeclareThenLookup proves a get then throws NullPointer |
| Environments.Lookup | src/ast/Variable.java:45-48 | this scope, then the parent chain; LookupShadows and LookupFallsBack prove the order |
| Environments.GetProcedure | src/ast/ProcedureCall.java:45 | the procedure table at the root of the chain; SetThenGetProcedure proves a registration is found from any child |
| Environments.SetProcedure | src/ast/ProcedureDeclaration.java:48 | writes the table at the root of the chain; SetThenGetProcedure proves the id then resolves to it while other ids, the variable bindings and the depth are untouched |
| EnvironmentObject.Environment.constructor | src/environments/Environment.java:19-23 | the new object is the empty environment |
| EnvironmentObject.Environment.SetVariable | src/environments/Environment.java:33-36 | the object's map is updated in place, as Environments.SetVariable |
| EnvironmentObject.Environment.GetVariable | src/environments/Environment.java:74-77 | returns what Environments.GetVariable says, changing nothing |
| EnvironmentObject.Environment.ModifyLoopDepth | src/environments/Environment.java:49-52 | the depth field moves by one in place |
| EnvironmentObject.Environment.GetLoopDepth | src/environments/Environment.java:61-64 | returns the depth, changing nothing |
| EnvironmentObject.Environment.SetParent | src/ast/ProcedureCall.java:48 | links the caller's scope as parent |
| EnvironmentObject.Environment.DeclareVariable | src/ast/VariableDeclaration.java:80 | binds the name to null in this scope |
| EnvironmentObject.Environment.Lookup | src/ast/Variable.java:45-48 | the chain lookup of the object |
| EnvironmentObject.Environment.GetProcedure | src/ast/ProcedureCall.java:45 | the procedure table at the root of the chain |
| EnvironmentObject.Environment.SetProcedure | src/ast/ProcedureDeclaration.java:48 | writes the table at the root of the chain |
| EnvironmentObject.LookupIn | src/ast/Variable.java:45-48 | the loop up the parent chain finds what the recursive lookup finds |
| Semantics.VariableValue | src/ast/Variable.java:45-48 | the value found on the chain, NullPointer for an unbound or declared-only name (see the chain-lookup bullet above) |
| Semantics.Eval | src/ast/Expression.java:16-22 | value and printed output of each expression node over an environment value; Interpreter.Eval is proved equal to it, and ConditionIsBoolean, DivModAgree and DecrementYieldsOneLess are about it |
| Semantics.EvalOperands | src/ast/BinOp.java:43-60 | left operand then right, the first exception ending it, outputs in order |
| Semantics.CallProcedure | src/ast/ProcedureCall.java:43-67 | a new frame with the id bound to 0 and the caller as parent, arguments bound, the body run, the id's value returned; DefaultReturnIsZero and BreakDoesNotCrossCall are about it |
| Semantics.BindArguments | src/ast/ProcedureCall.java:51-55 | the argument loop, with IndexOutOfBounds for more arguments than parameters; BindKeepsOthers, BindKeepsValues and BindNeedsParameters are about it |
| Semantics.Exec | src/ast/Statement.java:17-23 | outcome, new environment and output of each statement node; ExecKeeps proves the parent, procedures and depth it keeps and the names it leaves alone |
| Semantics.ExecAssignment | src/ast/Assignment.java:61-68 | an undefined target is IllegalArgument, otherwise the value is stored in this scope |
| Semantics.ExecBlock | src/ast/Block.java:35-48 | statements in order until the first signal or exception; ExecBlockAppend and BlockBasics are about it |
| Semantics.ExecWhile | src/ast/While.java:41-68 | the while loop, with Break ending it (breakEnds) or, as written, going on; WhileBreakEndsLoop, AsWrittenBreakNeverEnds and ExecWhileKeeps are about it |
| Semantics.ExecForStatement | src/ast/For.java:45-79 | heading, counter read back, bound evaluated, then the counted loop at a raised depth; ForEndsPastBound and ForStmtKeeps are about it |
| Semantics.ExecFor | src/ast/For.java:57-76 | the counted loop over a local counter; ExecForRunsCounts proves it runs the body once per value count..bound in order |
| Semantics.EvalNull | src/ast/For.java:106 | eval with a null environment: literals and operators work, a variable or call throws NullPointer; EvalNullAgrees proves that, when it succeeds, Eval with enough fuel gives the same value and no output in any environment |
| Semantics.ReturnValue | src/ast/ProcedureCall.java:56-66 | a Break or Continue escaping a body becomes a RuntimeException, an error propagates, and otherwise the call returns its own name's value |
| Semantics.ExecBreak | src/ast/Break.java:38-44 | outside every loop Break throws IllegalArgumentException, inside one it signals Break |
| Semantics.ExecContinue | src/ast/Continue.java:38-44 | outside every loop Continue throws IllegalArgumentException, inside one it signals Continue |
| Semantics.ExecExit | src/ast/Exit.java:28-35 | a null environment throws RuntimeException, any other signals Exit |
| Semantics.ExecProgram | src/ast/Program.java:43-60 | a program ends normally or with an error, never with a signal: Exit is absorbed, Break and Continue become errors |
| SemanticsProperties.ConditionIsBoolean | src/ast/Condition.java:44-63 | a condition yields 0 or 1, and 1 exactly when the relation holds of its operands; an unknown operator throws IllegalArgumentException |
| SemanticsProperties.DivModAgree | src/ast/BinOp.java:43-60 | `/` and `mod` of the same operands both throw on a zero divisor, and otherwise obey Java's division law |
| SemanticsProperties.DecrementYieldsOneLess | src/ast/Assignment.java:43-48 | the expression rewritten by decrementExp prints the same and yields one less, or throws the same |
| SemanticsProperties.EvalNullAgrees | src/ast/For.java:106 | an expression that can be evaluated with a null environment yields the same in every environment, printing nothing |
| SemanticsProperties.ExecKeeps | src/ast/Block.java:35-48 | executing a statement keeps the parent link, the procedures and the loop depth; names it does not assign keep their binding; a Break signal comes only from a Break outside the statement's own loops |
| SemanticsProperties.ForStmtKeeps | src/ast/For.java:45-79 | the same for a For, which never lets a Break signal out |
| SemanticsProperties.ExecBlockKeeps | src/ast/Block.java:35-48 | the same for a block; a Break signal comes from one of its statements |
| SemanticsProperties.ExecWhileKeeps | src/ast/While.java:41-68 | the same for the loop of While, which lets no Break or Continue out |
| SemanticsProperties.ExecForKeeps | src/ast/For.java:57-76 | the same for the loop of For, apart from the loop variable |
| SemanticsProperties.ExecBlockAppend | src/ast/Block.java:35-48 | running `a + b` runs `a`, then runs `b` only if `a` ended normally; outputs concatenate |
| SemanticsProperties.BlockBasics | src/ast/Block.java:35-48 | an empty block changes nothing, and a block of one statement is that statement |
| SemanticsProperties.IfIsIfElseWithEmptyElse | src/ast/If.java:37-50 | If behaves as IfElse with an empty else branch |
| SemanticsProperties.ForCountsAre | src/ast/For.java:57-62 | the counter runs through count, count+1, ..., bound: max(0, bound−count+1) values |
| SemanticsProperties.ExecForRunsCounts | src/ast/For.java:57-76 | the For loop equals a reference "run the body once per counter value" definition, whatever the body assigns to the loop variable |
| SemanticsProperties.ForEndsPastBound | src/ast/For.java:62-70 | a For loop ending normally leaves the variable at bound+1 if it ran, and changes nothing if it did not |
| SemanticsProperties.WhileExitKeepsDepth | src/ast/While.java:62-63 | Exit leaves a While without restoring the loop depth |
| SemanticsProperties.WhileBreakEndsLoop | src/ast/While.java:41-68 | a Break in the body ends the loop normally and restores the depth |
| SemanticsProperties.AlwaysTrueBreakEnds | src/ast/While.java:41-68 | `while 1 = 1 do break` terminates at once, changing nothing |
| SemanticsProperties.AsWrittenBreakNeverEnds | src/ast/While.java:60-61 | as written, the same loop never ends: it exhausts any fuel |
| SemanticsProperties.BindKeepsOthers | src/ast/ProcedureCall.java:51-55 | binding arguments changes only parameter names, never the parent or depth |
| SemanticsProperties.BindKeepsValues | src/ast/ProcedureCall.java:51-55 | a name holding a value keeps holding one while arguments are bound |
| SemanticsProperties.BindNeedsParameters | src/ast/ProcedureCall.java:51-55 | binding succeeds only with no more arguments than parameters, and then every bound parameter holds a value |
| SemanticsProperties.DefaultReturnIsZero | src/ast/ProcedureCall.java:46-47 | a procedure that never assigns its own name returns 0 |
| SemanticsProperties.BreakDoesNotCrossCall | src/ast/ProcedureCall.java:56-65 | the body starts at loop depth 0, so a Break at its top throws IllegalArgumentException even when the call is inside a loop |
| SemanticsProperties.RegisterAllFinds | src/ast/Program.java:45-52 | after registration each id finds its last declaration; variables and depth are unchanged |
| SemanticsProperties.DeclareAllDeclares | src/ast/VariableDeclaration.java:76-82 | exactly the declared names become null in the current scope |
| Interpreter.Eval | src/ast/Expression.java:16-22 | evaluating an expression against an Environment object changes nothing and gives Semantics.Eval |
| Interpreter.EvalOperands | src/ast/BinOp.java:43-60 | the left operand, then the right, as Semantics.EvalOperands |
| Interpreter.CallProcedure | src/ast/ProcedureCall.java:43-67 | a new Environment object, arguments bound, body run; the result is Semantics.CallProcedure |
| Interpreter.BindArgumentList | src/ast/ProcedureCall.java:51-55 | the argument loop leaves the new scope as Semantics.BindArguments says |
| Interpreter.Exec | src/ast/Statement.java:17-23 | executing changes only the given Environment, to the state Semantics.Exec gives, with its outcome and output |
| Interpreter.ExecAssignment | src/ast/Assignment.java:61-68 | as Semantics.ExecAssignment: an undefined target throws, otherwise the value is stored |
| Interpreter.ExecBlock | src/ast/Block.java:35-48 | the for loop over the statements equals Semantics.ExecBlock |
| Interpreter.ExecWhile | src/ast/While.java:41-68 | the while loop equals Semantics.ExecWhile with Break ending the loop |
| Interpreter.ExecForStatement | src/ast/For.java:45-79 | For.exec equals Semantics.ExecForStatement |
| Interpreter.ExecFor | src/ast/For.java:57-76 | the loop with its local counter equals Semantics.ExecFor |
| Interpreter.ExecVariableDeclaration | src/ast/VariableDeclaration.java:76-82 | every name declared null, in order |
| Interpreter.ExecProcedureDeclaration | src/ast/ProcedureDeclaration.java:46-49 | registers the declaration under its id |
| Interpreter.ExecProgram | src/ast/Program.java:43-60 | registration loop, then the main statement, as Semantics.ExecProgram |
| Emitters.Emit | src/emitter/Emitter.java:55-61 | the line at the end of the listing; EmitText proves the file text gains exactly the formatted line |
| Emitters.Prepend | src/emitter/Emitter.java:69-75 | the line at the front of the listing; PrependText proves the file text starts with it |
| Emitters.EmitPush | src/emitter/Emitter.java:99-104 | the two push lines and one more word counted; PushThenPop proves push then pop restores the count |
| Emitters.EmitPop | src/emitter/Emitter.java:111-116 | the two pop lines and one word less counted |
| Emitters.NextLoopID | src/emitter/Emitter.java:122-125 | returns the loop counter and moves it on; IdsIncrease proves successive ids differ and grow |
| Emitters.NextIfID | src/emitter/Emitter.java:131-135 | returns the if counter and moves it on; IdsIncrease proves the same for it |
| Emitters.IsLocal | src/emitter/Emitter.java:167-193 | whether a name lives in the current procedure's frame; IsLocalMeaning proves both directions and when it throws |
| Emitters.GetOffset | src/emitter/Emitter.java:208-249 | the byte offset of a local name from $sp; GetOffsetErrors, GetOffsetValues and OffsetAddressesSlot are about it |
| Emitters.FormatLineShape | src/emitter/Emitter.java:55-61 | a line is written with one trailing newline, indented by a tab unless it ends in `:` or starts with `.` |
| Emitters.NewlineCountAppend | src/emitter/Emitter.java:55-61 | newlines of a concatenation add up |
| Emitters.TextLineCount | src/emitter/Emitter.java:55-61 | the text has one line per listing entry |
| Emitters.EmitText | src/emitter/Emitter.java:55-61 | emit appends exactly one formatted line and changes nothing else |
| Emitters.PrependText | src/emitter/Emitter.java:69-75 | prepend puts one formatted line before all the text, which is otherwise unchanged |
| Emitters.PushThenPop | src/emitter/Emitter.java:99-116 | push adds and pop takes one from extraStack, each emitting its two stack lines; a push then a pop restores the count |
| Emitters.IdsIncrease | src/emitter/Emitter.java:122-135 | each id counter returns its value and moves on, so successive ids strictly increase; the other counter and the rest are unchanged |
| Emitters.FindLocal | src/emitter/Emitter.java:208-249 | finds the first local declaration whose first name matches, reports none when no declaration matches, and throws on a declaration with no names |
| Emitters.FindParameter | src/emitter/Emitter.java:167-193 | finds the first parameter with the name, or reports that none has it |
| Emitters.IsLocalMeaning | src/emitter/Emitter.java:167-193 | false with no context; otherwise true exactly for the procedure's id, a local's first name or a parameter; it throws only on a nameless local |
| Emitters.GetOffsetErrors | src/emitter/Emitter.java:208-249 | IllegalStateException with no context, IllegalArgumentException for a name that is not local |
| Emitters.GetOffsetValues | src/emitter/Emitter.java:208-249 | local k of n: 4·extra + 4(n−1−k); the id: 4·extra + 4n; parameter i of p: 4·extra + 4n + 4 + 4(p−1−i); locals shadow the id and the parameters |
| Emitters.DownAt | src/ast/ProcedureDeclaration.java:105-115 | the slots pushed for n values, from the top down |
| Emitters.OffsetAddressesSlot | src/emitter/Emitter.java:208-249 | every offset is a multiple of 4 and addresses the frame slot the prologue pushed for that name |
| EmitterObject.Emitter.constructor | src/emitter/Emitter.java:33-47 | empty listing, both counters at 1, no pushes, no context |
| EmitterObject.Emitter.Emit | src/emitter/Emitter.java:55-61 | the listing gets the line at its end, in place |
| EmitterObject.Emitter.Prepend | src/emitter/Emitter.java:69-75 | the listing gets the line at its front, in place |
| EmitterObject.Emitter.IncrementExtraStack | src/emitter/Emitter.java:258-268 | extraStack moves by one, down for a pop |
| EmitterObject.Emitter.EmitPush | src/emitter/Emitter.java:99-104 | as Emitters.EmitPush |
| EmitterObject.Emitter.EmitPop | src/emitter/Emitter.java:111-116 | as Emitters.EmitPop |
| EmitterObject.Emitter.NextLoopID | src/emitter/Emitter.java:122-125 | returns the counter and increments it |
| EmitterObject.Emitter.NextIfID | src/emitter/Emitter.java:131-135 | returns the counter and increments it |
| EmitterObject.Emitter.SetProcedureContext | src/emitter/Emitter.java:143-147 | sets the context and resets extraStack to 0 |
| EmitterObject.Emitter.ClearProcedureContext | src/emitter/Emitter.java:154-157 | clears only the context |
| EmitterObject.Emitter.IsLocal | src/emitter/Emitter.java:167-193 | the two loops give Emitters.IsLocal |
| EmitterObject.Emitter.GetOffset | src/emitter/Emitter.java:208-249 | the loops with the `excess` accumulator give Emitters.GetOffset |
| Codegen.CompileExpr | src/ast/BinOp.java:73-102 | the code of an expression, which leaves its value in $v0; CompileExprKeeps proves it keeps the stack count in step, NumberImmediateReadsBack and VariableLoadsItsSlot what it loads |
| Codegen.CompileStmt | src/ast/Statement.java:26-32 | the code of each statement node, NoCompile for While and calls; CompileStmtKeeps proves every statement keeps the stack count in step |
| Codegen.CompileIf | src/ast/If.java:63-69 | a fresh if id, the condition branching to endif, the body, the label; IfLabels and IfKeeps are about it |
| Codegen.CompileIfElse | src/ast/IfElse.java:78-88 | two fresh if ids, the condition branching to the else label, then, jump, else, end label; IfElseLabels, IfElsePieces and IfElseKeeps are about it |
| Codegen.CompileFor | src/ast/For.java:95-119 | a fresh loop id, then entry, test, body and close; ForLabels, ForPieces and CompileForKeeps are about it, and ForLeavesTwoWordsCounted states the two extra words |
| Codegen.ForEntry | src/ast/For.java:100-107 | the heading compiled with its start value one less, the start and the compile-time bound pushed; ForEntryKeeps is about it |
| Codegen.ForTest | src/ast/For.java:108-115 | the loop label, both popped, the counter incremented and stored, the exit branch, both pushed again; ForTestStartsWithLabel and ForTestKeeps are about it |
| Codegen.CompileBlock | src/ast/Block.java:60-66 | the statements' code in order; CompileBlockAppend and CompileBlockKeeps are about it |
| Codegen.CompileProcedure | src/ast/ProcedureDeclaration.java:103-125 | prologue, body and epilogue; PrologueFrame, EpilogueFrame and ProcedureBalanced are about it |
| Codegen.CompileProgram | src/ast/Program.java:76-113 | the whole listing of a program; ProgramLayout proves its sections and their order |
| Codegen.StringArgument | src/ast/Condition.java:81-84 | succeeds exactly for one String argument, giving it, and otherwise throws IllegalArgumentException |
| CodegenProperties.EmitAllAppends | src/ast/Writeln.java:50-59 | emitting several lines appends them in order |
| CodegenProperties.EmitKeeps | src/emitter/Emitter.java:55-61 | a line that is neither push nor pop leaves the balance between extraStack and the listing |
| CodegenProperties.EmitAllKeeps | src/emitter/Emitter.java:55-61 | the same for several lines |
| CodegenProperties.PushPopKeep | src/emitter/Emitter.java:99-116 | push and pop move extraStack exactly with the listing's own push/pop balance |
| CodegenProperties.PopTimesKeeps | src/ast/Exit.java:57-62 | k pops lower extraStack by k and keep the balance |
| CodegenProperties.CompileExprKeeps | src/ast/BinOp.java:73-102 | an expression's code pops as often as it pushes and changes nothing but the listing, which grows |
| CodegenProperties.VariableKeeps | src/ast/Variable.java:62-73 | a variable load changes nothing but the listing |
| CodegenProperties.CompileOperandsKeep | src/ast/BinOp.java:75-78 | the operand code (left, push, right, pop) is balanced |
| CodegenProperties.ArithLinesNeutral | src/ast/BinOp.java:81-98 | the arithmetic instructions push and pop nothing |
| CodegenProperties.ConditionBranchesWhenFalse | src/ast/Condition.java:79-113 | the last line is the negated branch to the target, taken exactly when eval would give 0 |
| CodegenProperties.ConditionNeedsTarget | src/ast/Condition.java:81-84 | a condition without exactly one String argument throws IllegalArgumentException; other expressions ignore the arguments |
| CodegenProperties.NumberImmediateReadsBack | src/ast/Number.java:49-52 | one line `li $v0, n` whose immediate reads back as n |
| CodegenProperties.VariableLoadsItsSlot | src/ast/Variable.java:62-73 | a local loads from the stack slot of that name; any other name loads from its data word `var<name>` |
| CodegenProperties.ExprKeptIsStmtKept | src/ast/Writeln.java:50-59 | what expression code keeps, statement code keeps too |
| CodegenProperties.NeutralEmitStmtKept | src/emitter/Emitter.java:55-61 | a neutral line keeps the statement invariant |
| CodegenProperties.PushPopKept | src/emitter/Emitter.java:99-116 | push and pop keep the statement invariant |
| CodegenProperties.CompileStmtKeeps | src/ast/Block.java:60-66 | every statement's code keeps the context and the push balance, only raises the counters, and only appends |
| CodegenProperties.WritelnTailNeutral | src/ast/Writeln.java:50-59 | the print sequence pushes and pops nothing |
| CodegenProperties.AssignmentKeeps | src/ast/Assignment.java:81-85 | an assignment's code keeps both invariants |
| CodegenProperties.GuardedKeeps | src/ast/If.java:63-69 | a condition and the statement after it keep the invariant |
| CodegenProperties.IfKeeps | src/ast/If.java:63-69 | If's code keeps the invariant |
| CodegenProperties.CompileElseKeeps | src/ast/IfElse.java:78-88 | the else part keeps the invariant |
| CodegenProperties.IfElseKeeps | src/ast/IfElse.java:78-88 | IfElse's code keeps the invariant |
| CodegenProperties.ForEntryKeeps | src/ast/For.java:100-107 | the entry code of a For leaves two more words pushed and the counters unchanged |
| CodegenProperties.ForTestKeeps | src/ast/For.java:108-115 | the loop test pops two words and pushes them again |
| CodegenProperties.ForHeaderKeeps | src/ast/For.java:97-115 | before the body, one loop id is drawn and two words are pushed |
| CodegenProperties.CompileForKeeps | src/ast/For.java:95-119 | For's code keeps the invariant |
| CodegenProperties.ForCloseKeeps | src/ast/For.java:117-118 | the jump back and end label keep the invariant |
| CodegenProperties.CompileBlockKeeps | src/ast/Block.java:60-66 | a block's code keeps the invariant |
| CodegenProperties.CompileExitKeeps | src/ast/Exit.java:49-64 | outside a procedure one `j program_exit`; inside one it lowers extraStack by locals+2 and ends in `jr $ra` |
| CodegenProperties.LabelsDistinct | src/ast/IfElse.java:80-81 | numbered labels with one prefix are equal exactly for equal numbers |
| CodegenProperties.IfLabels | src/ast/If.java:63-69 | If draws an id and ends with `endif<n>:` |
| CodegenProperties.ElseLabels | src/ast/IfElse.java:84-87 | the else label follows the jump, and the end label comes last |
| CodegenProperties.IfElseLabels | src/ast/IfElse.java:78-88 | IfElse draws two ids, ends with `endif<n>:` and holds `elseif<n+1>:` |
| CodegenProperties.IfElsePieces | src/ast/IfElse.java:78-88 | the states IfElse passes through: ids drawn, condition to the else label, then branch, rest |
| CodegenProperties.ForLabels | src/ast/For.java:95-119 | For draws a loop id, holds `for<n>:` and ends with `term_for<n>:` |
| CodegenProperties.ForPieces | src/ast/For.java:95-119 | the states For passes through: entry, test, body, close |
| CodegenProperties.ForTestStartsWithLabel | src/ast/For.java:108 | the test starts at the loop's top label |
| CodegenProperties.SuccessiveIfsDistinct | src/ast/If.java:63-69 | two Ifs in a row get different end labels |
| CodegenProperties.StraightKeepsCount | src/ast/Block.java:60-66 | statements built from assignments, writes, Break, Continue, blocks and ifs leave extraStack as found |
| CodegenProperties.StraightIfElseKeepsCount | src/ast/IfElse.java:78-88 | the same for IfElse |
| CodegenProperties.StraightBlockKeepsCount | src/ast/Block.java:60-66 | the same for a block |
| CodegenProperties.ForLeavesTwoWordsCounted | src/ast/For.java:95-119 | as written, a For leaves extraStack two higher than on entry |
| CodegenProperties.PushNullsKeeps | src/ast/ProcedureDeclaration.java:109-113 | k null pushes raise extraStack by k and keep the balance |
| CodegenProperties.PrologueFrame | src/ast/ProcedureDeclaration.java:105-115 | the prologue starts with `proc<id>:`, pushes locals+2 words, sets the context and leaves extraStack at 1 |
| CodegenProperties.EpilogueFrame | src/ast/ProcedureDeclaration.java:117-124 | the epilogue pops locals+2 words, ends in `jr $ra` and clears the context |
| CodegenProperties.ExitIsEpilogue | src/ast/Exit.java:56-63 | Exit in a procedure emits exactly the procedure's epilogue |
| CodegenProperties.ProcedureBalanced | src/ast/ProcedureDeclaration.java:103-125 | the body compiles in the procedure's context; the listing runs from `proc<id>:` to `jr $ra`, and its balance is the body's |
| CodegenProperties.DataWordsAt | src/ast/VariableDeclaration.java:94-100 | the data words come in reverse name order |
| CodegenProperties.DataWordsAppend | src/ast/VariableDeclaration.java:94-100 | the data words of `a + b` are b's then a's |
| CodegenProperties.DeclarationPrepends | src/ast/VariableDeclaration.java:94-100 | a declaration puts its data words in front of the listing |
| CodegenProperties.DeclarationsPrepend | src/ast/Program.java:102-105 | all declarations put all names' data words in front |
| CodegenProperties.MainSection | src/ast/Program.java:84-95 | the listing starts with `.text`, `.globl main`, `main:` and ends the main part with no context |
| CodegenProperties.TextSection | src/ast/Program.java:84-100 | the procedures keep that header and end with no context |
| CodegenProperties.PrependDataHeader | src/ast/Program.java:106-109 | the four prepends put the data header in order |
| CodegenProperties.ProgramLayout | src/ast/Program.java:76-113 | without one String argument compile throws; otherwise the listing is the data header, the variable words, then the text header |
| CodegenProperties.ProceduresGrow | src/ast/Program.java:97-100 | compiling the procedures only appends and leaves no context |
| CodegenProperties.CompileBlockAppend | src/ast/Block.java:60-66 | the code of `a + b` is a's code followed by b's |
| Compiler.CompileExpression | src/ast/BinOp.java:73-102 | the compile methods leave the Emitter object as Codegen.CompileExpr says, or throw what it returns |
| Compiler.CompileArithmetic | src/ast/BinOp.java:81-100 | the operator's instructions, or IllegalArgumentException for an unknown operator |
| Compiler.CompileOperandPair | src/ast/BinOp.java:75-78 | as Codegen.CompileOperands |
| Compiler.CompileVariableLoad | src/ast/Variable.java:62-73 | as Codegen.CompileVariable |
| Compiler.CompileAssign | src/ast/Assignment.java:81-85 | as Codegen.CompileAssignment |
| Compiler.CompileStatement | src/ast/Statement.java:26-32 | as Codegen.CompileStmt |
| Compiler.CompileStatements | src/ast/Block.java:60-66 | as Codegen.CompileBlock |
| Compiler.CompileIfStatement | src/ast/If.java:63-69 | as Codegen.CompileIf |
| Compiler.CompileGuardedStatement | src/ast/If.java:66-67 | as Codegen.CompileGuarded |
| Compiler.CompileIfElseStatement | src/ast/IfElse.java:78-88 | as Codegen.CompileIfElse |
| Compiler.CompileElseBranch | src/ast/IfElse.java:84-87 | as Codegen.CompileElse |
| Compiler.CompileForStatement | src/ast/For.java:95-119 | as Codegen.CompileFor: the heading compiled with its start value one less, the counter and bound pushed, the test, the body and the jump back |
| Compiler.CompileForRest | src/ast/For.java:100-118 | as Codegen.CompileForLoop |
| Compiler.CompileForBodyAndClose | src/ast/For.java:108-118 | as Codegen.CompileForBody |
| Compiler.CompileForEntry | src/ast/For.java:100-107 | as Codegen.ForEntry |
| Compiler.CompileForTest | src/ast/For.java:108-115 | as Codegen.ForTest |
| Compiler.CompileExitStatement | src/ast/Exit.java:49-64 | as Codegen.CompileExit |
| Compiler.PopSlots | src/ast/Exit.java:59-62 | k pops into $v0 |
| Compiler.CompileWriteln | src/ast/Writeln.java:50-59 | as Codegen.CompileWriteln |
| Compiler.CompileDeclaration | src/ast/VariableDeclaration.java:94-100 | as Codegen.CompileVariableDeclaration |
| Compiler.CompileProcedureDeclaration | src/ast/ProcedureDeclaration.java:103-125 | as Codegen.CompileProcedure |
| Compiler.CompilePrologue | src/ast/ProcedureDeclaration.java:105-115 | as Codegen.Prologue |
| Compiler.CompileEpilogue | src/ast/ProcedureDeclaration.java:117-124 | as Codegen.Epilogue |
| Compiler.CompileWholeProgram | src/ast/Program.java:76-113 | a fresh Emitter object ends as Codegen.CompileProgram says |
| Compiler.CompileExitAndErrorBlock | src/ast/Program.java:88-95 | the exit and error routines appended in order |
| Compiler.CompileProcedureList | src/ast/Program.java:97-100 | as Codegen.CompileProcedures |
| Compiler.CompileDeclarationList | src/ast/Program.java:102-105 | as Codegen.CompileVariableDeclarations |
| Lexer.GetNextChar | src/scanner/Scanner.java:60-88 | a read moves on one character; eof is set at the end of input or at a `.`, and then the current character stays |
| Lexer.Eat | src/scanner/Scanner.java:99-109 | reads on exactly when the current character is the expected one, otherwise throws ScanErrorException |
| Lexer.SkipWhiteSpace | src/scanner/Scanner.java:368-373 | stops at eof or at a character that is not white space |
| Lexer.Run | src/scanner/Scanner.java:184-222 | the maximal run of digits or of letters and digits from the current character; it stops at the first character outside the run |
| Lexer.LineComment | src/scanner/Scanner.java:283-304 | a line comment is eaten up to and including the first newline after the `//`, or to the end of the input; no char read before the stop is a newline or a `.` |
| Lexer.BlockComment | src/scanner/Scanner.java:316-343 | the depth-counting loop: it keeps the input and only reads on, and its only error is ScanErrorException; OpenRaisesDepth, CloseLowersDepth, OtherCharKeepsDepth, NestedCommentEatenWhole and UnstarredCommentThrows state what it does with nesting |
| Lexer.EatComment | src/scanner/Scanner.java:283-304 | whether a comment was eaten; eating one always reads on |
| Lexer.Extend | src/scanner/Scanner.java:257-264 | an operator token starting with the operator character |
| Lexer.NextToken | src/scanner/Scanner.java:368-393 | a token of one of the forms the scanner makes; every non-EOF token reads on; EOF comes with eof set |
| Lexer.ScanFrom | src/scanner/Scanner.java:374-393 | the same, from the first character that is not white space |
| Lexer.ScanOperator | src/scanner/Scanner.java:234-270 | the same for operators and comments |
| Lexer.Tokenize | src/scanner/Scanner.java:368-393 | repeated nextToken ends in one EOF token, and no token before it is EOF |
| Lexer.IsLetter | src/scanner/Scanner.java:143-147 | the chars whose lower case is an ASCII letter; see "## Left out" for the locale |
| Lexer.IsOperator | src/scanner/Scanner.java:169-173 | the operator characters; IllegalCharacterThrows proves a char of no class throws |
| Lexer.ScanNumber | src/scanner/Scanner.java:184-194 | a NUMBER token of the digit run; ScansNumber proves it reads exactly the digits |
| Lexer.ScanIdentifier | src/scanner/Scanner.java:205-222 | an IDENTIFIER of the letter-digit run, or the OPERATOR mod; ScansWord proves it reads exactly the word |
| ScannerObject.Scanner.constructor | src/scanner/Scanner.java:30-37 | line 1, column 1, and the first character read |
| ScannerObject.Scanner.FromString | src/scanner/Scanner.java:45-50 | the first character read, with line and column left at 0 |
| ScannerObject.Scanner.GetNextChar | src/scanner/Scanner.java:60-88 | the fields updated in place as Lexer.GetNextChar |
| ScannerObject.Scanner.Eat | src/scanner/Scanner.java:99-109 | as Lexer.Eat |
| ScannerObject.Scanner.ReadRun | src/scanner/Scanner.java:186-192 | the while loop gives Lexer.Run |
| ScannerObject.Scanner.ScanNumber | src/scanner/Scanner.java:184-194 | as Lexer.ScanNumber |
| ScannerObject.Scanner.ScanIdentifier | src/scanner/Scanner.java:205-222 | as Lexer.ScanIdentifier |
| ScannerObject.Scanner.EatComment | src/scanner/Scanner.java:283-304 | as Lexer.EatComment |
| ScannerObject.Scanner.EatBlockComment | src/scanner/Scanner.java:316-343 | the loop with `nestedCount` gives Lexer.BlockComment |
| ScannerObject.Scanner.ScanOperator | src/scanner/Scanner.java:234-270 | as Lexer.ScanOperator |
| ScannerObject.Scanner.NextToken | src/scanner/Scanner.java:368-393 | as Lexer.NextToken |
| LexerProperties.EofIsFinal | src/scanner/Scanner.java:374-377 | once eof is set, only EOF tokens come, whatever input is left |
| LexerProperties.DotEndsInput | src/scanner/Scanner.java:65-68 | a `.` read between tokens ends the input |
| LexerProperties.WhiteSpaceSkipped | src/scanner/Scanner.java:130-134 | white space before a token does not change the token |
| LexerProperties.RunReadsWord | src/scanner/Scanner.java:186-192 | a run reads exactly the word before the first character outside it |
| LexerProperties.ScansWord | src/scanner/Scanner.java:205-222 | a word is one token: OPERATOR `mod`, otherwise IDENTIFIER |
| LexerProperties.ScansNumber | src/scanner/Scanner.java:184-194 | a digit run is one NUMBER token with that text |
| LexerProperties.RunRepeatsCharBeforeDot | src/scanner/Scanner.java:186-192 | a `.` right after a word repeats its last character |
| LexerProperties.RunDivergesAtFinalDot | src/scanner/Scanner.java:186-192 | at a final `.` the run never ends |
| LexerProperties.EndDotScansAsEndd | src/scanner/Scanner.java:205-222 | `END.` and a newline scan as `ENDD` |
| LexerProperties.TwoCharOperators | src/scanner/Scanner.java:257-264 | an extendable operator and `=`, or `<` and `>`, form one token, otherwise one character is taken |
| LexerProperties.SlashSwallowsNextChar | src/scanner/Scanner.java:243-257 | a `/` that starts no comment gives "/" and eats the next character |
| LexerProperties.SlashOperator | src/scanner/Scanner.java:241-253 | a `/` that eatComment rejects is the operator "/" |
| LexerProperties.CommentThenToken | src/scanner/Scanner.java:241-253 | after a comment the next token is scanned |
| LexerProperties.NextTokenAtSlash | src/scanner/Scanner.java:368-393 | at a `/`, nextToken goes straight to scanOperator |
| LexerProperties.BlockCommentEaten | src/scanner/Scanner.java:283-304 | `/*` starts a block comment |
| LexerProperties.ClosedCommentLeavesSlash | src/scanner/Scanner.java:316-343 | closing `*/` leaves the `/` current |
| LexerProperties.EmptyCommentScansAsSlash | src/scanner/Scanner.java:316-343 | the empty comment `/**/` scans as the operator "/" |
| LexerProperties.EmptyCommentEaten | src/scanner/Scanner.java:316-343 | after `/**/` scanning resumes at its final `/` |
| LexerProperties.DoubleStarDoesNotClose | src/scanner/Scanner.java:316-343 | `**/` does not close a comment |
| LexerProperties.OpenRaisesDepth | src/scanner/Scanner.java:319-336 | an inner `/*` raises the depth by one, so the next `*/` does not end the comment |
| LexerProperties.CloseLowersDepth | src/scanner/Scanner.java:319-328 | a `*/` lowers the depth by one |
| LexerProperties.OtherCharKeepsDepth | src/scanner/Scanner.java:319-337 | any char other than `*`, `/` and `.` is read past at the same depth |
| LexerProperties.NestedCommentEatenWhole | src/scanner/Scanner.java:316-343 | `/* /* */ */` is eaten as one comment that ends at the outer `*/`, its `/` current |
| LexerProperties.InnerCommentCloses | src/scanner/Scanner.java:319-337 | an inner `/* */` inside a comment returns to the depth it started at |
| LexerProperties.SpacedCloseLowers | src/scanner/Scanner.java:319-328 | ` */` inside a comment lowers the depth by one and leaves its `/` current |
| LexerProperties.CommentTailCloses | src/scanner/Scanner.java:319-343 | ` */` at depth 1 ends the comment with its `/` current |
| LexerProperties.NestedBodyCloses | src/scanner/Scanner.java:316-343 | after `/*`, the text ` /* */ */` is read to its outer `*/` and the comment ends |
| LexerProperties.UnstarredCommentThrows | src/scanner/Scanner.java:316-343 | a comment with no `*` left to read throws ScanErrorException whatever `/` it holds |
| LexerProperties.UnclosedCommentThrows | src/scanner/Scanner.java:316-343 | with no `/` left the comment throws ScanErrorException |
| LexerProperties.IllegalCharacterThrows | src/scanner/Scanner.java:386-392 | a character that is no letter, digit, operator or white space throws |
| LexerProperties.LinesCounted | src/scanner/Scanner.java:73-81 | lineno counts the newlines read |
| LexerProperties.ColumnsCounted | src/scanner/Scanner.java:73-81 | reads without a newline move the column by one each |
| LexerProperties.StringScannerCountsFromZero | src/scanner/Scanner.java:45-50 | the String constructor reads as the stream one does, with line and column one lower (column the same after a first newline) |
| Parsing.Eat | src/parser/Parser.java:60-78 | moves on exactly when the expected token equals the current one, otherwise IllegalArgumentException |
| Parsing.EatOperator | src/parser/Parser.java:60-78 | an operator eaten moves one token on |
| Parsing.EatIdentifier | src/parser/Parser.java:60-78 | a word eaten moves one token on |
| Parsing.EatSemicolon | src/parser/Parser.java:139-271 | the optional `;` never moves back |
| Parsing.ParseNumber | src/parser/Parser.java:87-91 | a number reads at least one token |
| Parsing.ParseFactor | src/parser/Parser.java:304-348 | a factor reads at least one token |
| Parsing.ParseArguments | src/parser/Parser.java:333-341 | the argument list stays inside the tokens |
| Parsing.ArgumentsRest | src/parser/Parser.java:336-340 | the comma loop only adds arguments after those read |
| Parsing.ParseTerm | src/parser/Parser.java:358-387 | a term reads at least one token |
| Parsing.TermRest | src/parser/Parser.java:360-386 | the loop never moves back |
| Parsing.ParseExpression | src/parser/Parser.java:397-417 | an expression reads at least one token |
| Parsing.ExpressionRest | src/parser/Parser.java:399-416 | the loop never moves back |
| Parsing.ParseCondition | src/parser/Parser.java:280-295 | a condition reads at least one token and builds a Condition |
| Parsing.ParseStatement | src/parser/Parser.java:139-271 | a statement reads at least one token |
| Parsing.ParseWriteln | src/parser/Parser.java:141-152 | WRITELN builds a Writeln |
| Parsing.ParseBlock | src/parser/Parser.java:153-167 | BEGIN builds a Block |
| Parsing.BlockRest | src/parser/Parser.java:156-165 | the loop stops at END and only adds statements after those read |
| Parsing.ParseIf | src/parser/Parser.java:168-184 | IF builds an If or an IfElse |
| Parsing.ParseWhile | src/parser/Parser.java:185-192 | WHILE builds a While |
| Parsing.ParseFor | src/parser/Parser.java:193-206 | FOR builds a For |
| Parsing.ParseKeyword | src/parser/Parser.java:207-233 | CONTINUE, BREAK and EXIT build their node |
| Parsing.ParseIdentifierStatement | src/parser/Parser.java:234-268 | an identifier starts an assignment or a call |
| Parsing.ParametersRest | src/parser/Parser.java:106-118 | the parameter loop only adds names after those read |
| Parsing.ParseProcedure | src/parser/Parser.java:99-123 | a declaration is built with no locals |
| Parsing.Procedures | src/parser/Parser.java:99-123 | the loop stops at a token other than PROCEDURE and keeps the declarations read |
| Parsing.ParseProgram | src/parser/Parser.java:96-126 | a program is built with no global declarations |
| ParserObject.Parser.constructor | src/parser/Parser.java:44-49 | the first token becomes current |
| ParserObject.Parser.Eat | src/parser/Parser.java:60-78 | the cursor advanced in place as Parsing.Eat |
| ParserObject.Parser.EatSemicolon | src/parser/Parser.java:139-271 | as Parsing.EatSemicolon |
| ParserObject.Parser.ParseNumber | src/parser/Parser.java:87-91 | the node and cursor of Parsing.ParseNumber |
| ParserObject.Parser.ParseFactor | src/parser/Parser.java:304-348 | as Parsing.ParseFactor |
| ParserObject.Parser.ParseNameFactor | src/parser/Parser.java:325-346 | the identifier case, as Parsing.ParseFactor |
| ParserObject.Parser.ParseArguments | src/parser/Parser.java:333-341 | as Parsing.ParseArguments |
| ParserObject.Parser.ParseTerm | src/parser/Parser.java:358-387 | the while loop gives Parsing.ParseTerm |
| ParserObject.Parser.ParseExpression | src/parser/Parser.java:397-417 | the while loop gives Parsing.ParseExpression |
| ParserObject.Parser.ParseCondition | src/parser/Parser.java:280-295 | as Parsing.ParseCondition |
| ParserObject.Parser.ParseStatement | src/parser/Parser.java:139-271 | as Parsing.ParseStatement |
| ParserObject.Parser.ParseWriteln | src/parser/Parser.java:141-152 | as Parsing.ParseWriteln |
| ParserObject.Parser.ParseBlock | src/parser/Parser.java:153-167 | the loop gives Parsing.ParseBlock |
| ParserObject.Parser.ParseIf | src/parser/Parser.java:168-184 | as Parsing.ParseIf |
| ParserObject.Parser.ParseWhile | src/parser/Parser.java:185-192 | as Parsing.ParseWhile |
| ParserObject.Parser.ParseFor | src/parser/Parser.java:193-206 | as Parsing.ParseFor |
| ParserObject.Parser.ParseKeyword | src/parser/Parser.java:207-233 | as Parsing.ParseKeyword |
| ParserObject.Parser.ParseIdentifierStatement | src/parser/Parser.java:234-268 | as Parsing.ParseIdentifierStatement |
| ParserObject.Parser.ParseProcedure | src/parser/Parser.java:99-123 | the parameter loop gives Parsing.ParseProcedure |
| ParserObject.Parser.ParseProgram | src/parser/Parser.java:96-126 | the declaration loop gives Parsing.ParseProgram |
| ParserProperties.FactorNumber | src/parser/Parser.java:321-324 | a NUMBER is the literal |
| ParserProperties.FactorVariable | src/parser/Parser.java:325-346 | a name not followed by `(` is a Variable |
| ParserProperties.FactorParenthesised | src/parser/Parser.java:308-314 | `( e )` is e's own node |
| ParserProperties.FactorNegated | src/parser/Parser.java:315-319 | `- f` is `BinOp(Number(-1), f, "*")` |
| ParserProperties.FactorCall | src/parser/Parser.java:329-344 | `id ( args )` is a call with the arguments in order |
| ParserProperties.TermStart | src/parser/Parser.java:358-387 | a term is a factor, then the loop |
| ParserProperties.TermStep | src/parser/Parser.java:360-386 | each `*`, `/`, `mod` builds a new node on the first factor |
| ParserProperties.TermStop | src/parser/Parser.java:360-386 | the loop stops at other tokens with the last node built |
| ParserProperties.ExpressionStart | src/parser/Parser.java:397-417 | an expression is a term, then the loop |
| ParserProperties.ExpressionStep | src/parser/Parser.java:399-416 | each `+`, `-` builds a new node on the first term |
| ParserProperties.ExpressionStop | src/parser/Parser.java:399-416 | the loop stops at other tokens |
| ParserProperties.ArgumentsStart | src/parser/Parser.java:333-341 | the first argument, then the comma loop |
| ParserProperties.ArgumentsStep | src/parser/Parser.java:336-340 | each comma adds the next argument |
| ParserProperties.FactorRoundTrip | src/parser/Parser.java:304-348 | a printed literal, name, call or parenthesised operation reads back as one factor |
| ParserProperties.CallRoundTrip | src/parser/Parser.java:329-344 | a printed call reads back |
| ParserProperties.BinOpRoundTrip | src/parser/Parser.java:304-417 | a printed `( l op r )` reads back, at either precedence level |
| ParserProperties.ParenthesisedOperation | src/parser/Parser.java:308-314 | `( l op r )` is one factor once l and r are |
| ParserProperties.OperationParses | src/parser/Parser.java:358-417 | `l op r` before `)` is one expression |
| ParserProperties.OperandsRoundTrip | src/parser/Parser.java:304-348 | both operands read back as factors |
| ParserProperties.ProductParses | src/parser/Parser.java:358-387 | `l * r` before `)` is one term |
| ParserProperties.SumParses | src/parser/Parser.java:397-417 | `l + r` before `)` is a sum of two terms |
| ParserProperties.ExpressionRoundTrip | src/parser/Parser.java:397-417 | a printed expression reads back |
| ParserProperties.SingleFactor | src/parser/Parser.java:358-417 | a factor before a closing token is a whole expression |
| ParserProperties.StartsExpression | src/parser/Parser.java:333-341 | no printed expression starts with `)` |
| ParserProperties.ArgumentEnds | src/parser/Parser.java:333-341 | after an argument comes a comma exactly when more follow |
| ParserProperties.ArgumentsRoundTrip | src/parser/Parser.java:333-341 | a printed argument list reads back |
| ParserProperties.ArgumentsTailRoundTrip | src/parser/Parser.java:336-340 | the comma loop reads back the rest |
| ParserProperties.ParsesPrinted | src/parser/Parser.java:397-417 | every printable expression reads back, whatever follows |
| ParserProperties.ConditionStep | src/parser/Parser.java:280-295 | expression, any OPERATOR, expression build the Condition |
| ParserProperties.ConditionRoundTrip | src/parser/Parser.java:280-295 | a printed condition reads back |
| ParserProperties.ConditionOperandsRoundTrip | src/parser/Parser.java:280-295 | both sides read back |
| ParserProperties.ExpressionRestKeepsFirst | src/parser/Parser.java:399-416 | every node the loop builds has the first term on its left |
| ParserProperties.TermRestKeepsFirst | src/parser/Parser.java:360-386 | the same for terms |
| ParserProperties.SubtractionChainDropsMiddle | src/parser/Parser.java:399-416 | `1 - 2 - 3` parses as `1 - 3` |
| ParserProperties.DroppedTermChangesValue | src/parser/Parser.java:399-416 | the parsed `1 - 3` is −2 where `(1 − 2) − 3` is −4 |
| ParserProperties.ProductBindsTighter | src/parser/Parser.java:358-417 | `1 + 2 * 3` is 1 + (2 * 3) |
| ParserProperties.ForNeedsAssignment | src/parser/Parser.java:193-206 | a FOR heading that is not an assignment throws IllegalArgumentException |
| StatementPrinting.StatementStart | src/parser/Parser.java:139-271 | a printed statement starts with a word that is not END, ELSE or PROCEDURE |
| StatementPrinting.StatementRoundTrip | src/parser/Parser.java:139-271 | every printable statement reads back, when no ELSE follows an open IF |
| StatementPrinting.ConditionalRoundTrip | src/parser/Parser.java:168-184 | a printed If or IfElse reads back |
| StatementPrinting.LoopRoundTrip | src/parser/Parser.java:185-206 | a printed While or For reads back |
| StatementPrinting.AssignmentRoundTrip | src/parser/Parser.java:238-248 | `id := e` reads back, with or without its `;` |
| StatementPrinting.KeywordRoundTrip | src/parser/Parser.java:207-233 | CONTINUE, BREAK, EXIT and `;` read back |
| StatementPrinting.WritelnRoundTrip | src/parser/Parser.java:141-152 | a printed Writeln reads back |
| StatementPrinting.CallStatementRoundTrip | src/parser/Parser.java:249-267 | a printed call statement reads back |
| StatementPrinting.WhileStep | src/parser/Parser.java:185-192 | WHILE, condition, DO, body build the While |
| StatementPrinting.IfStep | src/parser/Parser.java:168-184 | IF, condition, THEN, body and no ELSE build the If |
| StatementPrinting.IfElseStep | src/parser/Parser.java:168-184 | with ELSE, the IfElse |
| StatementPrinting.ForStep | src/parser/Parser.java:193-206 | FOR, assignment, TO, bound, DO, body build the For |
| StatementPrinting.BlockStep | src/parser/Parser.java:153-167 | BEGIN, statements, END, `;` build the Block |
| StatementPrinting.BlockRestEnd | src/parser/Parser.java:156-165 | the block loop stops at END |
| StatementPrinting.BlockRestStep | src/parser/Parser.java:156-165 | each statement read is added at the end |
| StatementPrinting.NestedRoundTrip | src/parser/Parser.java:139-271 | a nested printable statement reads back |
| StatementPrinting.GuardRoundTrip | src/parser/Parser.java:280-295 | a condition ended by DO or THEN reads back |
| StatementPrinting.WhileRoundTrip | src/parser/Parser.java:185-192 | a printed While reads back |
| StatementPrinting.WhileBodyRoundTrip | src/parser/Parser.java:185-192 | its body reads back after the condition |
| StatementPrinting.IfRoundTrip | src/parser/Parser.java:168-184 | a printed If reads back |
| StatementPrinting.IfBodyRoundTrip | src/parser/Parser.java:168-184 | its body reads back after the condition |
| StatementPrinting.IfElseRoundTrip | src/parser/Parser.java:168-184 | a printed IfElse reads back |
| StatementPrinting.ThenRoundTrip | src/parser/Parser.java:168-184 | the THEN part reads back |
| StatementPrinting.ElseRoundTrip | src/parser/Parser.java:176-182 | the ELSE part reads back |
| StatementPrinting.ForRoundTrip | src/parser/Parser.java:193-206 | a printed For reads back |
| StatementPrinting.ForBoundRoundTrip | src/parser/Parser.java:193-206 | the bound and body read back after the heading |
| StatementPrinting.ForBodyRoundTrip | src/parser/Parser.java:193-206 | the body reads back after DO |
| StatementPrinting.BlockRoundTrip | src/parser/Parser.java:153-167 | a printed Block reads back |
| StatementPrinting.BlockRestRoundTrip | src/parser/Parser.java:156-165 | the block loop reads back all statements |
| StatementPrinting.BlockConsRoundTrip | src/parser/Parser.java:156-165 | the same from the i-th statement on |
| StatementPrinting.BlockRestExtends | src/parser/Parser.java:156-165 | one more statement read by the loop |
| StatementPrinting.BlockHeadRoundTrip | src/parser/Parser.java:156-165 | the i-th statement of a printed block reads back |
| StatementPrinting.FollowsInBlock | src/parser/Parser.java:156-165 | within a block no ELSE follows a statement |
| ProgramPrinting.ParamsRestRoundTrip | src/parser/Parser.java:106-118 | the `, name` loop reads back the remaining parameters |
| ProgramPrinting.ParametersRoundTrip | src/parser/Parser.java:99-123 | where the name, the parameters and the body of a printed heading are |
| ProgramPrinting.ProcedureRoundTrip | src/parser/Parser.java:99-123 | a printed declaration reads back |
| ProgramPrinting.ProcedureStep | src/parser/Parser.java:99-123 | heading, parameters and body build the declaration |
| ProgramPrinting.ProceduresEnd | src/parser/Parser.java:99-123 | the loop stops at a token other than PROCEDURE |
| ProgramPrinting.ProceduresExtend | src/parser/Parser.java:99-123 | one more declaration read by the loop |
| ProgramPrinting.ProceduresRoundTrip | src/parser/Parser.java:99-123 | the loop reads back all printed declarations |
| ProgramPrinting.ProceduresConsRoundTrip | src/parser/Parser.java:99-123 | the same from the i-th on |
| ProgramPrinting.ProcedureHeadRoundTrip | src/parser/Parser.java:99-123 | the i-th printed declaration reads back |
| ProgramPrinting.ProgramStep | src/parser/Parser.java:96-126 | the declarations and the main statement build the Program |
| ProgramPrinting.ProgramRoundTrip | src/parser/Parser.java:96-126 | every printable program reads back, whatever follows it |
| ProgramPrinting.ProgramMain | src/parser/Parser.java:124-125 | the main statement reads back where the declarations end |
| ProgramPrinting.ProgramProcedures | src/parser/Parser.java:99-123 | the declarations of a printed program read back |
| ProgramPrinting.MainStart | src/parser/Parser.java:99 | the main statement does not start with PROCEDURE or ELSE |

## Left out

- The output file: `Emitter`'s FileWriter constructor, `push` and `close`
  (src/emitter/Emitter.java:33-47, 81-92). The listing stays in the emitter
  state, and Program.compile starts from a fresh emitter.
- The scanner's BufferedReader and InputStream, and the IOException and
  `System.exit` path. The input is a `seq<char>`.
- The ScanErrorException that Parser.eat prints and swallows, and the debug
  printlns in getOffset. Console output is not modelled.
- src/parser/ParserTester.java and src/scanner/ScannerTester.java, which
  are file-opening drivers.
- src/parser/Variable.java and the parser's unused symbol table.
- The interfaces Statement and Expression, and the exception classes.
  They become the `Expr`/`Stmt` datatypes, the `Outcome` signals and the
  `Error` kinds. The `Object... args` of compile become an argument list of
  `Arg`s.
- Getters (getName, getNames, getType, getValue, and the
  ProcedureDeclaration getters). They are datatype fields.
- Running the generated MIPS. Compilation is modelled at the text level
  only, so nothing relates interpreted and compiled behaviour.
- Semantics.Eval: the interpreter's arithmetic uses unbounded integers and
  does not model Java's 32-bit wrap-around, nor that of For's counter.
  Literals are read with Integer.parseInt's range check.
- Division by zero is an `Err(Arithmetic)` result, as Java's
  ArithmeticException, not a precondition.
- Semantics.Exec: loops and calls are bounded by `fuel`. A program that
  runs out gives `Err(FuelExhausted)`, so a non-terminating program is not
  told apart from one that needs more fuel.
- Lexer.Run: the loop that Java never leaves at a final `.` gives
  `Err(Diverges)` instead of running forever.
- Parsing.ParseFactor, Parsing.ParseStatement and the other parse
  functions state in their own contracts only which node kind results and
  how far they read. What is read is stated by the step lemmas and round
  trips in ParserProperties, StatementPrinting and ProgramPrinting. Those
  cover the printable programs: no local or global declarations, which the
  parser never builds, and fully parenthesised operations.
- Codegen.CompileStmt: While, procedure calls and call statements have no
  compile in the Java code, and give `Err(NoCompile)`.
- Scanner.hasNext is the class function `HasNext`, and the character
  classes are predicates. Neither has a contract of its own.
- Codegen.ForEntry and Compiler.CompileForStatement compile the heading
  `Ast.DecrementExp(a)` but leave the syntax tree as it was.
  `For.compile` calls `decrementExp`, which overwrites the heading's
  expression in the node (src/ast/Assignment.java:43-48, src/ast/For.java:101).
  So in Java a second compile of the same `For` starts one lower again, and
  an exec after a compile starts the counter one lower. The model's
  syntax tree is an immutable value, and this change to it is not captured.
- Lexer.IsLetter uses the root-locale case mapping: the ASCII letters and
  the KELVIN SIGN U+212A. `String.toLowerCase` in Scanner.isLetter uses the
  default locale. Under a locale such as Turkish, 'I' lower-cases to a
  dotless i and is then no letter; that dependence on the locale is not
  modelled.
- The scanner's input is a sequence of Unicode scalar values, while Java
  reads UTF-16 code units. The two agree on every char below U+10000. A
  char above it is one element in the model and two surrogate units in
  Java. No character class holds of it in either, so outside a comment it
  is a ScanError in both. Inside a comment Java reads two units where the
  model reads one, so the column count differs.
- Tokens.StringHash runs over Unicode scalar values, while String.hashCode
  runs over UTF-16 code units. The two agree on strings with no char above
  U+FFFF, and differ on strings that have one (Java hashes the two
  surrogates).

## Findings

| source | as written | input that shows it | evidently intended | confidence | as-written member | corrected member |
|---|---|---|---|---|---|---|
| src/ast/While.java:60-61 | the `break` in the Break case leaves only the `switch`, so the loop goes on as after a Continue | `while 1 = 1 do break` never terminates | a Break ends the loop, as Break.java documents | not executed | SemanticsProperties.AsWrittenBreakNeverEnds | SemanticsProperties.WhileBreakEndsLoop |
