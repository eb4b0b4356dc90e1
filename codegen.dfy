/** Code generation, the `compile` methods of the AST classes, as functions
    on the emitter's state.

    A compile that throws is `Err`; the listing built up to the throw is
    lost with the emitter, as it is in Java when the exception escapes
    Program.compile. While, ProcedureCall and the statement-level call have
    no compile method, which is `Err(NoCompile)` here.

    The varargs `Object... args` of compile are a sequence of `Arg`; only a
    Condition (its branch target) and a Program (the output file) read them.
    A Break or Continue is compiled against the loop it was constructed
    with, which the enclosing For passes down. */
module Codegen {
  import opened Base
  import opened Ast
  import opened Semantics
  import opened Emitters

  datatype Arg = StringArg(s: string) | OtherArg

  /** The check of Condition.compile and Program.compile: exactly one
      argument, and a String. */
  function StringArgument(args: seq<Arg>): (r: Result<string>)
    ensures r.Ok? <==> |args| == 1 && args[0].StringArg?
    ensures r.Ok? ==> r.value == args[0].s
    ensures r.Err? ==> r.error == IllegalArgument
  {
    if |args| != 1 || !args[0].StringArg? then Err(IllegalArgument) else Ok(args[0].s)
  }

  // ---------------------------------------------------------------------
  // Expressions
  // ---------------------------------------------------------------------

  /** The instruction that ends a BinOp: the operation on $t0 (left) and
      $v0 (right), result in $v0. */
  function ArithLines(op: string): seq<string>
    requires IsArithOp(op)
  {
    if op == "+" then ["add $v0, $t0, $v0" + "\t# add the two expressions"]
    else if op == "-" then ["sub $v0, $t0, $v0" + "\t# subtract the two expressions"]
    else if op == "*" then ["mult $t0, $v0" + "\t# add the multiply expressions", "mflo $v0"]
    else if op == "/" then ["div $t0, $v0" + "\t# divide the two expressions", "mflo $v0"]
    else ["div $t0, $v0" + "\t# add mod two expressions", "mfhi $v0"]
  }

  /** The MIPS branch each relational operator compiles to: the NEGATED
      test, jumping past the code that runs when the condition holds. */
  function BranchMnemonic(relop: string): string
    requires IsRelop(relop)
  {
    if relop == "=" then "bne"
    else if relop == "<>" then "beq"
    else if relop == "<=" then "bgt"
    else if relop == ">=" then "blt"
    else if relop == ">" then "ble"
    else "bge"
  }

  function BranchComment(relop: string): string
    requires IsRelop(relop)
  {
    if relop == "=" then "\t# if $t0 and $v0 are not equal"
    else if relop == "<>" then "\t# if $t0 and $v0 are equal"
    else if relop == "<=" then "\t# if $t0 is greater than $v0"
    else if relop == ">=" then "\t# if $t0 is less than $v0"
    else if relop == ">" then "\t# if $t0 is less than or equal to $v0"
    else "\t# if $t0 is greater than or equal to $v0"
  }

  function BranchLine(relop: string, target: string): string
    requires IsRelop(relop)
  {
    BranchMnemonic(relop) + " $t0, $v0, " + target + BranchComment(relop)
  }

  /** What a MIPS branch instruction tests of its two registers. */
  predicate BranchTaken(mnemonic: string, t0: int, v0: int) {
    if mnemonic == "beq" then t0 == v0
    else if mnemonic == "bne" then t0 != v0
    else if mnemonic == "blt" then t0 < v0
    else if mnemonic == "ble" then t0 <= v0
    else if mnemonic == "bgt" then t0 > v0
    else if mnemonic == "bge" then t0 >= v0
    else false
  }

  function EmitAll(st: EmitterState, lines: seq<string>): EmitterState
    decreases |lines|
  {
    if lines == [] then st else EmitAll(Emit(st, lines[0]), lines[1..])
  }

  /** Expression.compile: the code leaves the value in $v0. */
  function CompileExpr(x: Expr, args: seq<Arg>, st: EmitterState): Result<EmitterState>
    decreases x, 1
  {
    match x
    case Number(v) => Ok(Emit(st, NumberLine(v)))
    case Variable(name) => CompileVariable(name, st)
    case BinOp(_, _, op) =>
      var s1 :- CompileOperands(x, st);
      if IsArithOp(op) then Ok(EmitAll(s1, ArithLines(op))) else Err(IllegalArgument)
    case Condition(_, _, relop) =>
      var target :- StringArgument(args);
      var s1 :- CompileOperands(x, st);
      if IsRelop(relop) then Ok(Emit(s1, BranchLine(relop, target))) else Err(IllegalArgument)
    case ProcedureCall(_, _) => Err(NoCompile)
  }

  /** The operands of a BinOp or Condition: the left value is saved on the
      stack while the right one is computed, then restored into $t0. */
  function CompileOperands(x: Expr, st: EmitterState): Result<EmitterState>
    requires x.BinOp? || x.Condition?
    decreases x, 0
  {
    var s1 :- CompileExpr(x.left, [], st);
    var s2 :- CompileExpr(x.right, [], EmitPush(s1, "$v0"));
    Ok(EmitPop(s2, "$t0"))
  }

  /** Variable.compile: a local is loaded from its stack slot, any other
      name from its global data word. */
  function CompileVariable(name: string, st: EmitterState): Result<EmitterState> {
    var local :- IsLocal(st, name);
    if local then
      var offset :- GetOffset(st, name);
      Ok(Emit(st, LocalLoadLine(offset)))
    else
      Ok(Emit(Emit(st, GlobalAddressLine(name)), GlobalLoadLine))
  }

  function NumberLine(v: int): string {
    "li $v0, " + IntToString(v) + "\t# load the number $v0"
  }

  function LocalLoadLine(offset: int): string {
    "lw $v0, " + IntToString(offset) + "($sp)" + "\t# load the variable into $v0"
  }

  function GlobalAddressLine(name: string): string {
    "la $t0, var" + name
  }

  const GlobalLoadLine: string := "lw $v0, ($t0)" + "\t# load the variable into $v0"

  // ---------------------------------------------------------------------
  // Statements
  // ---------------------------------------------------------------------

  function LoopName(kind: LoopKind): string {
    if kind == WhileLoop then "while" else "for"
  }

  /** The label at the top of a loop, where Continue jumps. */
  function LoopTop(loop: LoopRef): string {
    LoopName(loop.kind) + IntToString(loop.id)
  }

  /** The label after a loop, where Break jumps. */
  function LoopEnd(loop: LoopRef): string {
    "term_" + LoopName(loop.kind) + IntToString(loop.id)
  }

  function CompileAssignment(a: Assignment, st: EmitterState): Result<EmitterState> {
    var s1 :- CompileExpr(a.exp, [], st);
    Ok(Emit(s1, "sw $v0, var" + a.name + "\t# assign the variable"))
  }

  /** `k` pops into `reg`. */
  function PopTimes(st: EmitterState, reg: string, k: nat): EmitterState
    decreases k
  {
    if k == 0 then st else PopTimes(EmitPop(st, reg), reg, k - 1)
  }

  /** Exit.compile: outside a procedure a jump to the program's exit;
      inside one, the procedure's epilogue. */
  function CompileExit(st: EmitterState): EmitterState {
    if st.context.None? then Emit(st, "j program_exit" + "\t# exit from the current routine")
    else
      var s1 := PopTimes(EmitPop(st, "$ra"), "$v0", |st.context.value.locals|);
      Emit(EmitPop(s1, "$v0"), "jr $ra\t# return")
  }

  const WritelnTail: seq<string> := [
    "move $a0, $v0",
    "li $v0, 1" + "\t# print the expression",
    "syscall",
    "la $a0, new_line" + "\t# print a new line",
    "li $v0, 4",
    "syscall"]

  /** Writeln.compile: the expression into $v0, printed, then a newline. */
  function CompileWriteln(x: Expr, st: EmitterState): Result<EmitterState> {
    var s1 :- CompileExpr(x, [], st);
    Ok(EmitAll(s1, WritelnTail))
  }

  /** Statement.compile. `loop` is the loop a Break or Continue here was
      constructed with; None when it is not inside a compiled loop, where
      constructing one throws. */
  function CompileStmt(s: Stmt, loop: Option<LoopRef>, st: EmitterState): Result<EmitterState>
    decreases s, 1
  {
    match s
    case Assign(a) => CompileAssignment(a, st)
    case Block(ss) => CompileBlock(ss, loop, st)
    case If(c, b) => CompileIf(c, b, loop, st)
    case IfElse(c, t, e) => CompileIfElse(c, t, e, loop, st)
    case While(_, _) => Err(NoCompile)
    case For(a, e, b) => CompileFor(a, e, b, st)
    case Break =>
      if loop.None? then Err(IllegalArgument)
      else Ok(Emit(st, "j " + LoopEnd(loop.value) + "\t# break from the loop"))
    case Continue =>
      if loop.None? then Err(IllegalArgument)
      else Ok(Emit(st, "j " + LoopTop(loop.value) + "\t# continue from the loop"))
    case Exit => Ok(CompileExit(st))
    case Writeln(e) => CompileWriteln(e, st)
    case Call(_, _) => Err(NoCompile)
  }

  /** If.compile: the condition branches past the body to the end label. */
  function CompileIf(c: Expr, b: Stmt, loop: Option<LoopRef>, st: EmitterState): Result<EmitterState>
    decreases If(c, b), 0
  {
    var endId := NextIfID(st);
    var endLabel := "endif" + IntToString(endId.0);
    var s2 :- CompileGuarded(c, endLabel, b, loop, endId.1);
    Ok(Emit(s2, endLabel + ":"))
  }

  /** A condition that branches to `target` when false, then the statement
      it guards, as If and IfElse compile them. */
  function CompileGuarded(c: Expr, target: string, b: Stmt, loop: Option<LoopRef>, st: EmitterState): Result<EmitterState>
    decreases b, 2
  {
    var s1 :- CompileExpr(c, [StringArg(target)], st);
    CompileStmt(b, loop, s1)
  }

  /** IfElse.compile: the condition branches to the else label; the then
      branch ends with a jump to the end label. */
  function CompileIfElse(c: Expr, t: Stmt, e: Stmt, loop: Option<LoopRef>, st: EmitterState): Result<EmitterState>
    decreases IfElse(c, t, e), 0
  {
    var endId := NextIfID(st);
    var endLabel := "endif" + IntToString(endId.0);
    var elseId := NextIfID(endId.1);
    var elseLabel := "elseif" + IntToString(elseId.0);
    var s3 :- CompileGuarded(c, elseLabel, t, loop, elseId.1);
    CompileElse(e, loop, s3, endLabel, elseLabel)
  }

  /** The rest of IfElse.compile once the then branch is compiled. */
  function CompileElse(e: Stmt, loop: Option<LoopRef>, st: EmitterState, endLabel: string, elseLabel: string): Result<EmitterState>
    decreases e, 2
  {
    var s1 := Emit(Emit(st, "j " + endLabel + "\t# jump to end of if statement"), elseLabel + ":");
    var s2 :- CompileStmt(e, loop, s1);
    Ok(Emit(s2, endLabel + ":"))
  }

  /** For.compile. The heading is compiled as `name := begin - 1`; the loop
      keeps the counter in $t1 and the bound, evaluated at compile time, in
      $t2, both saved on the stack around the body. */
  function CompileFor(a: Assignment, e: Expr, b: Stmt, st: EmitterState): Result<EmitterState>
    decreases For(a, e, b), 0
  {
    var loopId := NextLoopID(st);
    CompileForLoop(a, e, b, LoopRef(ForLoop, loopId.0), loopId.1)
  }

  /** For.compile once the loop's id is drawn. */
  function CompileForLoop(a: Assignment, e: Expr, b: Stmt, loop: LoopRef, st: EmitterState): Result<EmitterState>
    decreases b, 3
  {
    var s1 :- ForEntry(a, e, st);
    CompileForBody(a.name, b, loop, s1)
  }

  /** For.compile from the loop's label on. */
  function CompileForBody(name: string, b: Stmt, loop: LoopRef, st: EmitterState): Result<EmitterState>
    decreases b, 2
  {
    var s2 :- CompileStmt(b, Some(loop), ForTest(name, loop, st));
    Ok(ForClose(loop, s2))
  }

  /** After the body: the jump back to the test, then the end label. */
  function ForClose(loop: LoopRef, st: EmitterState): EmitterState {
    Emit(Emit(st, "j " + LoopTop(loop) + "\t# repeat the for loop"), LoopEnd(loop) + ":")
  }

  /** The code before the loop's label: the heading's assignment, then the
      start value and the bound pushed. */
  function ForEntry(a: Assignment, e: Expr, st: EmitterState): Result<EmitterState> {
    var s1 :- CompileAssignment(DecrementExp(a), st);
    var s2 := EmitPush(Emit(s1, "lw $t1, var" + a.name + "\t# load the start variable into $t1"), "$t1");
    var bound :- EvalNull(e);
    Ok(EmitPush(Emit(s2, "li $t2, " + IntToString(bound) + "\t# load the end number into $t2"), "$t2"))
  }

  /** The loop's label and test: both popped, the counter incremented and
      stored, the exit branch, then both pushed again for the body. */
  function ForTest(name: string, loop: LoopRef, st: EmitterState): EmitterState {
    var s1 := EmitPop(EmitPop(Emit(st, LoopTop(loop) + ":"), "$t2"), "$t1");
    var s2 := EmitAll(s1, ForTestLines(name, loop));
    EmitPush(EmitPush(s2, "$t1"), "$t2")
  }

  function ForTestLines(name: string, loop: LoopRef): seq<string> {
    ["addiu $t1, $t1, 1" + "\t# increment the for loop counter",
     "sw $t1, var" + name,
     "bgt $t1, $t2, " + LoopEnd(loop) + "\t# check if the for loop is done"]
  }

  function CompileBlock(ss: seq<Stmt>, loop: Option<LoopRef>, st: EmitterState): Result<EmitterState>
    decreases ss, 0
  {
    if ss == [] then Ok(st)
    else
      var s1 :- CompileStmt(ss[0], loop, st);
      CompileBlock(ss[1..], loop, s1)
  }

  // ---------------------------------------------------------------------
  // Declarations and the program
  // ---------------------------------------------------------------------

  /** The data word of one global variable. */
  function DataWord(name: string): string {
    "var" + name + ": .word 0"
  }

  /** VariableDeclaration.compile: each name's data word is prepended, in
      order. */
  function CompileVariableDeclaration(names: seq<string>, st: EmitterState): EmitterState
    decreases |names|
  {
    if names == [] then st
    else Prepend(CompileVariableDeclaration(names[..|names| - 1], st), DataWord(names[|names| - 1]))
  }

  function CompileVariableDeclarations(ds: seq<VariableDeclaration>, st: EmitterState): EmitterState
    decreases |ds|
  {
    if ds == [] then st
    else CompileVariableDeclaration(ds[|ds| - 1].names, CompileVariableDeclarations(ds[..|ds| - 1], st))
  }

  /** `k` times: a null loaded into $v0 and pushed. */
  function PushNulls(st: EmitterState, k: nat): EmitterState
    decreases k
  {
    if k == 0 then st
    else PushNulls(EmitPush(Emit(st, "move $v0, $t0\t# load null into local variable"), "$v0"), k - 1)
  }

  /** The code of ProcedureDeclaration.compile up to the body: the label,
      the return slot and one slot per local declaration, all null, the
      context set, then $ra pushed. */
  function Prologue(p: ProcedureDeclaration, st: EmitterState): EmitterState {
    var s1 := Emit(Emit(st, "proc" + p.id + ":"), "la $t0, null");
    var s2 := EmitPush(Emit(s1, "move $v0, $t0\t# load null into $v0"), "$v0");
    var s3 := PushNulls(s2, |p.locals|);
    EmitPush(SetProcedureContext(s3, p), "$ra")
  }

  /** The code after the body: $ra, the local slots and the return slot
      popped, the return jump, the context cleared. */
  function Epilogue(p: ProcedureDeclaration, st: EmitterState): EmitterState {
    var s1 := PopTimes(EmitPop(st, "$ra"), "$v0", |p.locals|);
    ClearProcedureContext(Emit(EmitPop(s1, "$v0"), "jr $ra\t# return"))
  }

  function CompileProcedure(p: ProcedureDeclaration, st: EmitterState): Result<EmitterState> {
    var body :- CompileStmt(p.body, None, Prologue(p, st));
    Ok(Epilogue(p, body))
  }

  function CompileProcedures(ps: seq<ProcedureDeclaration>, st: EmitterState): Result<EmitterState>
    decreases |ps|
  {
    if ps == [] then Ok(st)
    else
      var s1 :- CompileProcedure(ps[0], st);
      CompileProcedures(ps[1..], s1)
  }

  const TextHeader: seq<string> := [".text", ".globl main", "main:"]

  const ExitAndErrorBlock: seq<string> := [
    "program_exit:",
    "li $v0 10" + "\t# exit the program",
    "syscall",
    "program_error:",
    "li $v0 4" + "\t# print error message",
    "la $a0 error_message",
    "syscall",
    "j program_exit"]

  const DataHeader: seq<string> := [
    ".data",
    "null: .word 0" + "\t# null variable",
    "error_message: .asciiz \"RuntimeError: null assignment, program quit unexpectedly\"" + "\t# error message",
    "new_line: .asciiz \"\\n\"" + "\t# new line variable"]

  /** Program.compile, up to writing the file: a fresh emitter, the main
      body, the exit and error routines, the procedures, and the data
      section in front. */
  function CompileProgram(p: Program, args: seq<Arg>): Result<EmitterState> {
    var _ :- StringArgument(args);
    var s1 :- CompileStmt(p.main, None, EmitAll(NewEmitter, TextHeader));
    var s2 :- CompileProcedures(p.procDecls, EmitAll(s1, ExitAndErrorBlock));
    var s3 := CompileVariableDeclarations(p.varDecls, s2);
    Ok(Prepend(Prepend(Prepend(Prepend(s3, DataHeader[3]), DataHeader[2]), DataHeader[1]), DataHeader[0]))
  }
}
