/** The compile methods of the AST nodes, written as the Java methods are:
    each one emits into one shared Emitter object, step by step. Every
    method is proved to leave the emitter exactly as the corresponding
    function of Codegen says, or to throw what that function returns. */
module Compiler {
  import opened Base
  import opened Ast
  import opened Semantics
  import opened Emitters
  import opened EmitterObject
  import opened Codegen
  import CodegenProperties

  /** What a compile method amounts to: the exception it threw, or the
      emitter's new state. */
  function Outcome(thrown: Option<Error>, st: EmitterState): Result<EmitterState> {
    if thrown.Some? then Err(thrown.value) else Ok(st)
  }

  // ---------------------------------------------------------------------
  // Expressions
  // ---------------------------------------------------------------------

  /** Expression.compile. */
  method CompileExpression(x: Expr, args: seq<Arg>, e: Emitter) returns (thrown: Option<Error>)
    modifies e
    ensures Outcome(thrown, e.View()) == Codegen.CompileExpr(x, args, old(e.View()))
    decreases x, 1
  {
    match x
    case Number(v) =>
      e.Emit(NumberLine(v));
      thrown := None;
    case Variable(name) =>
      thrown := CompileVariableLoad(name, e);
    case BinOp(_, _, op) =>
      thrown := CompileOperandPair(x, e);
      if thrown.None? {
        thrown := CompileArithmetic(op, e);
      }
    case Condition(_, _, relop) =>
      if |args| != 1 || !args[0].StringArg? {
        thrown := Some(IllegalArgument);
      } else {
        thrown := CompileOperandPair(x, e);
        if thrown.None? {
          if IsRelop(relop) {
            e.Emit(BranchLine(relop, args[0].s));
          } else {
            thrown := Some(IllegalArgument);
          }
        }
      }
    case ProcedureCall(_, _) =>
      thrown := Some(NoCompile);
  }

  /** The switch on the operator that ends BinOp.compile. */
  method CompileArithmetic(op: string, e: Emitter) returns (thrown: Option<Error>)
    modifies e
    ensures Outcome(thrown, e.View()) ==
      if IsArithOp(op) then Ok(EmitAll(old(e.View()), ArithLines(op))) else Err(IllegalArgument)
  {
    thrown := None;
    if op == "+" || op == "-" {
      e.Emit(ArithLines(op)[0]);
    } else if op == "*" || op == "/" || op == "mod" {
      e.Emit(ArithLines(op)[0]);
      e.Emit(ArithLines(op)[1]);
    } else {
      thrown := Some(IllegalArgument);
    }
    if thrown.None? {
      assert e.code == old(e.code) + ArithLines(op);
      CodegenProperties.EmitAllAppends(old(e.View()), ArithLines(op));
    }
  }

  /** The operands of a BinOp or Condition: left into $v0 and pushed,
      right into $v0, left popped into $t0. */
  method CompileOperandPair(x: Expr, e: Emitter) returns (thrown: Option<Error>)
    requires x.BinOp? || x.Condition?
    modifies e
    ensures Outcome(thrown, e.View()) == Codegen.CompileOperands(x, old(e.View()))
    decreases x, 0
  {
    thrown := CompileExpression(x.left, [], e);
    if thrown.None? {
      e.EmitPush("$v0");
      thrown := CompileExpression(x.right, [], e);
      if thrown.None? {
        e.EmitPop("$t0");
      }
    }
  }

  /** Variable.compile. */
  method CompileVariableLoad(name: string, e: Emitter) returns (thrown: Option<Error>)
    modifies e
    ensures Outcome(thrown, e.View()) == Codegen.CompileVariable(name, old(e.View()))
  {
    var local := e.IsLocal(name);
    if local.Err? {
      thrown := Some(local.error);
    } else if local.value {
      var offset := e.GetOffset(name);
      if offset.Err? {
        thrown := Some(offset.error);
      } else {
        e.Emit(LocalLoadLine(offset.value));
        thrown := None;
      }
    } else {
      e.Emit(GlobalAddressLine(name));
      e.Emit(GlobalLoadLine);
      thrown := None;
    }
  }

  // ---------------------------------------------------------------------
  // Statements
  // ---------------------------------------------------------------------

  /** Assignment.compile. */
  method CompileAssign(a: Assignment, e: Emitter) returns (thrown: Option<Error>)
    modifies e
    ensures Outcome(thrown, e.View()) == Codegen.CompileAssignment(a, old(e.View()))
  {
    thrown := CompileExpression(a.exp, [], e);
    if thrown.None? {
      e.Emit("sw $v0, var" + a.name + "\t# assign the variable");
    }
  }

  /** Statement.compile, dispatched on the kind of statement. */
  method CompileStatement(s: Stmt, loop: Option<LoopRef>, e: Emitter) returns (thrown: Option<Error>)
    modifies e
    ensures Outcome(thrown, e.View()) == Codegen.CompileStmt(s, loop, old(e.View()))
    decreases s, 1
  {
    match s
    case Assign(a) =>
      thrown := CompileAssign(a, e);
    case Block(ss) =>
      thrown := CompileStatements(ss, loop, e);
    case If(c, b) =>
      thrown := CompileIfStatement(c, b, loop, e);
    case IfElse(c, t, f) =>
      thrown := CompileIfElseStatement(c, t, f, loop, e);
    case While(_, _) =>
      thrown := Some(NoCompile);
    case For(a, bound, b) =>
      thrown := CompileForStatement(a, bound, b, e);
    case Break =>
      if loop.None? {
        thrown := Some(IllegalArgument);
      } else {
        e.Emit("j " + LoopEnd(loop.value) + "\t# break from the loop");
        thrown := None;
      }
    case Continue =>
      if loop.None? {
        thrown := Some(IllegalArgument);
      } else {
        e.Emit("j " + LoopTop(loop.value) + "\t# continue from the loop");
        thrown := None;
      }
    case Exit =>
      CompileExitStatement(e);
      thrown := None;
    case Writeln(x) =>
      thrown := CompileWriteln(x, e);
    case Call(_, _) =>
      thrown := Some(NoCompile);
  }

  /** Block.compile: each statement in turn. */
  method CompileStatements(ss: seq<Stmt>, loop: Option<LoopRef>, e: Emitter) returns (thrown: Option<Error>)
    modifies e
    ensures Outcome(thrown, e.View()) == Codegen.CompileBlock(ss, loop, old(e.View()))
    decreases ss, 0
  {
    thrown := None;
    var i := 0;
    while i < |ss| && thrown.None?
      invariant 0 <= i <= |ss|
      invariant thrown.None? ==>
        Codegen.CompileBlock(ss, loop, old(e.View())) == Codegen.CompileBlock(ss[i..], loop, e.View())
      invariant thrown.Some? ==> Codegen.CompileBlock(ss, loop, old(e.View())) == Err(thrown.value)
      decreases |ss| - i
    {
      assert ss[i..][0] == ss[i] && ss[i..][1..] == ss[i + 1..];
      thrown := CompileStatement(ss[i], loop, e);
      i := i + 1;
    }
  }

  /** If.compile. */
  method CompileIfStatement(c: Expr, b: Stmt, loop: Option<LoopRef>, e: Emitter) returns (thrown: Option<Error>)
    modifies e
    ensures Outcome(thrown, e.View()) == Codegen.CompileIf(c, b, loop, old(e.View()))
    decreases If(c, b), 0
  {
    var id := e.NextIfID();
    var endLabel := "endif" + IntToString(id);
    thrown := CompileGuardedStatement(c, endLabel, b, loop, e);
    if thrown.None? {
      e.Emit(endLabel + ":");
    }
  }

  /** The condition, branching to `target` when false, then the statement
      it guards. */
  method CompileGuardedStatement(c: Expr, target: string, b: Stmt, loop: Option<LoopRef>, e: Emitter)
    returns (thrown: Option<Error>)
    modifies e
    ensures Outcome(thrown, e.View()) == Codegen.CompileGuarded(c, target, b, loop, old(e.View()))
    decreases b, 2
  {
    thrown := CompileExpression(c, [StringArg(target)], e);
    if thrown.None? {
      thrown := CompileStatement(b, loop, e);
    }
  }

  /** IfElse.compile. */
  method CompileIfElseStatement(c: Expr, t: Stmt, f: Stmt, loop: Option<LoopRef>, e: Emitter) returns (thrown: Option<Error>)
    modifies e
    ensures Outcome(thrown, e.View()) == Codegen.CompileIfElse(c, t, f, loop, old(e.View()))
    decreases IfElse(c, t, f), 0
  {
    var endId := e.NextIfID();
    var endLabel := "endif" + IntToString(endId);
    var elseId := e.NextIfID();
    var elseLabel := "elseif" + IntToString(elseId);
    thrown := CompileGuardedStatement(c, elseLabel, t, loop, e);
    if thrown.None? {
      thrown := CompileElseBranch(f, loop, endLabel, elseLabel, e);
    }
  }

  /** The rest of IfElse.compile once the then branch is compiled. */
  method CompileElseBranch(f: Stmt, loop: Option<LoopRef>, endLabel: string, elseLabel: string, e: Emitter)
    returns (thrown: Option<Error>)
    modifies e
    ensures Outcome(thrown, e.View()) == Codegen.CompileElse(f, loop, old(e.View()), endLabel, elseLabel)
    decreases f, 2
  {
    e.Emit("j " + endLabel + "\t# jump to end of if statement");
    e.Emit(elseLabel + ":");
    thrown := CompileStatement(f, loop, e);
    if thrown.None? {
      e.Emit(endLabel + ":");
    }
  }

  /** For.compile. The heading's assignment is compiled as `name :=
      begin - 1`; the bound is evaluated at compile time. */
  method CompileForStatement(a: Assignment, bound: Expr, b: Stmt, e: Emitter) returns (thrown: Option<Error>)
    modifies e
    ensures Outcome(thrown, e.View()) == Codegen.CompileFor(a, bound, b, old(e.View()))
    decreases For(a, bound, b), 0
  {
    var id := e.NextLoopID();
    thrown := CompileForRest(a, bound, b, LoopRef(ForLoop, id), e);
  }

  /** For.compile once the loop's id is drawn. */
  method CompileForRest(a: Assignment, bound: Expr, b: Stmt, loop: LoopRef, e: Emitter) returns (thrown: Option<Error>)
    modifies e
    ensures Outcome(thrown, e.View()) == Codegen.CompileForLoop(a, bound, b, loop, old(e.View()))
    decreases b, 3
  {
    thrown := CompileForEntry(a, bound, e);
    if thrown.None? {
      thrown := CompileForBodyAndClose(a.name, b, loop, e);
    }
  }

  /** For.compile from the loop's label on: the test, the body, the jump
      back to the label, the end label. */
  method CompileForBodyAndClose(name: string, b: Stmt, loop: LoopRef, e: Emitter) returns (thrown: Option<Error>)
    modifies e
    ensures Outcome(thrown, e.View()) == Codegen.CompileForBody(name, b, loop, old(e.View()))
    decreases b, 2
  {
    CompileForTest(name, loop, e);
    thrown := CompileStatement(b, Some(loop), e);
    if thrown.None? {
      e.Emit("j " + LoopTop(loop) + "\t# repeat the for loop");
      e.Emit(LoopEnd(loop) + ":");
    }
  }

  /** For.compile before the loop's label. */
  method CompileForEntry(a: Assignment, bound: Expr, e: Emitter) returns (thrown: Option<Error>)
    modifies e
    ensures Outcome(thrown, e.View()) == ForEntry(a, bound, old(e.View()))
  {
    thrown := CompileAssign(DecrementExp(a), e);
    if thrown.None? {
      e.Emit("lw $t1, var" + a.name + "\t# load the start variable into $t1");
      e.EmitPush("$t1");
      var end := EvalNull(bound);
      if end.Err? {
        thrown := Some(end.error);
      } else {
        e.Emit("li $t2, " + IntToString(end.value) + "\t# load the end number into $t2");
        e.EmitPush("$t2");
      }
    }
  }

  /** For.compile from the loop's label to the body. */
  method CompileForTest(name: string, loop: LoopRef, e: Emitter)
    modifies e
    ensures e.View() == ForTest(name, loop, old(e.View()))
  {
    e.Emit(LoopTop(loop) + ":");
    e.EmitPop("$t2");
    e.EmitPop("$t1");
    ghost var s1 := e.View();
    e.Emit("addiu $t1, $t1, 1" + "\t# increment the for loop counter");
    e.Emit("sw $t1, var" + name);
    e.Emit("bgt $t1, $t2, " + LoopEnd(loop) + "\t# check if the for loop is done");
    assert e.code == s1.code + ForTestLines(name, loop);
    CodegenProperties.EmitAllAppends(s1, ForTestLines(name, loop));
    e.EmitPush("$t1");
    e.EmitPush("$t2");
  }

  /** Exit.compile. */
  method CompileExitStatement(e: Emitter)
    modifies e
    ensures e.View() == Codegen.CompileExit(old(e.View()))
  {
    if e.context.None? {
      e.Emit("j program_exit" + "\t# exit from the current routine");
    } else {
      e.EmitPop("$ra");
      PopSlots(|e.context.value.locals|, e);
      e.EmitPop("$v0");
      e.Emit("jr $ra\t# return");
    }
  }

  /** `k` pops into $v0, one per local declaration. */
  method PopSlots(k: nat, e: Emitter)
    modifies e
    ensures e.View() == PopTimes(old(e.View()), "$v0", k)
  {
    for i := 0 to k
      invariant PopTimes(old(e.View()), "$v0", k) == PopTimes(e.View(), "$v0", k - i)
    {
      e.EmitPop("$v0");
    }
  }

  /** Writeln.compile. */
  method CompileWriteln(x: Expr, e: Emitter) returns (thrown: Option<Error>)
    modifies e
    ensures Outcome(thrown, e.View()) == Codegen.CompileWriteln(x, old(e.View()))
  {
    thrown := CompileExpression(x, [], e);
    if thrown.None? {
      ghost var s1 := e.View();
      e.Emit("move $a0, $v0");
      e.Emit("li $v0, 1" + "\t# print the expression");
      e.Emit("syscall");
      e.Emit("la $a0, new_line" + "\t# print a new line");
      e.Emit("li $v0, 4");
      e.Emit("syscall");
      assert e.code == s1.code + WritelnTail;
      CodegenProperties.EmitAllAppends(s1, WritelnTail);
    }
  }

  // ---------------------------------------------------------------------
  // Declarations, procedures and the program
  // ---------------------------------------------------------------------

  /** VariableDeclaration.compile: each name's data word prepended. */
  method CompileDeclaration(names: seq<string>, e: Emitter)
    modifies e
    ensures e.View() == CompileVariableDeclaration(names, old(e.View()))
  {
    for i := 0 to |names|
      invariant e.View() == CompileVariableDeclaration(names[..i], old(e.View()))
    {
      assert names[..i + 1][..i] == names[..i];
      e.Prepend("var" + names[i] + ": .word 0");
    }
    assert names[..|names|] == names;
  }

  /** ProcedureDeclaration.compile. */
  method CompileProcedureDeclaration(p: ProcedureDeclaration, e: Emitter) returns (thrown: Option<Error>)
    modifies e
    ensures Outcome(thrown, e.View()) == Codegen.CompileProcedure(p, old(e.View()))
  {
    CompilePrologue(p, e);
    thrown := CompileStatement(p.body, None, e);
    if thrown.None? {
      CompileEpilogue(p, e);
    }
  }

  /** ProcedureDeclaration.compile up to the body. */
  method CompilePrologue(p: ProcedureDeclaration, e: Emitter)
    modifies e
    ensures e.View() == Prologue(p, old(e.View()))
  {
    e.Emit("proc" + p.id + ":");
    e.Emit("la $t0, null");
    e.Emit("move $v0, $t0\t# load null into $v0");
    e.EmitPush("$v0");
    ghost var s2 := e.View();
    for i := 0 to |p.locals|
      invariant PushNulls(s2, |p.locals|) == PushNulls(e.View(), |p.locals| - i)
    {
      e.Emit("move $v0, $t0\t# load null into local variable");
      e.EmitPush("$v0");
    }
    e.SetProcedureContext(p);
    e.EmitPush("$ra");
  }

  /** ProcedureDeclaration.compile after the body. */
  method CompileEpilogue(p: ProcedureDeclaration, e: Emitter)
    modifies e
    ensures e.View() == Epilogue(p, old(e.View()))
  {
    e.EmitPop("$ra");
    PopSlots(|p.locals|, e);
    e.EmitPop("$v0");
    e.Emit("jr $ra\t# return");
    e.ClearProcedureContext();
  }

  /** Program.compile. The emitter that Java opens on the output file is
      returned; on an exception its contents mean nothing. */
  method CompileWholeProgram(p: Program, args: seq<Arg>) returns (thrown: Option<Error>, e: Emitter)
    ensures Outcome(thrown, e.View()) == Codegen.CompileProgram(p, args)
  {
    e := new Emitter();
    if |args| != 1 || !args[0].StringArg? {
      thrown := Some(IllegalArgument);
    } else {
      e.Emit(".text");
      e.Emit(".globl main");
      e.Emit("main:");
      assert e.code == NewEmitter.code + TextHeader;
      CodegenProperties.EmitAllAppends(NewEmitter, TextHeader);
      thrown := CompileStatement(p.main, None, e);
      if thrown.None? {
        CompileExitAndErrorBlock(e);
        thrown := CompileProcedureList(p.procDecls, e);
        if thrown.None? {
          CompileDeclarationList(p.varDecls, e);
          e.Prepend("new_line: .asciiz \"\\n\"" + "\t# new line variable");
          e.Prepend("error_message: .asciiz \"RuntimeError: null assignment, program quit unexpectedly\"" + "\t# error message");
          e.Prepend("null: .word 0" + "\t# null variable");
          e.Prepend(".data");
        }
      }
    }
  }

  /** The exit and error routines Program.compile emits after the main body. */
  method CompileExitAndErrorBlock(e: Emitter)
    modifies e
    ensures e.View() == EmitAll(old(e.View()), ExitAndErrorBlock)
  {
    e.Emit("program_exit:");
    e.Emit("li $v0 10" + "\t# exit the program");
    e.Emit("syscall");
    e.Emit("program_error:");
    e.Emit("li $v0 4" + "\t# print error message");
    e.Emit("la $a0 error_message");
    e.Emit("syscall");
    e.Emit("j program_exit");
    assert e.code == old(e.code) + ExitAndErrorBlock;
    CodegenProperties.EmitAllAppends(old(e.View()), ExitAndErrorBlock);
  }

  /** Program.compile's loop over the procedure declarations. */
  method CompileProcedureList(ps: seq<ProcedureDeclaration>, e: Emitter) returns (thrown: Option<Error>)
    modifies e
    ensures Outcome(thrown, e.View()) == CompileProcedures(ps, old(e.View()))
  {
    thrown := None;
    var i := 0;
    while i < |ps| && thrown.None?
      invariant 0 <= i <= |ps|
      invariant thrown.None? ==> CompileProcedures(ps, old(e.View())) == CompileProcedures(ps[i..], e.View())
      invariant thrown.Some? ==> CompileProcedures(ps, old(e.View())) == Err(thrown.value)
      decreases |ps| - i
    {
      assert ps[i..][0] == ps[i] && ps[i..][1..] == ps[i + 1..];
      thrown := CompileProcedureDeclaration(ps[i], e);
      i := i + 1;
    }
  }

  /** Program.compile's loop over the variable declarations. */
  method CompileDeclarationList(ds: seq<VariableDeclaration>, e: Emitter)
    modifies e
    ensures e.View() == CompileVariableDeclarations(ds, old(e.View()))
  {
    for i := 0 to |ds|
      invariant e.View() == CompileVariableDeclarations(ds[..i], old(e.View()))
    {
      assert ds[..i + 1][..i] == ds[..i];
      CompileDeclaration(ds[i].names, e);
    }
    assert ds[..|ds|] == ds;
  }
}
