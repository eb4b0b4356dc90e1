/** What the compile functions of module Codegen guarantee about the
    listing and the emitter's counters. */
module CodegenProperties {
  import opened Base
  import opened Ast
  import opened Semantics
  import opened Emitters
  import opened Codegen

  // ---------------------------------------------------------------------
  // Pushes and pops in a listing
  // ---------------------------------------------------------------------

  function LineEffect(line: string): int {
    if line == PushLine then 1 else if line == PopLine then -1 else 0
  }

  /** Words pushed minus words popped by the straight-line reading of a
      listing. */
  function StackEffect(code: seq<string>): int {
    if code == [] then 0 else StackEffect(code[..|code| - 1]) + LineEffect(code[|code| - 1])
  }

  /** How far the emitter's push count is from the listing's own balance.
      Every compile except a procedure's keeps it: extraStack counts
      exactly the push and pop lines emitted. */
  function Drift(st: EmitterState): int {
    st.extraStack - StackEffect(st.code)
  }

  /** r's listing is st's with lines appended. */
  predicate Grows(st: EmitterState, r: EmitterState) {
    |st.code| <= |r.code| && r.code[..|st.code|] == st.code
  }

  lemma GrowsTransitive(a: EmitterState, b: EmitterState, c: EmitterState)
    requires Grows(a, b) && Grows(b, c)
    ensures Grows(a, c)
  {
    assert c.code[..|a.code|] == c.code[..|b.code|][..|a.code|];
  }

  /** Emitting a line that is neither a push nor a pop keeps the drift. */
  lemma EmitKeeps(st: EmitterState, line: string)
    requires LineEffect(line) == 0
    ensures Drift(Emit(st, line)) == Drift(st) && Grows(st, Emit(st, line))
    ensures Emit(st, line).(code := st.code) == st
  {
    assert (st.code + [line])[..|st.code|] == st.code;
  }

  /** Emitting several lines appends them, in order. */
  lemma {:induction false} EmitAllAppends(st: EmitterState, lines: seq<string>)
    ensures EmitAll(st, lines) == st.(code := st.code + lines)
    decreases |lines|
  {
    if lines != [] {
      EmitAllAppends(Emit(st, lines[0]), lines[1..]);
      assert (st.code + [lines[0]]) + lines[1..] == st.code + lines;
    }
  }

  lemma {:induction false} EmitAllKeeps(st: EmitterState, lines: seq<string>)
    requires forall i :: 0 <= i < |lines| ==> LineEffect(lines[i]) == 0
    ensures Drift(EmitAll(st, lines)) == Drift(st) && Grows(st, EmitAll(st, lines))
    ensures EmitAll(st, lines).(code := st.code) == st
    decreases |lines|
  {
    if lines != [] {
      EmitKeeps(st, lines[0]);
      EmitAllKeeps(Emit(st, lines[0]), lines[1..]);
      GrowsTransitive(st, Emit(st, lines[0]), EmitAll(st, lines));
    }
  }

  /** emitPush and emitPop move the push count with the listing: the count
      changes by one and the listing gains one push or pop line. */
  lemma PushPopKeep(st: EmitterState, reg: string)
    ensures Drift(EmitPush(st, reg)) == Drift(st) && Grows(st, EmitPush(st, reg))
    ensures Drift(EmitPop(st, reg)) == Drift(st) && Grows(st, EmitPop(st, reg))
    ensures EmitPush(st, reg).extraStack == st.extraStack + 1
    ensures EmitPop(st, reg).extraStack == st.extraStack - 1
    ensures EmitPush(st, reg).(code := st.code, extraStack := st.extraStack) == st
    ensures EmitPop(st, reg).(code := st.code, extraStack := st.extraStack) == st
  {
    var store := "sw " + reg + ", ($sp)";
    var load := "lw " + reg + ", ($sp)";
    assert store[0] == 's' && load[0] == 'l';
    assert LineEffect(store) == 0 && LineEffect(load) == 0;
    var s1 := Emit(IncrementExtraStack(st, false), PushLine);
    assert s1.code[..|st.code|] == st.code;
    EmitKeeps(s1, store);
    GrowsTransitive(st, s1, EmitPush(st, reg));
    var s2 := Emit(IncrementExtraStack(st, true), load);
    EmitKeeps(IncrementExtraStack(st, true), load);
    assert EmitPop(st, reg).code[..|s2.code|] == s2.code;
    GrowsTransitive(st, s2, EmitPop(st, reg));
  }

  lemma {:induction false} PopTimesKeeps(st: EmitterState, reg: string, k: nat)
    ensures var r := PopTimes(st, reg, k);
      Drift(r) == Drift(st) && Grows(st, r) && r.extraStack == st.extraStack - k &&
      r.(code := st.code, extraStack := st.extraStack) == st
    decreases k
  {
    if k > 0 {
      PushPopKeep(st, reg);
      PopTimesKeeps(EmitPop(st, reg), reg, k - 1);
      GrowsTransitive(st, EmitPop(st, reg), PopTimes(st, reg, k));
    }
  }

  /** A line not starting with 'a' is neither a push nor a pop. */
  lemma Neutral(line: string)
    requires |line| > 0 && line[0] != 'a'
    ensures LineEffect(line) == 0
  {
    assert line[0] != PushLine[0] && line[0] != PopLine[0];
  }

  // ---------------------------------------------------------------------
  // Expressions
  // ---------------------------------------------------------------------

  /** What an expression's compile keeps: everything but the listing, which
      grows by lines that push exactly as often as they pop. */
  predicate ExprKept(st: EmitterState, r: EmitterState) {
    && r.(code := st.code) == st
    && Grows(st, r)
    && StackEffect(r.code) == StackEffect(st.code)
  }

  lemma ExprKeptTransitive(a: EmitterState, b: EmitterState, c: EmitterState)
    requires ExprKept(a, b) && ExprKept(b, c)
    ensures ExprKept(a, c)
  {
    GrowsTransitive(a, b, c);
  }

  lemma NeutralEmitKept(st: EmitterState, line: string)
    requires |line| > 0 && line[0] != 'a'
    ensures ExprKept(st, Emit(st, line))
  {
    Neutral(line);
    EmitKeeps(st, line);
  }

  /** The code of an expression pushes exactly as often as it pops, and
      compiling it changes nothing in the emitter but the listing, which
      only grows. */
  lemma {:induction false} CompileExprKeeps(x: Expr, args: seq<Arg>, st: EmitterState)
    requires CompileExpr(x, args, st).Ok?
    ensures ExprKept(st, CompileExpr(x, args, st).value)
    decreases x, 1
  {
    var r := CompileExpr(x, args, st).value;
    match x
    case Number(v) =>
      assert NumberLine(v)[0] == 'l';
      NeutralEmitKept(st, NumberLine(v));
    case Variable(name) =>
      VariableKeeps(name, st);
    case BinOp(_, _, op) =>
      var s1 := CompileOperands(x, st).value;
      CompileOperandsKeep(x, st);
      assert r == EmitAll(s1, ArithLines(op));
      ArithLinesNeutral(op);
      EmitAllKeeps(s1, ArithLines(op));
      ExprKeptTransitive(st, s1, r);
    case Condition(_, _, relop) =>
      var target := StringArgument(args).value;
      var s1 := CompileOperands(x, st).value;
      CompileOperandsKeep(x, st);
      assert r == Emit(s1, BranchLine(relop, target));
      assert BranchLine(relop, target)[0] == 'b';
      NeutralEmitKept(s1, BranchLine(relop, target));
      ExprKeptTransitive(st, s1, r);
  }

  lemma VariableKeeps(name: string, st: EmitterState)
    requires CompileVariable(name, st).Ok?
    ensures ExprKept(st, CompileVariable(name, st).value)
  {
    var r := CompileVariable(name, st).value;
    if IsLocal(st, name).value {
      var line := LocalLoadLine(GetOffset(st, name).value);
      assert r == Emit(st, line);
      assert line[0] == 'l';
      NeutralEmitKept(st, line);
    } else {
      var l1 := GlobalAddressLine(name);
      assert r == Emit(Emit(st, l1), GlobalLoadLine);
      assert l1[0] == 'l' && GlobalLoadLine[0] == 'l';
      NeutralEmitKept(st, l1);
      NeutralEmitKept(Emit(st, l1), GlobalLoadLine);
      ExprKeptTransitive(st, Emit(st, l1), r);
    }
  }

  lemma {:induction false} CompileOperandsKeep(x: Expr, st: EmitterState)
    requires x.BinOp? || x.Condition?
    requires CompileOperands(x, st).Ok?
    ensures ExprKept(st, CompileOperands(x, st).value)
    decreases x, 0
  {
    var s1 := CompileExpr(x.left, [], st).value;
    CompileExprKeeps(x.left, [], st);
    var p1 := EmitPush(s1, "$v0");
    PushPopKeep(s1, "$v0");
    var s2 := CompileExpr(x.right, [], p1).value;
    CompileExprKeeps(x.right, [], p1);
    PushPopKeep(s2, "$t0");
    var r := EmitPop(s2, "$t0");
    assert r == CompileOperands(x, st).value;
    GrowsTransitive(s1, p1, s2);
    GrowsTransitive(s1, s2, r);
    GrowsTransitive(st, s1, r);
  }

  lemma ArithLinesNeutral(op: string)
    requires IsArithOp(op)
    ensures forall i :: 0 <= i < |ArithLines(op)| ==> LineEffect(ArithLines(op)[i]) == 0
  {
    var lines := ArithLines(op);
    if op == "+" {
      assert lines[0][3] == ' ';
    } else {
      Neutral(lines[0]);
      if |lines| == 2 {
        Neutral(lines[1]);
      }
    }
  }

  /** A compiled condition ends in a branch to its target label taken
      exactly when the condition is false, i.e. when Condition.eval is 0. */
  lemma ConditionBranchesWhenFalse(a: Expr, b: Expr, relop: string, target: string, st: EmitterState)
    requires CompileExpr(Condition(a, b, relop), [StringArg(target)], st).Ok?
    ensures var r := CompileExpr(Condition(a, b, relop), [StringArg(target)], st).value;
      && IsRelop(relop)
      && r.code[|r.code| - 1] == BranchLine(relop, target)
      && forall t0: int, v0: int ::
           BranchTaken(BranchMnemonic(relop), t0, v0) <==> Compare(relop, t0, v0) == 0
  {
  }

  /** A condition compiled without exactly one String argument throws
      before emitting anything; no other expression reads its arguments. */
  lemma ConditionNeedsTarget(x: Expr, args: seq<Arg>, st: EmitterState)
    ensures x.Condition? && !(|args| == 1 && args[0].StringArg?) ==>
      CompileExpr(x, args, st) == Err(IllegalArgument)
    ensures !x.Condition? ==> CompileExpr(x, args, st) == CompileExpr(x, [], st)
  {
  }

  /** The immediate of a compiled Number reads back, with Integer.parseInt,
      as the number itself. */
  lemma NumberImmediateReadsBack(v: int, st: EmitterState)
    requires InIntRange(v)
    ensures var r := CompileExpr(Number(v), [], st).value;
      var line := r.code[|r.code| - 1];
      && |r.code| == |st.code| + 1
      && StartsWith(line, "li $v0, ")
      && |line| >= 8 + |IntToString(v)|
      && ParseInt(line[8..8 + |IntToString(v)|]) == Ok(v)
  {
    var line := NumberLine(v);
    assert line[..8] == "li $v0, ";
    assert line[8..8 + |IntToString(v)|] == IntToString(v);
    ParseIntRoundTrip(v);
  }

  /** The label of a global's data word. */
  function DataLabel(name: string): string {
    "var" + name
  }

  /** A local name loads from the stack slot of that name; any other name
      through the address of the data word of the global of that name. */
  lemma VariableLoadsItsSlot(name: string, st: EmitterState)
    requires CompileVariable(name, st).Ok?
    ensures var r := CompileVariable(name, st).value;
      if IsLocal(st, name) == Ok(true) then
        && GetOffset(st, name).Ok?
        && r.code == st.code + [LocalLoadLine(GetOffset(st, name).value)]
        && (st.extraStack >= 1 ==>
             var p := st.context.value; var o := GetOffset(st, name).value;
             var j := o / 4 - (st.extraStack - 1);
             o % 4 == 0 && 0 <= j < |FrameSlots(p)| && SlotOf(p, FrameSlots(p)[j], name))
      else
        && r.code == st.code + ["la $t0, " + DataLabel(name), GlobalLoadLine]
        && DataWord(name) == DataLabel(name) + ": .word 0"
  {
    if IsLocal(st, name) == Ok(true) {
      if st.extraStack >= 1 {
        OffsetAddressesSlot(st, name);
      }
    } else {
      assert GlobalAddressLine(name) == "la $t0, " + DataLabel(name);
    }
  }

  // ---------------------------------------------------------------------
  // Statements
  // ---------------------------------------------------------------------

  /** What every statement's compile keeps: the procedure context, the drift
      between the push count and the listing, id counters that never go
      back, and a listing that only grows. */
  predicate StmtKept(st: EmitterState, r: EmitterState) {
    && r.context == st.context
    && r.loopID >= st.loopID
    && r.ifID >= st.ifID
    && Drift(r) == Drift(st)
    && Grows(st, r)
  }

  lemma StmtKeptTransitive(a: EmitterState, b: EmitterState, c: EmitterState)
    requires StmtKept(a, b) && StmtKept(b, c)
    ensures StmtKept(a, c)
  {
    GrowsTransitive(a, b, c);
  }

  lemma ExprKeptIsStmtKept(st: EmitterState, r: EmitterState)
    requires ExprKept(st, r)
    ensures StmtKept(st, r) && r.extraStack == st.extraStack
  {
  }

  lemma NeutralEmitStmtKept(st: EmitterState, line: string)
    requires |line| > 0 && line[0] != 'a'
    ensures StmtKept(st, Emit(st, line))
  {
    NeutralEmitKept(st, line);
  }

  lemma PushPopKept(st: EmitterState, reg: string)
    ensures StmtKept(st, EmitPush(st, reg)) && StmtKept(st, EmitPop(st, reg))
  {
    PushPopKeep(st, reg);
  }

  lemma {:induction false} CompileStmtKeeps(s: Stmt, loop: Option<LoopRef>, st: EmitterState)
    requires CompileStmt(s, loop, st).Ok?
    ensures StmtKept(st, CompileStmt(s, loop, st).value)
    decreases s, 1
  {
    var r := CompileStmt(s, loop, st).value;
    match s
    case Assign(a) =>
      AssignmentKeeps(a, st);
    case Block(ss) =>
      CompileBlockKeeps(ss, loop, st);
    case If(c, b) =>
      IfKeeps(c, b, loop, st);
    case IfElse(c, t, e) =>
      IfElseKeeps(c, t, e, loop, st);
    case For(a, e, b) =>
      CompileForKeeps(a, e, b, st);
    case Break =>
      var line := "j " + LoopEnd(loop.value) + "\t# break from the loop";
      assert line[0] == 'j';
      NeutralEmitStmtKept(st, line);
    case Continue =>
      var line := "j " + LoopTop(loop.value) + "\t# continue from the loop";
      assert line[0] == 'j';
      NeutralEmitStmtKept(st, line);
    case Exit =>
      CompileExitKeeps(st);
    case Writeln(x) =>
      var s1 := CompileExpr(x, [], st).value;
      CompileExprKeeps(x, [], st);
      WritelnTailNeutral();
      EmitAllKeeps(s1, WritelnTail);
      assert r == EmitAll(s1, WritelnTail);
      ExprKeptTransitive(st, s1, r);
  }

  lemma WritelnTailNeutral()
    ensures forall i :: 0 <= i < |WritelnTail| ==> LineEffect(WritelnTail[i]) == 0
  {
    forall i | 0 <= i < |WritelnTail|
      ensures LineEffect(WritelnTail[i]) == 0
    {
      Neutral(WritelnTail[i]);
    }
  }

  lemma AssignmentKeeps(a: Assignment, st: EmitterState)
    requires CompileAssignment(a, st).Ok?
    ensures ExprKept(st, CompileAssignment(a, st).value)
    ensures StmtKept(st, CompileAssignment(a, st).value)
  {
    var s1 := CompileExpr(a.exp, [], st).value;
    CompileExprKeeps(a.exp, [], st);
    var line := "sw $v0, var" + a.name + "\t# assign the variable";
    assert line[0] == 's';
    NeutralEmitKept(s1, line);
    ExprKeptTransitive(st, s1, Emit(s1, line));
  }

  lemma LabelNeutral(text: string)
    requires |text| > 0 && text[0] != 'a'
    ensures LineEffect(text + ":") == 0 && |text + ":"| > 0 && (text + ":")[0] != 'a'
  {
    Neutral(text + ":");
  }

  /** A condition and the statement after it, as If and IfElse compile them. */
  lemma {:induction false} GuardedKeeps(c: Expr, target: string, b: Stmt, loop: Option<LoopRef>, st: EmitterState)
    requires CompileExpr(c, [StringArg(target)], st).Ok?
    requires CompileStmt(b, loop, CompileExpr(c, [StringArg(target)], st).value).Ok?
    ensures StmtKept(st, CompileStmt(b, loop, CompileExpr(c, [StringArg(target)], st).value).value)
    decreases b, 2
  {
    var s1 := CompileExpr(c, [StringArg(target)], st).value;
    CompileExprKeeps(c, [StringArg(target)], st);
    ExprKeptIsStmtKept(st, s1);
    CompileStmtKeeps(b, loop, s1);
    StmtKeptTransitive(st, s1, CompileStmt(b, loop, s1).value);
  }

  lemma {:induction false} IfKeeps(c: Expr, b: Stmt, loop: Option<LoopRef>, st: EmitterState)
    requires CompileIf(c, b, loop, st).Ok?
    ensures StmtKept(st, CompileIf(c, b, loop, st).value)
    decreases If(c, b), 0
  {
    var s0 := NextIfID(st).1;
    var endLabel := "endif" + IntToString(st.ifID);
    GuardedKeeps(c, endLabel, b, loop, s0);
    var s2 := CompileStmt(b, loop, CompileExpr(c, [StringArg(endLabel)], s0).value).value;
    LabelNeutral(endLabel);
    NeutralEmitStmtKept(s2, endLabel + ":");
    assert StmtKept(st, s0);
    StmtKeptTransitive(st, s0, s2);
    StmtKeptTransitive(st, s2, CompileIf(c, b, loop, st).value);
  }

  lemma {:induction false} CompileElseKeeps(e: Stmt, loop: Option<LoopRef>, st: EmitterState, endLabel: string, elseLabel: string)
    requires |endLabel| > 0 && endLabel[0] != 'a' && |elseLabel| > 0 && elseLabel[0] != 'a'
    requires CompileElse(e, loop, st, endLabel, elseLabel).Ok?
    ensures StmtKept(st, CompileElse(e, loop, st, endLabel, elseLabel).value)
    decreases e, 2
  {
    var jump := "j " + endLabel + "\t# jump to end of if statement";
    assert jump[0] == 'j';
    NeutralEmitStmtKept(st, jump);
    LabelNeutral(elseLabel);
    NeutralEmitStmtKept(Emit(st, jump), elseLabel + ":");
    var s1 := Emit(Emit(st, jump), elseLabel + ":");
    var s2 := CompileStmt(e, loop, s1).value;
    CompileStmtKeeps(e, loop, s1);
    LabelNeutral(endLabel);
    NeutralEmitStmtKept(s2, endLabel + ":");
    StmtKeptTransitive(st, Emit(st, jump), s1);
    StmtKeptTransitive(st, s1, s2);
    StmtKeptTransitive(st, s2, Emit(s2, endLabel + ":"));
  }

  lemma {:induction false} IfElseKeeps(c: Expr, t: Stmt, e: Stmt, loop: Option<LoopRef>, st: EmitterState)
    requires CompileIfElse(c, t, e, loop, st).Ok?
    ensures StmtKept(st, CompileIfElse(c, t, e, loop, st).value)
    decreases IfElse(c, t, e), 0
  {
    var s1 := NextIfID(NextIfID(st).1).1;
    var endLabel := "endif" + IntToString(st.ifID);
    var elseLabel := "elseif" + IntToString(st.ifID + 1);
    GuardedKeeps(c, elseLabel, t, loop, s1);
    var s3 := CompileStmt(t, loop, CompileExpr(c, [StringArg(elseLabel)], s1).value).value;
    CompileElseKeeps(e, loop, s3, endLabel, elseLabel);
    assert StmtKept(st, s1);
    StmtKeptTransitive(st, s1, s3);
    StmtKeptTransitive(st, s3, CompileIfElse(c, t, e, loop, st).value);
  }

  /** The entry of For.compile leaves two words pushed. */
  lemma ForEntryKeeps(a: Assignment, e: Expr, st: EmitterState)
    requires ForEntry(a, e, st).Ok?
    ensures var r := ForEntry(a, e, st).value;
      StmtKept(st, r) && r.extraStack == st.extraStack + 2 && r.loopID == st.loopID && r.ifID == st.ifID
  {
    var s1 := CompileAssignment(DecrementExp(a), st).value;
    AssignmentKeeps(DecrementExp(a), st);
    var l1 := "lw $t1, var" + a.name + "\t# load the start variable into $t1";
    assert l1[0] == 'l';
    NeutralEmitStmtKept(s1, l1);
    PushPopKeep(Emit(s1, l1), "$t1");
    var s2 := EmitPush(Emit(s1, l1), "$t1");
    var l2 := "li $t2, " + IntToString(EvalNull(e).value) + "\t# load the end number into $t2";
    assert l2[0] == 'l';
    NeutralEmitStmtKept(s2, l2);
    PushPopKeep(Emit(s2, l2), "$t2");
    var r := EmitPush(Emit(s2, l2), "$t2");
    assert r == ForEntry(a, e, st).value;
    StmtKeptTransitive(st, s1, Emit(s1, l1));
    StmtKeptTransitive(st, Emit(s1, l1), s2);
    StmtKeptTransitive(st, s2, Emit(s2, l2));
    StmtKeptTransitive(st, Emit(s2, l2), r);
  }

  /** The loop test of For.compile pops two words and pushes them again. */
  lemma ForTestKeeps(name: string, loop: LoopRef, st: EmitterState)
    requires loop.kind == ForLoop
    ensures var r := ForTest(name, loop, st);
      StmtKept(st, r) && r.extraStack == st.extraStack && r.loopID == st.loopID && r.ifID == st.ifID
  {
    var top := LoopTop(loop);
    assert top[0] == 'f';
    LabelNeutral(top);
    NeutralEmitStmtKept(st, top + ":");
    var t0 := Emit(st, top + ":");
    PushPopKeep(t0, "$t2");
    PushPopKeep(EmitPop(t0, "$t2"), "$t1");
    var s1 := EmitPop(EmitPop(t0, "$t2"), "$t1");
    var lines := ForTestLines(name, loop);
    assert lines[0][4] == 'u';
    Neutral(lines[1]);
    Neutral(lines[2]);
    EmitAllKeeps(s1, lines);
    var s2 := EmitAll(s1, lines);
    PushPopKeep(s2, "$t1");
    PushPopKeep(EmitPush(s2, "$t1"), "$t2");
    var r := EmitPush(EmitPush(s2, "$t1"), "$t2");
    StmtKeptTransitive(st, t0, EmitPop(t0, "$t2"));
    StmtKeptTransitive(st, EmitPop(t0, "$t2"), s1);
    StmtKeptTransitive(st, s1, s2);
    StmtKeptTransitive(st, s2, EmitPush(s2, "$t1"));
    StmtKeptTransitive(st, EmitPush(s2, "$t1"), r);
  }

  /** Everything For.compile emits before the body: one loop id drawn and
      two words left pushed. */
  lemma ForHeaderKeeps(a: Assignment, e: Expr, st: EmitterState)
    requires ForEntry(a, e, NextLoopID(st).1).Ok?
    ensures var t := ForTest(a.name, LoopRef(ForLoop, st.loopID), ForEntry(a, e, NextLoopID(st).1).value);
      StmtKept(st, t) && t.extraStack == st.extraStack + 2 && t.loopID == st.loopID + 1 && t.ifID == st.ifID
  {
    var s0 := NextLoopID(st).1;
    var s1 := ForEntry(a, e, s0).value;
    ForEntryKeeps(a, e, s0);
    ForTestKeeps(a.name, LoopRef(ForLoop, st.loopID), s1);
    assert StmtKept(st, s0);
    StmtKeptTransitive(st, s0, s1);
    StmtKeptTransitive(st, s1, ForTest(a.name, LoopRef(ForLoop, st.loopID), s1));
  }

  lemma {:induction false} CompileForKeeps(a: Assignment, e: Expr, b: Stmt, st: EmitterState)
    requires CompileFor(a, e, b, st).Ok?
    ensures StmtKept(st, CompileFor(a, e, b, st).value)
    decreases For(a, e, b), 0
  {
    var loop := LoopRef(ForLoop, st.loopID);
    ForHeaderKeeps(a, e, st);
    var t := ForTest(a.name, loop, ForEntry(a, e, NextLoopID(st).1).value);
    assert CompileForBody(a.name, b, loop, ForEntry(a, e, NextLoopID(st).1).value).Ok?;
    var s2 := CompileStmt(b, Some(loop), t).value;
    CompileStmtKeeps(b, Some(loop), t);
    ForCloseKeeps(loop, s2);
    StmtKeptTransitive(st, t, s2);
    StmtKeptTransitive(st, s2, CompileFor(a, e, b, st).value);
  }

  lemma ForCloseKeeps(loop: LoopRef, st: EmitterState)
    ensures StmtKept(st, ForClose(loop, st)) && ForClose(loop, st).extraStack == st.extraStack
  {
    var back := "j " + LoopTop(loop) + "\t# repeat the for loop";
    assert back[0] == 'j';
    NeutralEmitStmtKept(st, back);
    var term := LoopEnd(loop);
    assert term[0] == 't';
    LabelNeutral(term);
    NeutralEmitStmtKept(Emit(st, back), term + ":");
    StmtKeptTransitive(st, Emit(st, back), ForClose(loop, st));
  }

  lemma {:induction false} CompileBlockKeeps(ss: seq<Stmt>, loop: Option<LoopRef>, st: EmitterState)
    requires CompileBlock(ss, loop, st).Ok?
    ensures StmtKept(st, CompileBlock(ss, loop, st).value)
    decreases ss, 0
  {
    if ss != [] {
      var s1 := CompileStmt(ss[0], loop, st).value;
      CompileStmtKeeps(ss[0], loop, st);
      CompileBlockKeeps(ss[1..], loop, s1);
      StmtKeptTransitive(st, s1, CompileBlock(ss, loop, st).value);
    }
  }

  /** Exit.compile outside a procedure is one jump to the program's exit;
      inside one it pops $ra, each local and the return slot: the push count
      falls by the locals plus two. */
  lemma CompileExitKeeps(st: EmitterState)
    ensures StmtKept(st, CompileExit(st))
    ensures st.context.None? ==>
      CompileExit(st).code == st.code + ["j program_exit" + "\t# exit from the current routine"] &&
      CompileExit(st).extraStack == st.extraStack
    ensures st.context.Some? ==>
      CompileExit(st).extraStack == st.extraStack - |st.context.value.locals| - 2 &&
      CompileExit(st).code[|CompileExit(st).code| - 1] == "jr $ra\t# return"
  {
    var r := CompileExit(st);
    if st.context.None? {
      var line := "j program_exit" + "\t# exit from the current routine";
      assert line[0] == 'j';
      NeutralEmitStmtKept(st, line);
    } else {
      var s0 := EmitPop(st, "$ra");
      PushPopKept(st, "$ra");
      var s1 := PopTimes(s0, "$v0", |st.context.value.locals|);
      PopTimesKeeps(s0, "$v0", |st.context.value.locals|);
      assert StmtKept(s0, s1);
      PushPopKept(s1, "$v0");
      var line := "jr $ra\t# return";
      assert line[0] == 'j';
      NeutralEmitStmtKept(EmitPop(s1, "$v0"), line);
      StmtKeptTransitive(st, s0, s1);
      StmtKeptTransitive(st, s1, EmitPop(s1, "$v0"));
      StmtKeptTransitive(st, EmitPop(s1, "$v0"), r);
    }
  }

  // ---------------------------------------------------------------------
  // Labels
  // ---------------------------------------------------------------------

  /** Numbered labels with one prefix are equal only for equal numbers. */
  lemma LabelsDistinct(prefix: string, a: int, b: int)
    requires a >= 0 && b >= 0
    ensures prefix + IntToString(a) == prefix + IntToString(b) <==> a == b
  {
    NumberedLabelInjective(prefix, a, b);
  }

  /** An If draws one if id and ends with its end label, the label its
      condition branches to; later ids are larger. */
  lemma IfLabels(c: Expr, b: Stmt, loop: Option<LoopRef>, st: EmitterState)
    requires CompileIf(c, b, loop, st).Ok?
    ensures var r := CompileIf(c, b, loop, st).value;
      && r.ifID > st.ifID
      && r.code[|r.code| - 1] == "endif" + IntToString(st.ifID) + ":"
  {
    var s0 := NextIfID(st).1;
    var endLabel := "endif" + IntToString(st.ifID);
    GuardedKeeps(c, endLabel, b, loop, s0);
  }

  /** The rest of an IfElse: the jump over the else branch, the else
      label right after it, then the else branch and the end label. */
  lemma ElseLabels(e: Stmt, loop: Option<LoopRef>, st: EmitterState, endLabel: string, elseLabel: string)
    requires |endLabel| > 0 && endLabel[0] != 'a' && |elseLabel| > 0 && elseLabel[0] != 'a'
    requires CompileElse(e, loop, st, endLabel, elseLabel).Ok?
    ensures var r := CompileElse(e, loop, st, endLabel, elseLabel).value;
      && StmtKept(st, r)
      && |r.code| > |st.code| + 1
      && r.code[|st.code| + 1] == elseLabel + ":"
      && r.code[|r.code| - 1] == endLabel + ":"
  {
    CompileElseKeeps(e, loop, st, endLabel, elseLabel);
    var s1 := Emit(Emit(st, "j " + endLabel + "\t# jump to end of if statement"), elseLabel + ":");
    CompileStmtKeeps(e, loop, s1);
    var s2 := CompileStmt(e, loop, s1).value;
    assert s2.code[..|s1.code|] == s1.code;
    assert s2.code[|st.code| + 1] == s1.code[|st.code| + 1];
  }

  /** An IfElse draws two consecutive if ids, the end label's first, and
      ends with the end label; the else label is placed inside its listing. */
  lemma IfElseLabels(c: Expr, t: Stmt, e: Stmt, loop: Option<LoopRef>, st: EmitterState)
    requires CompileIfElse(c, t, e, loop, st).Ok?
    ensures var r := CompileIfElse(c, t, e, loop, st).value;
      && r.ifID > st.ifID + 1
      && |r.code| > |st.code|
      && r.code[|r.code| - 1] == "endif" + IntToString(st.ifID) + ":"
      && exists j :: |st.code| <= j < |r.code| && r.code[j] == "elseif" + IntToString(st.ifID + 1) + ":"
  {
    var endLabel := "endif" + IntToString(st.ifID);
    var elseLabel := "elseif" + IntToString(st.ifID + 1);
    var s1, s3 := IfElsePieces(c, t, e, loop, st);
    GuardedKeeps(c, elseLabel, t, loop, s1);
    ElseLabels(e, loop, s3, endLabel, elseLabel);
    StmtKeptTransitive(s1, s3, CompileIfElse(c, t, e, loop, st).value);
    var j := |s3.code| + 1;
    assert |st.code| <= j;
  }

  /** The states an IfElse's listing passes through: after drawing its two
      ids, and after the condition and the then branch. */
  lemma IfElsePieces(c: Expr, t: Stmt, e: Stmt, loop: Option<LoopRef>, st: EmitterState) returns (s1: EmitterState, s3: EmitterState)
    requires CompileIfElse(c, t, e, loop, st).Ok?
    ensures s1 == st.(ifID := st.ifID + 2)
    ensures CompileExpr(c, [StringArg("elseif" + IntToString(st.ifID + 1))], s1).Ok?
    ensures CompileStmt(t, loop, CompileExpr(c, [StringArg("elseif" + IntToString(st.ifID + 1))], s1).value) == Ok(s3)
    ensures CompileIfElse(c, t, e, loop, st) ==
      CompileElse(e, loop, s3, "endif" + IntToString(st.ifID), "elseif" + IntToString(st.ifID + 1))
  {
    s1 := NextIfID(NextIfID(st).1).1;
    var elseLabel := "elseif" + IntToString(st.ifID + 1);
    s3 := CompileStmt(t, loop, CompileExpr(c, [StringArg(elseLabel)], s1).value).value;
  }

  /** A For draws one loop id; its listing holds the loop's top label, where
      Continue jumps, and ends with the loop's end label, where Break jumps. */
  lemma ForLabels(a: Assignment, e: Expr, b: Stmt, st: EmitterState)
    requires CompileFor(a, e, b, st).Ok?
    ensures var loop := LoopRef(ForLoop, st.loopID); var r := CompileFor(a, e, b, st).value;
      && r.loopID > st.loopID
      && |r.code| > |st.code|
      && r.code[|r.code| - 1] == LoopEnd(loop) + ":"
      && exists j :: |st.code| <= j < |r.code| && r.code[j] == LoopTop(loop) + ":"
  {
    var loop := LoopRef(ForLoop, st.loopID);
    var s1, t, s2 := ForPieces(a, e, b, st);
    ForHeaderKeeps(a, e, st);
    ForEntryKeeps(a, e, NextLoopID(st).1);
    CompileStmtKeeps(b, Some(loop), t);
    ForCloseKeeps(loop, s2);
    var r := ForClose(loop, s2);
    var j := |s1.code|;
    ForTestStartsWithLabel(a.name, loop, s1);
    GrowsTransitive(t, s2, r);
    assert r.code[..|t.code|] == t.code;
    assert r.code[j] == t.code[j];
  }

  /** The states a For's listing passes through: after the entry code, after
      the test, and after the body. */
  lemma ForPieces(a: Assignment, e: Expr, b: Stmt, st: EmitterState) returns (s1: EmitterState, t: EmitterState, s2: EmitterState)
    requires CompileFor(a, e, b, st).Ok?
    ensures ForEntry(a, e, NextLoopID(st).1) == Ok(s1)
    ensures t == ForTest(a.name, LoopRef(ForLoop, st.loopID), s1)
    ensures CompileStmt(b, Some(LoopRef(ForLoop, st.loopID)), t) == Ok(s2)
    ensures CompileFor(a, e, b, st) == Ok(ForClose(LoopRef(ForLoop, st.loopID), s2))
  {
    var loop := LoopRef(ForLoop, st.loopID);
    s1 := ForEntry(a, e, NextLoopID(st).1).value;
    t := ForTest(a.name, loop, s1);
    assert CompileForBody(a.name, b, loop, s1).Ok?;
    s2 := CompileStmt(b, Some(loop), t).value;
  }

  lemma ForTestStartsWithLabel(name: string, loop: LoopRef, st: EmitterState)
    ensures var t := ForTest(name, loop, st);
      |t.code| > |st.code| && t.code[|st.code|] == LoopTop(loop) + ":"
  {
    var t0 := Emit(st, LoopTop(loop) + ":");
    PushPopKeep(t0, "$t2");
    PushPopKeep(EmitPop(t0, "$t2"), "$t1");
    var s1 := EmitPop(EmitPop(t0, "$t2"), "$t1");
    GrowsTransitive(t0, EmitPop(t0, "$t2"), s1);
    var lines := ForTestLines(name, loop);
    assert lines[0][4] == 'u';
    Neutral(lines[1]);
    Neutral(lines[2]);
    EmitAllKeeps(s1, ForTestLines(name, loop));
    var s2 := EmitAll(s1, ForTestLines(name, loop));
    PushPopKeep(s2, "$t1");
    PushPopKeep(EmitPush(s2, "$t1"), "$t2");
    GrowsTransitive(s1, s2, EmitPush(s2, "$t1"));
    GrowsTransitive(s1, EmitPush(s2, "$t1"), ForTest(name, loop, st));
    GrowsTransitive(t0, s1, ForTest(name, loop, st));
    assert ForTest(name, loop, st).code[..|t0.code|] == t0.code;
  }

  /** Two Ifs in a row get different end labels. */
  lemma SuccessiveIfsDistinct(c1: Expr, b1: Stmt, c2: Expr, b2: Stmt, loop: Option<LoopRef>, st: EmitterState)
    requires st.ifID >= 0
    requires CompileIf(c1, b1, loop, st).Ok?
    requires CompileIf(c2, b2, loop, CompileIf(c1, b1, loop, st).value).Ok?
    ensures var r1 := CompileIf(c1, b1, loop, st).value; var r2 := CompileIf(c2, b2, loop, r1).value;
      r1.code[|r1.code| - 1] != r2.code[|r2.code| - 1]
  {
    var r1 := CompileIf(c1, b1, loop, st).value;
    IfLabels(c1, b1, loop, st);
    IfLabels(c2, b2, loop, r1);
    LabelsDistinct("endif", st.ifID, r1.ifID);
    var l1 := "endif" + IntToString(st.ifID);
    var l2 := "endif" + IntToString(r1.ifID);
    assert (l1 + ":")[..|l1|] == l1 && (l2 + ":")[..|l2|] == l2;
  }

  // ---------------------------------------------------------------------
  // The stack across a For loop
  // ---------------------------------------------------------------------

  /** Statements whose code leaves the push count as it found it. */
  predicate Straight(s: Stmt) {
    match s
    case Assign(_) => true
    case Writeln(_) => true
    case Break => true
    case Continue => true
    case Block(ss) => forall i :: 0 <= i < |ss| ==> Straight(ss[i])
    case If(_, b) => Straight(b)
    case IfElse(_, t, e) => Straight(t) && Straight(e)
    case _ => false
  }

  lemma {:induction false} StraightKeepsCount(s: Stmt, loop: Option<LoopRef>, st: EmitterState)
    requires Straight(s) && CompileStmt(s, loop, st).Ok?
    ensures CompileStmt(s, loop, st).value.extraStack == st.extraStack
    decreases s, 1
  {
    match s
    case Assign(a) => AssignmentKeeps(a, st);
    case Writeln(x) =>
      CompileExprKeeps(x, [], st);
      EmitAllKeeps(CompileExpr(x, [], st).value, WritelnTail);
    case Break =>
    case Continue =>
    case Block(ss) => StraightBlockKeepsCount(ss, loop, st);
    case If(c, b) =>
      var s0 := NextIfID(st).1;
      var endLabel := "endif" + IntToString(st.ifID);
      assert CompileGuarded(c, endLabel, b, loop, s0).Ok?;
      CompileExprKeeps(c, [StringArg(endLabel)], s0);
      StraightKeepsCount(b, loop, CompileExpr(c, [StringArg(endLabel)], s0).value);
    case IfElse(c, t, e) =>
      StraightIfElseKeepsCount(c, t, e, loop, st);
  }

  lemma {:induction false} StraightIfElseKeepsCount(c: Expr, t: Stmt, e: Stmt, loop: Option<LoopRef>, st: EmitterState)
    requires Straight(t) && Straight(e) && CompileIfElse(c, t, e, loop, st).Ok?
    ensures CompileIfElse(c, t, e, loop, st).value.extraStack == st.extraStack
    decreases IfElse(c, t, e), 0
  {
    var s1 := NextIfID(NextIfID(st).1).1;
    var endLabel := "endif" + IntToString(st.ifID);
    var elseLabel := "elseif" + IntToString(st.ifID + 1);
    CompileExprKeeps(c, [StringArg(elseLabel)], s1);
    var s2 := CompileExpr(c, [StringArg(elseLabel)], s1).value;
    StraightKeepsCount(t, loop, s2);
    var s3 := CompileStmt(t, loop, s2).value;
    var e1 := Emit(Emit(s3, "j " + endLabel + "\t# jump to end of if statement"), elseLabel + ":");
    StraightKeepsCount(e, loop, e1);
  }

  lemma {:induction false} StraightBlockKeepsCount(ss: seq<Stmt>, loop: Option<LoopRef>, st: EmitterState)
    requires (forall i :: 0 <= i < |ss| ==> Straight(ss[i])) && CompileBlock(ss, loop, st).Ok?
    ensures CompileBlock(ss, loop, st).value.extraStack == st.extraStack
    decreases ss, 0
  {
    if ss != [] {
      StraightKeepsCount(ss[0], loop, st);
      assert forall i :: 0 <= i < |ss[1..]| ==> Straight(ss[1..][i]) by {
        forall i | 0 <= i < |ss[1..]| ensures Straight(ss[1..][i]) {
          assert ss[1..][i] == ss[i + 1];
        }
      }
      StraightBlockKeepsCount(ss[1..], loop, CompileStmt(ss[0], loop, st).value);
    }
  }

  /** As written, For.compile leaves the push count two words higher than
      it found it, even around a body that pushes nothing: the two pushes
      after the loop test are counted, while the pops that balance them at
      run time were emitted before, at the loop's label. Inside a procedure
      every offset computed after the loop is then eight bytes too large. */
  lemma ForLeavesTwoWordsCounted(a: Assignment, e: Expr, b: Stmt, st: EmitterState)
    requires Straight(b) && CompileFor(a, e, b, st).Ok?
    ensures CompileFor(a, e, b, st).value.extraStack == st.extraStack + 2
  {
    var loop := LoopRef(ForLoop, st.loopID);
    ForHeaderKeeps(a, e, st);
    var t := ForTest(a.name, loop, ForEntry(a, e, NextLoopID(st).1).value);
    assert CompileForBody(a.name, b, loop, ForEntry(a, e, NextLoopID(st).1).value).Ok?;
    StraightKeepsCount(b, Some(loop), t);
    ForCloseKeeps(loop, CompileStmt(b, Some(loop), t).value);
  }

  // ---------------------------------------------------------------------
  // Procedures
  // ---------------------------------------------------------------------

  lemma {:induction false} PushNullsKeeps(st: EmitterState, k: nat)
    ensures var r := PushNulls(st, k);
      Drift(r) == Drift(st) && Grows(st, r) && r.extraStack == st.extraStack + k &&
      r.(code := st.code, extraStack := st.extraStack) == st
    decreases k
  {
    if k > 0 {
      var line := "move $v0, $t0\t# load null into local variable";
      assert line == "move" + " $v0, $t0\t# load null into local variable";
      assert line[0] == 'm';
      Neutral(line);
      EmitKeeps(st, line);
      PushPopKeep(Emit(st, line), "$v0");
      var s1 := EmitPush(Emit(st, line), "$v0");
      GrowsTransitive(st, Emit(st, line), s1);
      PushNullsKeeps(s1, k - 1);
      GrowsTransitive(st, s1, PushNulls(st, k));
    }
  }

  /** The prologue pushes the return slot, one slot per local declaration
      and $ra, and leaves exactly what getOffset assumes: the procedure as
      context and one word ($ra) counted since it was set. */
  lemma PrologueFrame(p: ProcedureDeclaration, st: EmitterState)
    ensures var q := Prologue(p, st);
      && q.context == Some(p) && q.extraStack == 1
      && q.loopID == st.loopID && q.ifID == st.ifID
      && Grows(st, q)
      && |q.code| > |st.code|
      && q.code[|st.code|] == "proc" + p.id + ":"
      && StackEffect(q.code) == StackEffect(st.code) + |p.locals| + 2
  {
    var l1 := "proc" + p.id + ":";
    var l2 := "la $t0, null";
    var l3 := "move $v0, $t0\t# load null into $v0";
    Neutral(l1);
    Neutral(l3);
    assert l2[1] == 'a';
    EmitKeeps(st, l1);
    EmitKeeps(Emit(st, l1), l2);
    var s1 := Emit(Emit(st, l1), l2);
    GrowsTransitive(st, Emit(st, l1), s1);
    EmitKeeps(s1, l3);
    PushPopKeep(Emit(s1, l3), "$v0");
    var s2 := EmitPush(Emit(s1, l3), "$v0");
    GrowsTransitive(s1, Emit(s1, l3), s2);
    GrowsTransitive(st, s1, s2);
    PushNullsKeeps(s2, |p.locals|);
    var s3 := PushNulls(s2, |p.locals|);
    GrowsTransitive(st, s2, s3);
    var c := SetProcedureContext(s3, p);
    PushPopKeep(c, "$ra");
    var q := EmitPush(c, "$ra");
    GrowsTransitive(st, c, q);
    assert q.code[..|st.code|] == st.code;
    assert q.code[|st.code|] == q.code[..|Emit(st, l1).code|][|st.code|];
  }

  /** The epilogue pops $ra, the local slots and the return slot. */
  lemma EpilogueFrame(p: ProcedureDeclaration, st: EmitterState)
    ensures var r := Epilogue(p, st);
      && r.context == None
      && Grows(st, r)
      && |r.code| > 0
      && r.code[|r.code| - 1] == "jr $ra\t# return"
      && StackEffect(r.code) == StackEffect(st.code) - |p.locals| - 2
  {
    var s0 := EmitPop(st, "$ra");
    PushPopKeep(st, "$ra");
    PopTimesKeeps(s0, "$v0", |p.locals|);
    var s1 := PopTimes(s0, "$v0", |p.locals|);
    PushPopKeep(s1, "$v0");
    var line := "jr $ra\t# return";
    Neutral(line);
    EmitKeeps(EmitPop(s1, "$v0"), line);
    GrowsTransitive(st, s0, s1);
    GrowsTransitive(st, s1, EmitPop(s1, "$v0"));
    GrowsTransitive(st, EmitPop(s1, "$v0"), Epilogue(p, st));
  }

  /** Exit inside a procedure emits the return sequence of the procedure's
      own end. */
  lemma ExitIsEpilogue(p: ProcedureDeclaration, st: EmitterState)
    requires st.context == Some(p)
    ensures ClearProcedureContext(CompileExit(st)) == Epilogue(p, st)
  {
  }

  /** A procedure's listing starts with its label and ends with the
      return; its body is compiled with the procedure as context, and the
      epilogue pops exactly the words the prologue pushed, so the whole
      listing has the stack effect of the body alone. The context is
      cleared afterwards. */
  lemma ProcedureBalanced(p: ProcedureDeclaration, st: EmitterState)
    requires CompileProcedure(p, st).Ok?
    ensures var q := Prologue(p, st); var b := CompileStmt(p.body, None, q).value;
      var r := CompileProcedure(p, st).value;
      && b.context == Some(p)
      && r.context == None
      && Grows(st, r)
      && |r.code| > |st.code|
      && r.code[|st.code|] == "proc" + p.id + ":"
      && r.code[|r.code| - 1] == "jr $ra\t# return"
      && StackEffect(r.code) - StackEffect(st.code) == StackEffect(b.code) - StackEffect(q.code)
  {
    var q := Prologue(p, st);
    PrologueFrame(p, st);
    var b := CompileStmt(p.body, None, q).value;
    CompileStmtKeeps(p.body, None, q);
    EpilogueFrame(p, b);
    var r := Epilogue(p, b);
    GrowsTransitive(st, q, b);
    GrowsTransitive(st, b, r);
    assert r.code[..|q.code|] == q.code by {
      GrowsTransitive(q, b, r);
    }
    assert r.code[|st.code|] == q.code[|st.code|];
  }

  // ---------------------------------------------------------------------
  // Declarations and the program
  // ---------------------------------------------------------------------

  /** The data words of some names, the last name's first. */
  function DataWords(names: seq<string>): seq<string> {
    if names == [] then [] else [DataWord(names[|names| - 1])] + DataWords(names[..|names| - 1])
  }

  lemma {:induction false} DataWordsAt(names: seq<string>, i: nat)
    requires i < |names|
    ensures |DataWords(names)| == |names| && DataWords(names)[i] == DataWord(names[|names| - 1 - i])
    decreases |names|
  {
    DataWordsLength(names);
    if i > 0 {
      DataWordsAt(names[..|names| - 1], i - 1);
    }
  }

  lemma {:induction false} DataWordsLength(names: seq<string>)
    ensures |DataWords(names)| == |names|
    decreases |names|
  {
    if names != [] {
      DataWordsLength(names[..|names| - 1]);
    }
  }

  lemma {:induction false} DataWordsAppend(a: seq<string>, b: seq<string>)
    ensures DataWords(a + b) == DataWords(b) + DataWords(a)
    decreases |b|
  {
    if b == [] {
      assert a + b == a;
    } else {
      assert (a + b)[..|a + b| - 1] == a + b[..|b| - 1];
      DataWordsAppend(a, b[..|b| - 1]);
    }
  }

  /** A declaration puts the data words of its names in front of the
      listing, the last name's first, and changes nothing else. */
  lemma {:induction false} DeclarationPrepends(names: seq<string>, st: EmitterState)
    ensures CompileVariableDeclaration(names, st) == st.(code := DataWords(names) + st.code)
    decreases |names|
  {
    if names != [] {
      DeclarationPrepends(names[..|names| - 1], st);
    }
  }

  lemma {:induction false} DeclarationsPrepend(ds: seq<VariableDeclaration>, st: EmitterState)
    ensures CompileVariableDeclarations(ds, st) == st.(code := DataWords(AllNames(ds)) + st.code)
    decreases |ds|
  {
    if ds != [] {
      var init := ds[..|ds| - 1];
      DeclarationsPrepend(init, st);
      DeclarationPrepends(ds[|ds| - 1].names, CompileVariableDeclarations(init, st));
      DataWordsAppend(AllNames(init), ds[|ds| - 1].names);
    }
  }

  /** The main body and the exit and error block after the text header. */
  lemma MainSection(p: Program)
    requires CompileStmt(p.main, None, EmitAll(NewEmitter, TextHeader)).Ok?
    ensures var e := EmitAll(CompileStmt(p.main, None, EmitAll(NewEmitter, TextHeader)).value, ExitAndErrorBlock);
      |e.code| >= 3 && e.code[..3] == TextHeader && e.context == None
  {
    var s0 := EmitAll(NewEmitter, TextHeader);
    assert s0.code == TextHeader;
    var s1 := CompileStmt(p.main, None, s0).value;
    CompileStmtKeeps(p.main, None, s0);
    Neutral(ExitAndErrorBlock[1]);
    Neutral(ExitAndErrorBlock[4]);
    EmitAllKeeps(s1, ExitAndErrorBlock);
    GrowsTransitive(s0, s1, EmitAll(s1, ExitAndErrorBlock));
  }

  /** The text section: the header, the main body, the exit and error
      block, then the procedures, with no context left set. */
  lemma TextSection(p: Program)
    requires CompileStmt(p.main, None, EmitAll(NewEmitter, TextHeader)).Ok?
    requires CompileProcedures(p.procDecls, EmitAll(CompileStmt(p.main, None, EmitAll(NewEmitter, TextHeader)).value, ExitAndErrorBlock)).Ok?
    ensures var s2 := CompileProcedures(p.procDecls, EmitAll(CompileStmt(p.main, None, EmitAll(NewEmitter, TextHeader)).value, ExitAndErrorBlock)).value;
      |s2.code| >= 3 && s2.code[..3] == TextHeader && s2.context == None
  {
    var e := EmitAll(CompileStmt(p.main, None, EmitAll(NewEmitter, TextHeader)).value, ExitAndErrorBlock);
    MainSection(p);
    ProceduresGrow(p.procDecls, e);
    var s2 := CompileProcedures(p.procDecls, e).value;
    assert s2.code[..3] == s2.code[..|e.code|][..3];
  }

  lemma PrependDataHeader(st: EmitterState)
    ensures Prepend(Prepend(Prepend(Prepend(st, DataHeader[3]), DataHeader[2]), DataHeader[1]), DataHeader[0])
      == st.(code := DataHeader + st.code)
  {
  }

  /** The compiled program opens with the data section, the fixed words and
      then one word per declared variable, followed by the text section's
      header and the main body; a wrong file argument throws. */
  lemma ProgramLayout(p: Program, args: seq<Arg>)
    ensures !(|args| == 1 && args[0].StringArg?) ==> CompileProgram(p, args) == Err(IllegalArgument)
    ensures CompileProgram(p, args).Ok? ==>
      var r := CompileProgram(p, args).value; var k := |AllNames(p.varDecls)|;
      && |r.code| >= 7 + k
      && r.code[..4] == DataHeader
      && r.code[4..4 + k] == DataWords(AllNames(p.varDecls))
      && r.code[4 + k..7 + k] == TextHeader
      && r.context == None
  {
    if CompileProgram(p, args).Ok? {
      TextSection(p);
      var s2 := CompileProcedures(p.procDecls, EmitAll(CompileStmt(p.main, None, EmitAll(NewEmitter, TextHeader)).value, ExitAndErrorBlock)).value;
      DeclarationsPrepend(p.varDecls, s2);
      var s3 := CompileVariableDeclarations(p.varDecls, s2);
      PrependDataHeader(s3);
      DataWordsLength(AllNames(p.varDecls));
      var words := DataWords(AllNames(p.varDecls));
      var r := CompileProgram(p, args).value;
      assert r.code == DataHeader + (words + s2.code);
    }
  }

  lemma {:induction false} ProceduresGrow(ps: seq<ProcedureDeclaration>, st: EmitterState)
    requires CompileProcedures(ps, st).Ok?
    ensures Grows(st, CompileProcedures(ps, st).value)
    ensures st.context == None ==> CompileProcedures(ps, st).value.context == None
    decreases |ps|
  {
    if ps != [] {
      ProcedureBalanced(ps[0], st);
      var s1 := CompileProcedure(ps[0], st).value;
      ProceduresGrow(ps[1..], s1);
      GrowsTransitive(st, s1, CompileProcedures(ps, st).value);
    }
  }

  /** Blocks compile piecewise: the listing of `a + b` is that of `a` then
      that of `b`. */
  lemma {:induction false} CompileBlockAppend(a: seq<Stmt>, b: seq<Stmt>, loop: Option<LoopRef>, st: EmitterState)
    ensures CompileBlock(a + b, loop, st) ==
      match CompileBlock(a, loop, st)
      case Ok(s1) => CompileBlock(b, loop, s1)
      case Err(x) => Err(x)
    decreases |a|
  {
    if a == [] {
      assert a + b == b;
    } else {
      assert (a + b)[0] == a[0] && (a + b)[1..] == a[1..] + b;
      var first := CompileStmt(a[0], loop, st);
      if first.Ok? {
        CompileBlockAppend(a[1..], b, loop, first.value);
      }
    }
  }
}
