/** Properties of the interpreter semantics. */
module SemanticsProperties {
  import opened Base
  import opened Ast
  import opened Environments
  import opened Semantics

  // ---------------------------------------------------------------------
  // Expressions
  // ---------------------------------------------------------------------

  /** Condition.eval yields 1 exactly when the relation holds of its
      operands and 0 otherwise; an unknown relational operator throws
      before any operand is evaluated. */
  lemma ConditionIsBoolean(l: Expr, r: Expr, op: string, env: Env, fuel: nat)
    requires fuel > 0
    ensures var v := Eval(Condition(l, r, op), env, fuel);
      var (ab, _) := EvalOperands(l, r, env, fuel - 1);
      (v.result.Ok? ==> v.result.value == 0 || v.result.value == 1) &&
      (!IsRelop(op) ==> v == Value(Err(IllegalArgument), [])) &&
      (IsRelop(op) ==> (v.result == Ok(1) <==> ab.Ok? && Holds(op, ab.value.0, ab.value.1)))
  {
  }

  /** `/` and `mod` of the same operands obey Java's division law: both
      throw on a zero divisor, and otherwise quotient times divisor plus
      remainder is the dividend, with the remainder smaller than the divisor
      and of the dividend's sign. */
  lemma DivModAgree(l: Expr, r: Expr, env: Env, fuel: nat)
    requires fuel > 0
    ensures var (ab, _) := EvalOperands(l, r, env, fuel - 1);
      var q := Eval(BinOp(l, r, "/"), env, fuel).result;
      var m := Eval(BinOp(l, r, "mod"), env, fuel).result;
      (q.Ok? <==> m.Ok?) &&
      (ab.Ok? && ab.value.1 == 0 ==> q == Err(Arithmetic) && m == Err(Arithmetic)) &&
      (q.Ok? ==> ab.Ok? && q.value * ab.value.1 + m.value == ab.value.0 &&
                 Abs(m.value) < Abs(ab.value.1) && (m.value == 0 || (m.value < 0 <==> ab.value.0 < 0)))
  {
    var (ab, _) := EvalOperands(l, r, env, fuel - 1);
    if ab.Ok? && ab.value.1 != 0 {
      JavaDivRem(ab.value.0, ab.value.1);
    }
  }

  /** Assignment.decrementExp: the rewritten expression prints what the
      original prints and yields one less, or throws what it throws. */
  lemma DecrementYieldsOneLess(a: Assignment, env: Env, fuel: nat)
    requires fuel > 0
    ensures var v := Eval(a.exp, env, fuel);
      var d := Eval(DecrementExp(a).exp, env, fuel + 1);
      d.out == v.out && d.result == if v.result.Ok? then Ok(v.result.value - 1) else v.result
  {
    var v := Eval(a.exp, env, fuel);
    assert Eval(Number(1), env, fuel) == Value(Ok(1), []);
    assert v.out + [] == v.out;
  }

  /** The compile-time evaluation in a null environment agrees with the
      interpreter whenever it succeeds. */
  lemma {:induction false} EvalNullAgrees(x: Expr, env: Env, fuel: nat)
    requires EvalNull(x).Ok?
    requires fuel > Height(x)
    ensures Eval(x, env, fuel) == Value(EvalNull(x), [])
  {
    match x
    case Number(_) =>
    case BinOp(l, r, op) =>
      EvalNullAgrees(l, env, fuel - 1);
      EvalNullAgrees(r, env, fuel - 1);
    case Condition(l, r, op) =>
      EvalNullAgrees(l, env, fuel - 1);
      EvalNullAgrees(r, env, fuel - 1);
  }

  // ---------------------------------------------------------------------
  // What an execution may change
  // ---------------------------------------------------------------------

  /** The names a statement may store into, syntactically. */
  predicate Writes(s: Stmt, n: string) {
    match s
    case Assign(a) => a.name == n
    case Block(ss) => exists i :: 0 <= i < |ss| && Writes(ss[i], n)
    case If(_, b) => Writes(b, n)
    case IfElse(_, t, e) => Writes(t, n) || Writes(e, n)
    case While(_, b) => Writes(b, n)
    case For(a, _, b) => a.name == n || Writes(b, n)
    case _ => false
  }

  /** A Break that is not inside a loop of the statement itself. */
  predicate EscapingBreak(s: Stmt) {
    match s
    case Break => true
    case Block(ss) => exists i :: 0 <= i < |ss| && EscapingBreak(ss[i])
    case If(_, b) => EscapingBreak(b)
    case IfElse(_, t, e) => EscapingBreak(t) || EscapingBreak(e)
    case _ => false
  }

  /** The binding of a name in one scope: absent, null, or a value. */
  function BindingOf(env: Env, n: string): Option<Option<int>> {
    if n in env.symtab then Some(env.symtab[n]) else None
  }

  /** What every execution keeps: the parent link and the procedure table
      are untouched, and the loop depth is restored unless an Exit or an
      exception cut a loop short. */
  predicate Keeps(env: Env, st: State) {
    && st.env.parent == env.parent
    && st.env.procedures == env.procedures
    && (st.outcome.Done? && st.outcome.signal != ExitSignal ==> st.env.loopDepth == env.loopDepth)
  }

  lemma {:induction false} ExecKeeps(s: Stmt, env: Env, fuel: nat, n: string)
    ensures Keeps(env, Exec(s, env, fuel))
    ensures !Writes(s, n) ==> BindingOf(Exec(s, env, fuel).env, n) == BindingOf(env, n)
    ensures Exec(s, env, fuel).outcome == Done(BreakSignal) ==> EscapingBreak(s)
    decreases fuel, 0, 0
  {
    if fuel > 0 {
      match s
      case Assign(a) =>
      case Block(ss) =>
        ExecBlockKeeps(ss, env, fuel - 1, n);
      case If(c, b) =>
        ExecKeeps(b, env, fuel - 1, n);
      case IfElse(c, t, e) =>
        ExecKeeps(t, env, fuel - 1, n);
        ExecKeeps(e, env, fuel - 1, n);
      case While(c, b) =>
        ExecWhileKeeps(c, b, ModifyLoopDepth(env, true), fuel - 1, true, n);
      case For(a, e, b) =>
        ForStmtKeeps(a, e, b, env, fuel - 1, n);
      case Break =>
      case Continue =>
      case Exit =>
      case Writeln(_) =>
      case Call(_, _) =>
    }
  }

  /** The For case of ExecKeeps: `f` is the fuel the For statement passes on. */
  lemma {:induction false} ForStmtKeeps(a: Assignment, e: Expr, b: Stmt, env: Env, f: nat, n: string)
    ensures Keeps(env, Exec(For(a, e, b), env, f + 1))
    ensures !Writes(For(a, e, b), n) ==> BindingOf(Exec(For(a, e, b), env, f + 1).env, n) == BindingOf(env, n)
    ensures Exec(For(a, e, b), env, f + 1).outcome != Done(BreakSignal)
    decreases f, 2, 0
  {
    var init := ExecAssignment(a, env, f);
    if init.outcome == Done(Normal) && GetVariable(init.env, a.name).Ok? {
      var bound := Eval(e, init.env, f);
      if bound.result.Ok? {
        ExecForKeeps(a.name, GetVariable(init.env, a.name).value, bound.result.value, b,
                     ModifyLoopDepth(init.env, true), f, n);
      }
    }
  }

  lemma {:induction false} ExecBlockKeeps(ss: seq<Stmt>, env: Env, fuel: nat, n: string)
    ensures Keeps(env, ExecBlock(ss, env, fuel))
    ensures !Writes(Block(ss), n) ==> BindingOf(ExecBlock(ss, env, fuel).env, n) == BindingOf(env, n)
    ensures ExecBlock(ss, env, fuel).outcome == Done(BreakSignal) ==> exists i :: 0 <= i < |ss| && EscapingBreak(ss[i])
    decreases fuel, 1, |ss|
  {
    if ss != [] {
      var st := Exec(ss[0], env, fuel);
      ExecKeeps(ss[0], env, fuel, n);
      if st.outcome == Done(Normal) {
        ExecBlockKeeps(ss[1..], st.env, fuel, n);
        if ExecBlock(ss, env, fuel).outcome == Done(BreakSignal) {
          var i :| 0 <= i < |ss[1..]| && EscapingBreak(ss[1..][i]);
          assert EscapingBreak(ss[i + 1]);
        }
      }
    }
  }

  lemma {:induction false} ExecWhileKeeps(c: Expr, b: Stmt, env: Env, fuel: nat, breakEnds: bool, n: string)
    ensures Keeps(env, ExecWhile(c, b, env, fuel, breakEnds))
    ensures !Writes(b, n) ==> BindingOf(ExecWhile(c, b, env, fuel, breakEnds).env, n) == BindingOf(env, n)
    ensures ExecWhile(c, b, env, fuel, breakEnds).outcome != Done(BreakSignal)
    ensures ExecWhile(c, b, env, fuel, breakEnds).outcome != Done(ContinueSignal)
    decreases fuel, 1, 0
  {
    if fuel > 0 {
      var v := Eval(c, env, fuel);
      if v.result.Ok? && v.result.value == 1 {
        var st := Exec(b, env, fuel);
        ExecKeeps(b, env, fuel, n);
        if st.outcome.Failed? || st.outcome == Done(ExitSignal) {
          assert ExecWhile(c, b, env, fuel, breakEnds) == Prefix(v.out, st);
        } else if st.outcome == Done(BreakSignal) && breakEnds {
          assert ExecWhile(c, b, env, fuel, breakEnds) == Prefix(v.out, st.(outcome := Done(Normal)));
        } else {
          ExecWhileKeeps(c, b, st.env, fuel - 1, breakEnds, n);
          assert ExecWhile(c, b, env, fuel, breakEnds) == Prefix(v.out + st.out, ExecWhile(c, b, st.env, fuel - 1, breakEnds));
        }
      }
    }
  }

  lemma {:induction false} ExecForKeeps(name: string, count: int, bound: int, b: Stmt, env: Env, fuel: nat, n: string)
    ensures Keeps(env, ExecFor(name, count, bound, b, env, fuel))
    ensures n != name && !Writes(b, n) ==> BindingOf(ExecFor(name, count, bound, b, env, fuel).env, n) == BindingOf(env, n)
    ensures ExecFor(name, count, bound, b, env, fuel).outcome != Done(BreakSignal)
    ensures ExecFor(name, count, bound, b, env, fuel).outcome != Done(ContinueSignal)
    decreases fuel, 1, 0
  {
    if fuel > 0 && count <= bound {
      var st := Exec(b, env, fuel);
      ExecKeeps(b, env, fuel, n);
      if st.outcome.Failed? || st.outcome == Done(ExitSignal) {
        assert ExecFor(name, count, bound, b, env, fuel) == st;
      } else if st.outcome == Done(BreakSignal) {
        assert ExecFor(name, count, bound, b, env, fuel) == st.(outcome := Done(Normal));
      } else {
        var next := SetVariable(st.env, name, count + 1);
        ExecForKeeps(name, count + 1, bound, b, next, fuel - 1, n);
        assert ExecFor(name, count, bound, b, env, fuel) == Prefix(st.out, ExecFor(name, count + 1, bound, b, next, fuel - 1));
      }
    }
  }

  // ---------------------------------------------------------------------
  // Blocks and conditionals
  // ---------------------------------------------------------------------

  /** Running `a + b` runs `a`, and then `b` only if `a` completed normally. */
  lemma {:induction false} ExecBlockAppend(a: seq<Stmt>, b: seq<Stmt>, env: Env, fuel: nat)
    ensures var sa := ExecBlock(a, env, fuel);
      ExecBlock(a + b, env, fuel) ==
        if sa.outcome == Done(Normal) then Prefix(sa.out, ExecBlock(b, sa.env, fuel)) else sa
    decreases |a|
  {
    if a == [] {
      assert a + b == b;
    } else {
      assert (a + b)[0] == a[0];
      assert (a + b)[1..] == a[1..] + b;
      var st := Exec(a[0], env, fuel);
      if st.outcome == Done(Normal) {
        ExecBlockAppend(a[1..], b, st.env, fuel);
      }
    }
  }

  /** An empty block changes nothing and a block of one statement is that
      statement. */
  lemma BlockBasics(s: Stmt, env: Env, fuel: nat)
    ensures ExecBlock([], env, fuel) == State(Done(Normal), env, [])
    ensures ExecBlock([s], env, fuel) == Exec(s, env, fuel)
  {
    assert [s][1..] == [];
  }

  /** If is IfElse with an empty else branch. */
  lemma IfIsIfElseWithEmptyElse(c: Expr, b: Stmt, env: Env, fuel: nat)
    requires fuel >= 2
    ensures Exec(If(c, b), env, fuel) == Exec(IfElse(c, b, Block([])), env, fuel)
  {
    var v := Eval(c, env, fuel - 1);
    if v.result.Ok? && v.result.value != 1 {
      assert Exec(Block([]), env, fuel - 1) == State(Done(Normal), env, []);
    }
  }

  // ---------------------------------------------------------------------
  // Loops
  // ---------------------------------------------------------------------

  /** The counter values a For loop runs through: count, count+1, .., bound. */
  function ForCounts(count: int, bound: int): seq<int>
    decreases bound - count
  {
    if count > bound then [] else [count] + ForCounts(count + 1, bound)
  }

  lemma {:induction false} ForCountsAre(count: int, bound: int)
    ensures |ForCounts(count, bound)| == if count > bound then 0 else bound - count + 1
    ensures forall i :: 0 <= i < |ForCounts(count, bound)| ==> ForCounts(count, bound)[i] == count + i
    decreases bound - count
  {
    if count <= bound {
      ForCountsAre(count + 1, bound);
    }
  }

  /** Reference definition of a For loop: the body once per value of a list
      of counters fixed before the first iteration, the loop variable set to
      the counter plus one after each Normal or Continue iteration. */
  function RunIterations(name: string, counts: seq<int>, b: Stmt, env: Env, fuel: nat): State
    decreases fuel
  {
    if fuel == 0 then State(Failed(FuelExhausted), env, [])
    else if counts == [] then State(Done(Normal), env, [])
    else
      var st := Exec(b, env, fuel);
      if st.outcome.Failed? || st.outcome == Done(ExitSignal) then st
      else if st.outcome == Done(BreakSignal) then st.(outcome := Done(Normal))
      else Prefix(st.out, RunIterations(name, counts[1..], b, SetVariable(st.env, name, counts[0] + 1), fuel - 1))
  }

  /** The For loop runs its body once per counter value in [count, bound],
      that is max(0, bound - count + 1) times when no iteration signals,
      whatever the body does to the loop variable. */
  lemma {:induction false} ExecForRunsCounts(name: string, count: int, bound: int, b: Stmt, env: Env, fuel: nat)
    ensures ExecFor(name, count, bound, b, env, fuel) == RunIterations(name, ForCounts(count, bound), b, env, fuel)
    decreases fuel
  {
    if fuel > 0 && count <= bound {
      var st := Exec(b, env, fuel);
      assert ForCounts(count, bound)[0] == count;
      assert ForCounts(count, bound)[1..] == ForCounts(count + 1, bound);
      if !(st.outcome.Failed? || st.outcome == Done(ExitSignal) || st.outcome == Done(BreakSignal)) {
        var next := SetVariable(st.env, name, count + 1);
        ExecForRunsCounts(name, count + 1, bound, b, next, fuel - 1);
      }
    }
  }

  /** A For loop whose body has no escaping Break and that ends normally has
      left bound+1 in the loop variable if it ran at all, and the
      environment untouched if it did not. */
  lemma {:induction false} ForEndsPastBound(name: string, count: int, bound: int, b: Stmt, env: Env, fuel: nat)
    requires !EscapingBreak(b)
    requires ExecFor(name, count, bound, b, env, fuel).outcome == Done(Normal)
    ensures count <= bound ==> GetVariable(ExecFor(name, count, bound, b, env, fuel).env, name) == Ok(bound + 1)
    ensures count > bound ==> ExecFor(name, count, bound, b, env, fuel).env == env
    decreases fuel
  {
    if count <= bound {
      var st := Exec(b, env, fuel);
      ExecKeeps(b, env, fuel, name);
      var next := SetVariable(st.env, name, count + 1);
      if count + 1 <= bound {
        ForEndsPastBound(name, count + 1, bound, b, next, fuel - 1);
      }
    }
  }

  /** Loop bodies run one loop deeper: the first test of a While sees the
      raised depth, and an Exit out of the loop keeps it raised. */
  lemma WhileExitKeepsDepth(c: Expr, env: Env, fuel: nat)
    requires fuel >= 3
    requires Eval(c, ModifyLoopDepth(env, true), fuel - 1).result == Ok(1)
    ensures Exec(While(c, Exit), env, fuel).outcome == Done(ExitSignal)
    ensures Exec(While(c, Exit), env, fuel).env.loopDepth == env.loopDepth + 1
  {
    var inner := ModifyLoopDepth(env, true);
    assert Exec(Exit, inner, fuel - 1) == State(Done(ExitSignal), inner, []);
  }

  /** A Break in the body of a While ends the loop normally, with the depth
      restored, as Break.java documents. */
  lemma WhileBreakEndsLoop(c: Expr, b: Stmt, env: Env, fuel: nat)
    requires fuel >= 3
    requires Eval(c, ModifyLoopDepth(env, true), fuel - 1).result == Ok(1)
    requires Exec(b, ModifyLoopDepth(env, true), fuel - 1).outcome == Done(BreakSignal)
    ensures Exec(While(c, b), env, fuel).outcome == Done(Normal)
    ensures Exec(While(c, b), env, fuel).env.loopDepth == env.loopDepth
  {
    ExecKeeps(b, ModifyLoopDepth(env, true), fuel - 1, "");
  }

  /** `while 1 = 1 do break` terminates at once with the documented Break ... */
  lemma AlwaysTrueBreakEnds(env: Env, fuel: nat)
    requires fuel >= 4
    requires env.loopDepth >= 0
    ensures Exec(While(Condition(Number(1), Number(1), "="), Break), env, fuel) == State(Done(Normal), env, [])
  {
    var inner := ModifyLoopDepth(env, true);
    var c := Condition(Number(1), Number(1), "=");
    assert Eval(Number(1), inner, fuel - 2) == Value(Ok(1), []);
    assert Eval(c, inner, fuel - 1) == Value(Ok(1), []);
    assert Exec(Break, inner, fuel - 1) == State(Done(BreakSignal), inner, []);
  }

  /** ... while the loop as written, where the `break` leaves only the
      switch, never ends: every amount of fuel runs out. */
  lemma {:induction false} AsWrittenBreakNeverEnds(env: Env, fuel: nat)
    requires env.loopDepth != 0
    ensures ExecWhile(Condition(Number(1), Number(1), "="), Break, env, fuel, false).outcome == Failed(FuelExhausted)
    decreases fuel
  {
    var c := Condition(Number(1), Number(1), "=");
    if fuel == 1 {
      assert Eval(Number(1), env, 0).result == Err(FuelExhausted);
      assert Eval(c, env, 1).result == Err(FuelExhausted);
    } else if fuel >= 2 {
      assert Eval(Number(1), env, fuel - 1) == Value(Ok(1), []);
      assert Eval(c, env, fuel) == Value(Ok(1), []);
      assert Exec(Break, env, fuel) == State(Done(BreakSignal), env, []);
      AsWrittenBreakNeverEnds(env, fuel - 1);
    }
  }

  // ---------------------------------------------------------------------
  // Procedure calls
  // ---------------------------------------------------------------------

  /** Binding the arguments touches only parameter names: any other name
      keeps its binding in the new scope. */
  lemma {:induction false} BindKeepsOthers(params: seq<string>, args: seq<Expr>, i: nat, frame: Env, caller: Env, fuel: nat, n: string)
    requires i <= |args|
    requires n !in params
    requires BindArguments(params, args, i, frame, caller, fuel).frame.Ok?
    ensures BindingOf(BindArguments(params, args, i, frame, caller, fuel).frame.value, n) == BindingOf(frame, n)
    ensures BindArguments(params, args, i, frame, caller, fuel).frame.value.parent == frame.parent
    ensures BindArguments(params, args, i, frame, caller, fuel).frame.value.loopDepth == frame.loopDepth
    decreases |args| - i
  {
    if i < |args| {
      var v := Eval(args[i], caller, fuel);
      BindKeepsOthers(params, args, i + 1, SetVariable(frame, params[i], v.result.value), caller, fuel, n);
    }
  }

  /** A name that holds a value keeps holding one while arguments are bound. */
  lemma {:induction false} BindKeepsValues(params: seq<string>, args: seq<Expr>, i: nat, frame: Env, caller: Env, fuel: nat, n: string)
    requires i <= |args|
    requires GetVariable(frame, n).Ok?
    requires BindArguments(params, args, i, frame, caller, fuel).frame.Ok?
    ensures GetVariable(BindArguments(params, args, i, frame, caller, fuel).frame.value, n).Ok?
    decreases |args| - i
  {
    if i < |args| {
      var v := Eval(args[i], caller, fuel);
      BindKeepsValues(params, args, i + 1, SetVariable(frame, params[i], v.result.value), caller, fuel, n);
    }
  }

  /** Binding succeeds only if there are no more arguments than parameters,
      and then every parameter that got an argument is bound to a value. */
  lemma {:induction false} BindNeedsParameters(params: seq<string>, args: seq<Expr>, i: nat, frame: Env, caller: Env, fuel: nat)
    requires i <= |args| && i <= |params|
    ensures var r := BindArguments(params, args, i, frame, caller, fuel).frame;
      r.Ok? ==> (|args| <= |params| &&
                 forall k :: i <= k < |args| ==> GetVariable(r.value, params[k]).Ok?)
    decreases |args| - i
  {
    if i < |args| && i < |params| {
      var v := Eval(args[i], caller, fuel);
      if v.result.Ok? {
        var next := SetVariable(frame, params[i], v.result.value);
        BindNeedsParameters(params, args, i + 1, next, caller, fuel);
        if BindArguments(params, args, i + 1, next, caller, fuel).frame.Ok? {
          BindKeepsValues(params, args, i + 1, next, caller, fuel, params[i]);
        }
      }
    }
  }

  /** A procedure that never stores into its own name, and has no parameter
      of that name, returns the default 0. */
  lemma DefaultReturnIsZero(id: string, args: seq<Expr>, caller: Env, fuel: nat)
    requires GetProcedure(caller, id).Some?
    requires id !in GetProcedure(caller, id).value.parameters
    requires !Writes(GetProcedure(caller, id).value.body, id)
    requires CallProcedure(id, args, caller, fuel).result.Ok?
    ensures CallProcedure(id, args, caller, fuel).result == Ok(0)
  {
    var p := GetProcedure(caller, id).value;
    var bound := BindArguments(p.parameters, args, 0, CallFrame(id, caller), caller, fuel);
    BindKeepsOthers(p.parameters, args, 0, CallFrame(id, caller), caller, fuel, id);
    ExecKeeps(p.body, bound.frame.value, fuel, id);
  }

  /** Loop depth does not cross a call: a Break at the top of a procedure
      body fails even when the call sits inside a loop of the caller. */
  lemma BreakDoesNotCrossCall(id: string, caller: Env, fuel: nat)
    requires fuel >= 1
    requires GetProcedure(caller, id).Some?
    requires GetProcedure(caller, id).value.body == Break
    ensures CallProcedure(id, [], caller, fuel).result == Err(IllegalArgument)
  {
  }

  // ---------------------------------------------------------------------
  // Declarations and programs
  // ---------------------------------------------------------------------

  /** The last declaration with the given id. */
  function LastDeclaration(ps: seq<ProcedureDeclaration>, id: string): Option<ProcedureDeclaration> {
    if ps == [] then None
    else if ps[|ps| - 1].id == id then Some(ps[|ps| - 1])
    else LastDeclaration(ps[..|ps| - 1], id)
  }

  /** After Program.exec's registration loop every declared procedure is
      found under its id (the last one, if an id is declared twice), other
      ids resolve as before, and no variable binding changed. */
  lemma {:induction false} RegisterAllFinds(ps: seq<ProcedureDeclaration>, env: Env, id: string, n: string)
    ensures GetProcedure(RegisterAll(ps, env), id) ==
      if LastDeclaration(ps, id).Some? then LastDeclaration(ps, id) else GetProcedure(env, id)
    ensures Lookup(RegisterAll(ps, env), n) == Lookup(env, n)
    ensures RegisterAll(ps, env).symtab == env.symtab && RegisterAll(ps, env).loopDepth == env.loopDepth
  {
    if ps != [] {
      var last := ps[|ps| - 1];
      RegisterAllFinds(ps[..|ps| - 1], env, id, n);
      SetThenGetProcedure(RegisterAll(ps[..|ps| - 1], env), last.id, last, id);
      SetThenGetProcedure(RegisterAll(ps[..|ps| - 1], env), last.id, last, n);
    }
  }

  /** VariableDeclaration.exec declares exactly its names, as null. */
  lemma {:induction false} DeclareAllDeclares(names: seq<string>, env: Env, n: string)
    ensures n in names ==> BindingOf(DeclareAll(names, env), n) == Some(None)
    ensures n !in names ==> BindingOf(DeclareAll(names, env), n) == BindingOf(env, n)
    ensures DeclareAll(names, env).loopDepth == env.loopDepth && DeclareAll(names, env).parent == env.parent
  {
    if names != [] {
      DeclareAllDeclares(names[..|names| - 1], env, n);
      assert names == names[..|names| - 1] + [names[|names| - 1]];
    }
  }
}
