/** The interpreter as the Java code runs it: `eval` and `exec` work on a
    mutable Environment object, loops are loops, and a procedure call builds
    a new Environment. Every method is proved to compute what the function
    of the same name in module Semantics computes. */
module Interpreter {
  import opened Base
  import opened Ast
  import opened Environments
  import opened EnvironmentObject
  import opened Semantics

  /** Expression.eval: reads the environment and changes nothing in it. */
  method Eval(x: Expr, env: Environment, fuel: nat) returns (v: Value)
    ensures v == Semantics.Eval(x, env.View(), fuel)
    decreases fuel, 0, 0
  {
    if fuel == 0 {
      return Value(Err(FuelExhausted), []);
    }
    match x
    case Number(n) =>
      v := Value(Ok(n), []);
    case Variable(name) =>
      var found := env.Lookup(name);
      v := Value(if found.Some? then Ok(found.value) else Err(NullPointer), []);
    case BinOp(l, r, op) =>
      if !IsArithOp(op) {
        return Value(Err(IllegalArgument), []);
      }
      var ab, out := EvalOperands(l, r, env, fuel - 1);
      v := if ab.Err? then Value(Err(ab.error), out) else Value(Arith(op, ab.value.0, ab.value.1), out);
    case Condition(l, r, op) =>
      if !IsRelop(op) {
        return Value(Err(IllegalArgument), []);
      }
      var ab, out := EvalOperands(l, r, env, fuel - 1);
      v := if ab.Err? then Value(Err(ab.error), out) else Value(Ok(Compare(op, ab.value.0, ab.value.1)), out);
    case ProcedureCall(id, args) =>
      v := CallProcedure(id, args, env, fuel - 1);
  }

  method EvalOperands(l: Expr, r: Expr, env: Environment, fuel: nat) returns (ab: Result<(int, int)>, out: seq<int>)
    ensures (ab, out) == Semantics.EvalOperands(l, r, env.View(), fuel)
    decreases fuel, 1, 0
  {
    var a := Eval(l, env, fuel);
    if a.result.Err? {
      return Err(a.result.error), a.out;
    }
    var b := Eval(r, env, fuel);
    if b.result.Err? {
      return Err(b.result.error), a.out + b.out;
    }
    ab, out := Ok((a.result.value, b.result.value)), a.out + b.out;
  }

  /** ProcedureCall.eval: a new Environment with the procedure's name bound
      to 0 and the caller as parent, the arguments bound one by one, then the
      body. Only the new Environment is written. */
  method CallProcedure(id: string, args: seq<Expr>, env: Environment, fuel: nat) returns (v: Value)
    ensures v == Semantics.CallProcedure(id, args, env.View(), fuel)
    decreases fuel, 3, 0
  {
    var proc := env.GetProcedure(id);
    var newEnv := new Environment();
    newEnv.SetVariable(id, 0);
    newEnv.SetParent(env.View());
    if proc.None? {
      return Value(Err(NullPointer), []);
    }
    var error, out := BindArgumentList(proc.value.parameters, args, newEnv, env, fuel);
    if error.Some? {
      return Value(Err(error.value), out);
    }
    var outcome, bodyOut := Exec(proc.value.body, newEnv, fuel);
    var r := match outcome
      case Failed(e) => Err(e)
      case Done(BreakSignal) => Err(RuntimeError)
      case Done(ContinueSignal) => Err(RuntimeError)
      case Done(_) => Environments.GetVariable(newEnv.View(), id);
    v := Value(r, out + bodyOut);
  }

  /** The argument loop of ProcedureCall.eval: each argument evaluated in
      the caller's Environment and bound in the new one, `frame`. */
  method BindArgumentList(params: seq<string>, args: seq<Expr>, frame: Environment, env: Environment, fuel: nat)
    returns (error: Option<Error>, out: seq<int>)
    requires frame != env
    modifies frame
    ensures var b := BindArguments(params, args, 0, old(frame.View()), env.View(), fuel);
      out == b.out && (if b.frame.Ok? then error.None? && frame.View() == b.frame.value else error == Some(b.frame.error))
    decreases fuel, 2, 0
  {
    ghost var whole := BindArguments(params, args, 0, frame.View(), env.View(), fuel);
    out := [];
    var i := 0;
    while i < |args|
      invariant 0 <= i <= |args|
      invariant whole.frame == BindArguments(params, args, i, frame.View(), env.View(), fuel).frame
      invariant whole.out == out + BindArguments(params, args, i, frame.View(), env.View(), fuel).out
    {
      if i >= |params| {
        return Some(IndexOutOfBounds), out;
      }
      var a := Eval(args[i], env, fuel);
      if a.result.Err? {
        return Some(a.result.error), out + a.out;
      }
      frame.SetVariable(params[i], a.result.value);
      out := out + a.out;
      i := i + 1;
    }
    error := None;
  }

  /** Statement.exec: changes the environment it is given and no other. */
  method Exec(s: Stmt, env: Environment, fuel: nat) returns (outcome: Outcome, out: seq<int>)
    modifies env
    ensures State(outcome, env.View(), out) == Semantics.Exec(s, old(env.View()), fuel)
    decreases fuel, 0, 0
  {
    if fuel == 0 {
      return Failed(FuelExhausted), [];
    }
    match s
    case Assign(a) =>
      outcome, out := ExecAssignment(a, env, fuel - 1);
    case Block(ss) =>
      outcome, out := ExecBlock(ss, env, fuel - 1);
    case If(c, b) =>
      var v := Eval(c, env, fuel - 1);
      if v.result.Err? {
        return Failed(v.result.error), v.out;
      }
      if v.result.value == 1 {
        outcome, out := Exec(b, env, fuel - 1);
        out := v.out + out;
      } else {
        outcome, out := Done(Normal), v.out;
      }
    case IfElse(c, t, e) =>
      var v := Eval(c, env, fuel - 1);
      if v.result.Err? {
        return Failed(v.result.error), v.out;
      }
      if v.result.value == 1 {
        outcome, out := Exec(t, env, fuel - 1);
      } else {
        outcome, out := Exec(e, env, fuel - 1);
      }
      out := v.out + out;
    case While(c, b) =>
      env.ModifyLoopDepth(true);
      outcome, out := ExecWhile(c, b, env, fuel - 1);
      if outcome == Done(Normal) {
        env.ModifyLoopDepth(false);
      }
    case For(a, e, b) =>
      outcome, out := ExecForStatement(a, e, b, env, fuel - 1);
    case Break =>
      outcome, out := ExecBreak(env.View()), [];
    case Continue =>
      outcome, out := ExecContinue(env.View()), [];
    case Exit =>
      outcome, out := ExecExit(Some(env.View())), [];
    case Writeln(e) =>
      var v := Eval(e, env, fuel - 1);
      if v.result.Err? {
        return Failed(v.result.error), v.out;
      }
      outcome, out := Done(Normal), v.out + [v.result.value];
    case Call(id, args) =>
      var v := CallProcedure(id, args, env, fuel - 1);
      outcome, out := if v.result.Err? then Failed(v.result.error) else Done(Normal), v.out;
  }

  /** Assignment.exec. */
  method ExecAssignment(a: Assignment, env: Environment, fuel: nat) returns (outcome: Outcome, out: seq<int>)
    modifies env
    ensures State(outcome, env.View(), out) == Semantics.ExecAssignment(a, old(env.View()), fuel)
    decreases fuel, 1, 0
  {
    var defined := env.Lookup(a.name);
    if defined.None? {
      return Failed(IllegalArgument), [];
    }
    var v := Eval(a.exp, env, fuel);
    if v.result.Err? {
      return Failed(v.result.error), v.out;
    }
    env.SetVariable(a.name, v.result.value);
    outcome, out := Done(Normal), v.out;
  }

  /** Block.exec: the statements in order; the first signal or exception
      ends the block. */
  method ExecBlock(ss: seq<Stmt>, env: Environment, fuel: nat) returns (outcome: Outcome, out: seq<int>)
    modifies env
    ensures State(outcome, env.View(), out) == Semantics.ExecBlock(ss, old(env.View()), fuel)
    decreases fuel, 1, |ss|
  {
    ghost var whole := Semantics.ExecBlock(ss, env.View(), fuel);
    out := [];
    for i := 0 to |ss|
      invariant whole == Prefix(out, Semantics.ExecBlock(ss[i..], env.View(), fuel))
    {
      assert ss[i..][1..] == ss[i + 1..];
      var o, stmtOut := Exec(ss[i], env, fuel);
      out := out + stmtOut;
      if o != Done(Normal) {
        return o, out;
      }
    }
    outcome := Done(Normal);
  }

  /** The loop of While.exec, with the loop depth already raised; Break ends
      the loop as Break.java documents. */
  method ExecWhile(c: Expr, b: Stmt, env: Environment, fuel: nat) returns (outcome: Outcome, out: seq<int>)
    modifies env
    ensures State(outcome, env.View(), out) == Semantics.ExecWhile(c, b, old(env.View()), fuel, true)
    decreases fuel, 1, 0
  {
    ghost var whole := Semantics.ExecWhile(c, b, env.View(), fuel, true);
    var f: nat := fuel;
    out := [];
    while true
      invariant f <= fuel
      invariant whole == Prefix(out, Semantics.ExecWhile(c, b, env.View(), f, true))
      decreases f
    {
      if f == 0 {
        return Failed(FuelExhausted), out;
      }
      ghost var e0 := env.View();
      var v := Eval(c, env, f);
      if v.result.Err? {
        return Failed(v.result.error), out + v.out;
      }
      if v.result.value != 1 {
        return Done(Normal), out + v.out;
      }
      var o, bodyOut := Exec(b, env, f);
      WhileStep(c, b, e0, f);
      ghost var st := State(o, env.View(), bodyOut);
      assert Semantics.Exec(b, e0, f) == st;
      if o.Failed? || o == Done(ExitSignal) {
        PrefixAssoc(out, v.out, st);
        assert whole == State(o, env.View(), out + v.out + bodyOut);
        return o, out + v.out + bodyOut;
      }
      if o == Done(BreakSignal) {
        PrefixAssoc(out, v.out, st.(outcome := Done(Normal)));
        assert whole == State(Done(Normal), env.View(), out + v.out + bodyOut);
        return Done(Normal), out + v.out + bodyOut;
      }
      assert Semantics.ExecWhile(c, b, e0, f, true) ==
        Prefix(v.out + bodyOut, Semantics.ExecWhile(c, b, env.View(), f - 1, true));
      PrefixAssoc(out, v.out + bodyOut, Semantics.ExecWhile(c, b, env.View(), f - 1, true));
      out := out + (v.out + bodyOut);
      f := f - 1;
    }
  }

  lemma PrefixAssoc(a: seq<int>, b: seq<int>, st: State)
    ensures Prefix(a, Prefix(b, st)) == Prefix(a + b, st)
  {
  }

  /** One test and one run of the body of a While whose test yields 1. */
  lemma WhileStep(c: Expr, b: Stmt, env: Env, fuel: nat)
    requires fuel > 0 && Semantics.Eval(c, env, fuel).result == Ok(1)
    ensures var v := Semantics.Eval(c, env, fuel);
      var st := Semantics.Exec(b, env, fuel);
      Semantics.ExecWhile(c, b, env, fuel, true) ==
        if st.outcome.Failed? || st.outcome == Done(ExitSignal) then Prefix(v.out, st)
        else if st.outcome == Done(BreakSignal) then Prefix(v.out, st.(outcome := Done(Normal)))
        else Prefix(v.out + st.out, Semantics.ExecWhile(c, b, st.env, fuel - 1, true))
  {
  }

  /** For.exec. */
  method ExecForStatement(a: Assignment, e: Expr, b: Stmt, env: Environment, fuel: nat) returns (outcome: Outcome, out: seq<int>)
    modifies env
    ensures State(outcome, env.View(), out) == Semantics.ExecForStatement(a, e, b, old(env.View()), fuel)
    decreases fuel, 2, 0
  {
    ghost var whole := Semantics.ExecForStatement(a, e, b, env.View(), fuel);
    var initOutcome, initOut := ExecAssignment(a, env, fuel);
    ghost var e1 := env.View();
    if initOutcome != Done(Normal) {
      return initOutcome, initOut;
    }
    var count := env.GetVariable(a.name);
    if count.Err? {
      return Failed(count.error), initOut;
    }
    var bound := Eval(e, env, fuel);
    if bound.result.Err? {
      return Failed(bound.result.error), initOut + bound.out;
    }
    env.ModifyLoopDepth(true);
    ghost var st0 := Semantics.ExecFor(a.name, count.value, bound.result.value, b, ModifyLoopDepth(e1, true), fuel);
    outcome, out := ExecFor(a.name, count.value, bound.result.value, b, env, fuel);
    assert st0 == State(outcome, env.View(), out);
    if outcome == Done(Normal) {
      env.ModifyLoopDepth(false);
    }
    assert whole == Prefix(initOut + bound.out, State(outcome, env.View(), out));
    out := initOut + bound.out + out;
  }

  /** The loop of For.exec, with the loop depth already raised: a local
      counter, written back to the loop variable after every Normal or
      Continue iteration. */
  method ExecFor(name: string, count0: int, bound: int, b: Stmt, env: Environment, fuel: nat)
    returns (outcome: Outcome, out: seq<int>)
    modifies env
    ensures State(outcome, env.View(), out) == Semantics.ExecFor(name, count0, bound, b, old(env.View()), fuel)
    decreases fuel, 1, 0
  {
    ghost var whole := Semantics.ExecFor(name, count0, bound, b, env.View(), fuel);
    var count := count0;
    var f: nat := fuel;
    out := [];
    while true
      invariant f <= fuel
      invariant whole == Prefix(out, Semantics.ExecFor(name, count, bound, b, env.View(), f))
      decreases f
    {
      if f == 0 {
        return Failed(FuelExhausted), out;
      }
      if count > bound {
        return Done(Normal), out;
      }
      ghost var e0 := env.View();
      var o, bodyOut := Exec(b, env, f);
      ForStep(name, count, bound, b, e0, f);
      ghost var st := State(o, env.View(), bodyOut);
      assert Semantics.Exec(b, e0, f) == st;
      if o.Failed? || o == Done(ExitSignal) {
        assert whole == State(o, env.View(), out + bodyOut);
        return o, out + bodyOut;
      }
      if o == Done(BreakSignal) {
        assert whole == State(Done(Normal), env.View(), out + bodyOut);
        return Done(Normal), out + bodyOut;
      }
      count := count + 1;
      env.SetVariable(name, count);
      PrefixAssoc(out, bodyOut, Semantics.ExecFor(name, count, bound, b, env.View(), f - 1));
      out := out + bodyOut;
      f := f - 1;
    }
  }

  /** One run of the body of a For whose counter has not passed the bound. */
  lemma ForStep(name: string, count: int, bound: int, b: Stmt, env: Env, fuel: nat)
    requires fuel > 0 && count <= bound
    ensures var st := Semantics.Exec(b, env, fuel);
      Semantics.ExecFor(name, count, bound, b, env, fuel) ==
        if st.outcome.Failed? || st.outcome == Done(ExitSignal) then st
        else if st.outcome == Done(BreakSignal) then st.(outcome := Done(Normal))
        else Prefix(st.out, Semantics.ExecFor(name, count + 1, bound, b, SetVariable(st.env, name, count + 1), fuel - 1))
  {
  }

  /** VariableDeclaration.exec: every name declared, unassigned. */
  method ExecVariableDeclaration(d: VariableDeclaration, env: Environment)
    modifies env
    ensures env.View() == DeclareAll(d.names, old(env.View()))
  {
    ghost var start := env.View();
    for i := 0 to |d.names|
      invariant env.View() == DeclareAll(d.names[..i], start)
    {
      assert d.names[..i + 1][..i] == d.names[..i];
      env.DeclareVariable(d.names[i]);
    }
    assert d.names[..|d.names|] == d.names;
  }

  /** ProcedureDeclaration.exec. */
  method ExecProcedureDeclaration(d: ProcedureDeclaration, env: Environment)
    modifies env
    ensures env.View() == Semantics.ExecProcedureDeclaration(d, old(env.View()))
  {
    env.SetProcedure(d.id, d);
  }

  /** Program.exec: register every procedure, then run the main statement. */
  method ExecProgram(p: Program, env: Environment, fuel: nat) returns (outcome: Outcome, out: seq<int>)
    modifies env
    ensures State(outcome, env.View(), out) == Semantics.ExecProgram(p, old(env.View()), fuel)
  {
    ghost var start := env.View();
    for i := 0 to |p.procDecls|
      invariant env.View() == RegisterAll(p.procDecls[..i], start)
    {
      assert p.procDecls[..i + 1][..i] == p.procDecls[..i];
      ExecProcedureDeclaration(p.procDecls[i], env);
    }
    assert p.procDecls[..|p.procDecls|] == p.procDecls;
    outcome, out := Exec(p.main, env, fuel);
    outcome := match outcome
      case Done(BreakSignal) => Failed(RuntimeError)
      case Done(ContinueSignal) => Failed(RuntimeError)
      case Done(ExitSignal) => Done(Normal)
      case _ => outcome;
  }
}
