/** What `eval` and `exec` of every AST node compute, as functions on values.

    The Java interpreter signals Break, Continue and Exit by exceptions
    (BreakException, ContinueException, ExitException); here `exec` returns
    a Signal instead, and every other exception is an Error.

    `fuel` bounds the nesting depth of the computation: each eval or exec of
    a node, each iteration of a loop and each procedure call uses one unit.
    A Java computation that nests less deep than `fuel` has the result given
    here; a deeper one (in particular a loop or a recursion that never ends)
    yields FuelExhausted. */
module Semantics {
  import opened Base
  import opened Ast
  import opened Environments

  datatype Signal = Normal | BreakSignal | ContinueSignal | ExitSignal

  /** Done(s): exec returned (Normal) or threw the control exception s.
      Failed(e): exec threw the exception e. */
  datatype Outcome = Done(signal: Signal) | Failed(error: Error)

  /** An evaluation: the int returned (or the exception thrown) and the lines
      that procedure bodies printed with writeln meanwhile. */
  datatype Value = Value(result: Result<int>, out: seq<int>)

  /** An execution: how it ended, the environment afterwards, the output. */
  datatype State = State(outcome: Outcome, env: Env, out: seq<int>)

  /** The binding of a procedure's parameters, or the exception it threw. */
  datatype Binding = Binding(frame: Result<Env>, out: seq<int>)

  function Prefix(out: seq<int>, st: State): State {
    st.(out := out + st.out)
  }

  // ---------------------------------------------------------------------
  // Operators
  // ---------------------------------------------------------------------

  predicate IsArithOp(op: string) {
    op == "+" || op == "-" || op == "*" || op == "/" || op == "mod"
  }

  /** The int operators of BinOp.eval; `/` and `mod` are Java's truncating
      ones, and a zero divisor throws ArithmeticException. */
  function Arith(op: string, a: int, b: int): Result<int>
    requires IsArithOp(op)
  {
    if op == "+" then Ok(a + b)
    else if op == "-" then Ok(a - b)
    else if op == "*" then Ok(a * b)
    else if b == 0 then Err(Arithmetic)
    else if op == "/" then Ok(JavaDiv(a, b))
    else Ok(JavaRem(a, b))
  }

  predicate IsRelop(op: string) {
    op == "=" || op == "<>" || op == "<=" || op == ">=" || op == ">" || op == "<"
  }

  /** The relation a relational operator denotes. */
  predicate Holds(op: string, a: int, b: int)
    requires IsRelop(op)
  {
    if op == "=" then a == b
    else if op == "<>" then a != b
    else if op == "<=" then a <= b
    else if op == ">=" then a >= b
    else if op == ">" then a > b
    else a < b
  }

  /** Condition.eval's encoding of the relation: 1 for true, 0 for false. */
  function Compare(op: string, a: int, b: int): int
    requires IsRelop(op)
  {
    if Holds(op, a, b) then 1 else 0
  }

  // ---------------------------------------------------------------------
  // eval
  // ---------------------------------------------------------------------

  /** Variable.eval: the value found on the scope chain; a name bound to
      nothing, or to null, cannot be unboxed. */
  function VariableValue(env: Env, name: string): Result<int> {
    var v := Lookup(env, name);
    if v.Some? then Ok(v.value) else Err(NullPointer)
  }

  /** Eval of every Expression node. BinOp and Condition select the operator
      before they evaluate their operands, left before right. */
  function Eval(x: Expr, env: Env, fuel: nat): Value
    decreases fuel, 0, 0
  {
    if fuel == 0 then Value(Err(FuelExhausted), [])
    else match x
      case Number(v) => Value(Ok(v), [])
      case Variable(name) => Value(VariableValue(env, name), [])
      case BinOp(l, r, op) =>
        if !IsArithOp(op) then Value(Err(IllegalArgument), [])
        else
          var (ab, out) := EvalOperands(l, r, env, fuel - 1);
          if ab.Err? then Value(Err(ab.error), out)
          else Value(Arith(op, ab.value.0, ab.value.1), out)
      case Condition(l, r, op) =>
        if !IsRelop(op) then Value(Err(IllegalArgument), [])
        else
          var (ab, out) := EvalOperands(l, r, env, fuel - 1);
          if ab.Err? then Value(Err(ab.error), out)
          else Value(Ok(Compare(op, ab.value.0, ab.value.1)), out)
      case ProcedureCall(id, args) => CallProcedure(id, args, env, fuel - 1)
  }

  /** The left and then the right operand of a binary node. */
  function EvalOperands(l: Expr, r: Expr, env: Env, fuel: nat): (Result<(int, int)>, seq<int>)
    decreases fuel, 1, 0
  {
    var a := Eval(l, env, fuel);
    if a.result.Err? then (Err(a.result.error), a.out)
    else
      var b := Eval(r, env, fuel);
      if b.result.Err? then (Err(b.result.error), a.out + b.out)
      else (Ok((a.result.value, b.result.value)), a.out + b.out)
  }

  /** The scope a call starts in: the procedure's own name bound to 0 (the
      default return value), the caller as parent, loop depth 0. */
  function CallFrame(id: string, caller: Env): Env {
    SetParent(SetVariable(EmptyEnv, id, 0), caller)
  }

  /** ProcedureCall.eval: look the procedure up from the caller, bind the
      arguments, run the body in the new scope and return what the body left
      in the procedure's own name. */
  function CallProcedure(id: string, args: seq<Expr>, caller: Env, fuel: nat): Value
    decreases fuel, 3, 0
  {
    var proc := GetProcedure(caller, id);
    if proc.None? then Value(Err(NullPointer), [])
    else
      var bound := BindArguments(proc.value.parameters, args, 0, CallFrame(id, caller), caller, fuel);
      if bound.frame.Err? then Value(Err(bound.frame.error), bound.out)
      else
        var st := Exec(proc.value.body, bound.frame.value, fuel);
        Value(ReturnValue(st, id), bound.out + st.out)
  }

  /** How a call ends, given how its body ended. A Break or Continue that
      escapes the body is an error; an Exit ends the call. */
  function ReturnValue(st: State, id: string): (r: Result<int>)
    ensures st.outcome == Done(BreakSignal) || st.outcome == Done(ContinueSignal) ==> r == Err(RuntimeError)
    ensures st.outcome.Failed? ==> r == Err(st.outcome.error)
    ensures st.outcome == Done(Normal) || st.outcome == Done(ExitSignal) ==> r == GetVariable(st.env, id)
  {
    match st.outcome
    case Failed(e) => Err(e)
    case Done(BreakSignal) => Err(RuntimeError)
    case Done(ContinueSignal) => Err(RuntimeError)
    case Done(_) => GetVariable(st.env, id)
  }

  /** The argument loop of ProcedureCall.eval: for i below the number of
      arguments, parameter i is read (out of bounds when there are more
      arguments than parameters) before argument i is evaluated in the
      caller's scope and bound in the new one. */
  function BindArguments(params: seq<string>, args: seq<Expr>, i: nat, frame: Env, caller: Env, fuel: nat): Binding
    requires i <= |args|
    decreases fuel, 2, |args| - i
  {
    if i == |args| then Binding(Ok(frame), [])
    else if i >= |params| then Binding(Err(IndexOutOfBounds), [])
    else
      var v := Eval(args[i], caller, fuel);
      if v.result.Err? then Binding(Err(v.result.error), v.out)
      else
        var rest := BindArguments(params, args, i + 1, SetVariable(frame, params[i], v.result.value), caller, fuel);
        Binding(rest.frame, v.out + rest.out)
  }

  // ---------------------------------------------------------------------
  // exec
  // ---------------------------------------------------------------------

  /** Exec of every Statement node. */
  function Exec(s: Stmt, env: Env, fuel: nat): State
    decreases fuel, 0, 0
  {
    if fuel == 0 then State(Failed(FuelExhausted), env, [])
    else match s
      case Assign(a) => ExecAssignment(a, env, fuel - 1)
      case Block(ss) => ExecBlock(ss, env, fuel - 1)
      case If(c, b) =>
        var v := Eval(c, env, fuel - 1);
        if v.result.Err? then State(Failed(v.result.error), env, v.out)
        else if v.result.value == 1 then Prefix(v.out, Exec(b, env, fuel - 1))
        else State(Done(Normal), env, v.out)
      case IfElse(c, t, e) =>
        var v := Eval(c, env, fuel - 1);
        if v.result.Err? then State(Failed(v.result.error), env, v.out)
        else if v.result.value == 1 then Prefix(v.out, Exec(t, env, fuel - 1))
        else Prefix(v.out, Exec(e, env, fuel - 1))
      case While(c, b) =>
        var st := ExecWhile(c, b, ModifyLoopDepth(env, true), fuel - 1, true);
        if st.outcome == Done(Normal) then st.(env := ModifyLoopDepth(st.env, false)) else st
      case For(a, e, b) => ExecForStatement(a, e, b, env, fuel - 1)
      case Break => State(ExecBreak(env), env, [])
      case Continue => State(ExecContinue(env), env, [])
      case Exit => State(ExecExit(Some(env)), env, [])
      case Writeln(e) =>
        var v := Eval(e, env, fuel - 1);
        if v.result.Err? then State(Failed(v.result.error), env, v.out)
        else State(Done(Normal), env, v.out + [v.result.value])
      case Call(id, args) =>
        var v := CallProcedure(id, args, env, fuel - 1);
        if v.result.Err? then State(Failed(v.result.error), env, v.out)
        else State(Done(Normal), env, v.out)
  }

  /** For.exec: the heading's assignment, then the counter read back and
      the bound evaluated, then the loop with the loop depth raised (and
      lowered again only when the loop ends normally). */
  function ExecForStatement(a: Assignment, e: Expr, b: Stmt, env: Env, fuel: nat): State
    decreases fuel, 2, 0
  {
    var init := ExecAssignment(a, env, fuel);
    if init.outcome != Done(Normal) then init
    else
      var count := GetVariable(init.env, a.name);
      if count.Err? then State(Failed(count.error), init.env, init.out)
      else
        var bound := Eval(e, init.env, fuel);
        if bound.result.Err? then State(Failed(bound.result.error), init.env, init.out + bound.out)
        else
          var st := ExecFor(a.name, count.value, bound.result.value, b, ModifyLoopDepth(init.env, true), fuel);
          var st' := if st.outcome == Done(Normal) then st.(env := ModifyLoopDepth(st.env, false)) else st;
          Prefix(init.out + bound.out, st')
  }

  /** Break.exec: outside every loop it is an error, inside one it signals. */
  function ExecBreak(env: Env): (o: Outcome)
    ensures o == Failed(IllegalArgument) <==> GetLoopDepth(env) == 0
    ensures o == Done(BreakSignal) <==> GetLoopDepth(env) != 0
  {
    if GetLoopDepth(env) == 0 then Failed(IllegalArgument) else Done(BreakSignal)
  }

  /** Continue.exec: outside every loop it is an error, inside one it signals. */
  function ExecContinue(env: Env): (o: Outcome)
    ensures o == Failed(IllegalArgument) <==> GetLoopDepth(env) == 0
    ensures o == Done(ContinueSignal) <==> GetLoopDepth(env) != 0
  {
    if GetLoopDepth(env) == 0 then Failed(IllegalArgument) else Done(ContinueSignal)
  }

  /** Exit.exec: a null environment is an error, any other raises Exit. */
  function ExecExit(env: Option<Env>): (o: Outcome)
    ensures o == Failed(RuntimeError) <==> env.None?
    ensures o == Done(ExitSignal) <==> env.Some?
  {
    if env.None? then Failed(RuntimeError) else Done(ExitSignal)
  }

  /** Assignment.exec: the target must already be defined (bound to a value)
      somewhere on the scope chain; the value is then stored in the current
      scope. */
  function ExecAssignment(a: Assignment, env: Env, fuel: nat): State
    decreases fuel, 1, 0
  {
    if Lookup(env, a.name).None? then State(Failed(IllegalArgument), env, [])
    else
      var v := Eval(a.exp, env, fuel);
      if v.result.Err? then State(Failed(v.result.error), env, v.out)
      else State(Done(Normal), SetVariable(env, a.name, v.result.value), v.out)
  }

  /** Block.exec: the statements in order, in one environment; the first
      signal or exception ends the block and is passed on unchanged. */
  function ExecBlock(ss: seq<Stmt>, env: Env, fuel: nat): State
    decreases fuel, 1, |ss|
  {
    if ss == [] then State(Done(Normal), env, [])
    else
      var st := Exec(ss[0], env, fuel);
      if st.outcome != Done(Normal) then st
      else Prefix(st.out, ExecBlock(ss[1..], st.env, fuel))
  }

  /** The loop of While.exec, entered with the loop depth already raised.
      Continue goes on to the next test and Exit leaves the loop. A Break
      ends the loop when `breakEnds` holds, as Break.java documents; the
      code as written (`breakEnds` false) leaves only the switch and goes on
      looping (see the Findings in README). */
  function ExecWhile(c: Expr, b: Stmt, env: Env, fuel: nat, breakEnds: bool): State
    decreases fuel, 1, 0
  {
    if fuel == 0 then State(Failed(FuelExhausted), env, [])
    else
      var v := Eval(c, env, fuel);
      if v.result.Err? then State(Failed(v.result.error), env, v.out)
      else if v.result.value != 1 then State(Done(Normal), env, v.out)
      else
        var st := Exec(b, env, fuel);
        if st.outcome.Failed? || st.outcome == Done(ExitSignal) then Prefix(v.out, st)
        else if st.outcome == Done(BreakSignal) && breakEnds then Prefix(v.out, st.(outcome := Done(Normal)))
        else Prefix(v.out + st.out, ExecWhile(c, b, st.env, fuel - 1, breakEnds))
  }

  /** The loop of For.exec, entered with the loop depth already raised. The
      counter is a local copy: after a Normal or Continue iteration the loop
      variable is overwritten with the incremented counter, whatever the body
      stored in it. Break ends the loop, Exit leaves it. */
  function ExecFor(name: string, count: int, bound: int, b: Stmt, env: Env, fuel: nat): State
    decreases fuel, 1, 0
  {
    if fuel == 0 then State(Failed(FuelExhausted), env, [])
    else if count > bound then State(Done(Normal), env, [])
    else
      var st := Exec(b, env, fuel);
      if st.outcome.Failed? || st.outcome == Done(ExitSignal) then st
      else if st.outcome == Done(BreakSignal) then st.(outcome := Done(Normal))
      else Prefix(st.out, ExecFor(name, count + 1, bound, b, SetVariable(st.env, name, count + 1), fuel - 1))
  }

  // ---------------------------------------------------------------------
  // Declarations and the program
  // ---------------------------------------------------------------------

  /** VariableDeclaration.exec: every name declared, unassigned, in order. */
  function DeclareAll(names: seq<string>, env: Env): Env {
    if names == [] then env
    else DeclareVariable(DeclareAll(names[..|names| - 1], env), names[|names| - 1])
  }

  /** ProcedureDeclaration.exec: register the procedure under its id. */
  function ExecProcedureDeclaration(d: ProcedureDeclaration, env: Env): Env {
    SetProcedure(env, d.id, d)
  }

  /** The registration loop of Program.exec, in declaration order. */
  function RegisterAll(ps: seq<ProcedureDeclaration>, env: Env): Env {
    if ps == [] then env
    else ExecProcedureDeclaration(ps[|ps| - 1], RegisterAll(ps[..|ps| - 1], env))
  }

  /** Program.exec: register the procedures, then run the main statement. An
      escaping Break or Continue is an error and an Exit ends the program
      normally, so no signal leaves a program. */
  function ExecProgram(p: Program, env: Env, fuel: nat): (r: State)
    ensures r.outcome == Done(Normal) || r.outcome.Failed?
  {
    var st := Exec(p.main, RegisterAll(p.procDecls, env), fuel);
    match st.outcome
    case Done(BreakSignal) => st.(outcome := Failed(RuntimeError))
    case Done(ContinueSignal) => st.(outcome := Failed(RuntimeError))
    case Done(ExitSignal) => st.(outcome := Done(Normal))
    case _ => st
  }

  // ---------------------------------------------------------------------
  // Evaluation in a null environment
  // ---------------------------------------------------------------------

  /** `eval(null)`, which For.compile uses for the loop bound: literals and
      operators work, anything that touches the environment throws a
      NullPointerException. */
  function EvalNull(x: Expr): Result<int> {
    match x
    case Number(v) => Ok(v)
    case Variable(_) => Err(NullPointer)
    case BinOp(l, r, op) =>
      if !IsArithOp(op) then Err(IllegalArgument)
      else
        var a :- EvalNull(l);
        var b :- EvalNull(r);
        Arith(op, a, b)
    case Condition(l, r, op) =>
      if !IsRelop(op) then Err(IllegalArgument)
      else
        var a :- EvalNull(l);
        var b :- EvalNull(r);
        Ok(Compare(op, a, b))
    case ProcedureCall(_, _) => Err(NullPointer)
  }

  /** How deeply eval nests on an expression without calls. */
  function Height(x: Expr): nat {
    match x
    case BinOp(l, r, _) => 1 + Max(Height(l), Height(r))
    case Condition(l, r, _) => 1 + Max(Height(l), Height(r))
    case _ => 0
  }

  function Max(a: nat, b: nat): nat {
    if a < b then b else a
  }
}
