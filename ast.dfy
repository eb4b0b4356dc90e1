/** The abstract syntax tree of the Pascal subset.

    In the Java code each node kind is its own class implementing Expression
    or Statement; here the closed set of kinds is one datatype per interface.
    The getters of the Java classes (Variable.getName, Assignment.getName,
    VariableDeclaration.getNames, ProcedureDeclaration.getId/getParameters/
    getStatement/getLocals) are the datatypes' field selectors. */
module Ast {
  import opened Base

  /** Expression: Number, Variable, BinOp, Condition and ProcedureCall. */
  datatype Expr =
    | Number(value: int)
    | Variable(name: string)
    | BinOp(left: Expr, right: Expr, op: string)
    | Condition(left: Expr, right: Expr, relop: string)
    | ProcedureCall(id: string, args: seq<Expr>)

  /** Assignment is used both as a statement and as the heading of a For. */
  datatype Assignment = Assignment(name: string, exp: Expr)

  /** Statement. `Call` is a procedure call used as a statement, which the
      parser builds from `id(args);`. Break and Continue carry no loop: the
      loop they jump out of is passed to their compile (see Codegen). */
  datatype Stmt =
    | Assign(assignment: Assignment)
    | Block(stmts: seq<Stmt>)
    | If(cond: Expr, body: Stmt)
    | IfElse(cond: Expr, thenBody: Stmt, elseBody: Stmt)
    | While(cond: Expr, body: Stmt)
    | For(begin: Assignment, end: Expr, body: Stmt)
    | Break
    | Continue
    | Exit
    | Writeln(exp: Expr)
    | Call(id: string, args: seq<Expr>)

  datatype VariableDeclaration = VariableDeclaration(names: seq<string>)

  /** A procedure; `parameters` are the names of its Variable parameters. */
  datatype ProcedureDeclaration =
    ProcedureDeclaration(id: string, parameters: seq<string>, body: Stmt, locals: seq<VariableDeclaration>)

  datatype Program =
    Program(varDecls: seq<VariableDeclaration>, procDecls: seq<ProcedureDeclaration>, main: Stmt)

  /** The loop a Break or Continue belongs to: its kind and its loop id. */
  datatype LoopKind = WhileLoop | ForLoop
  datatype LoopRef = LoopRef(kind: LoopKind, id: int)

  /** The check in the constructors of Break and Continue: the statement they
      are attached to must be a While or a For. */
  function LoopKindOf(s: Stmt): (r: Result<LoopKind>)
    ensures r.Ok? <==> (s.While? || s.For?)
    ensures r.Ok? ==> (r.value == WhileLoop <==> s.While?)
    ensures r.Err? ==> r.error == IllegalArgument
  {
    match s
    case While(_, _) => Ok(WhileLoop)
    case For(_, _, _) => Ok(ForLoop)
    case _ => Err(IllegalArgument)
  }

  /** Assignment.decrementExp: the expression becomes `exp - 1`. */
  function DecrementExp(a: Assignment): (r: Assignment)
    ensures r.name == a.name
  {
    Assignment(a.name, BinOp(a.exp, Number(1), "-"))
  }

  /** VariableDeclaration.multipleNames. */
  predicate MultipleNames(d: VariableDeclaration) {
    |d.names| > 1
  }

  /** The names of a list of declarations, in order. */
  function AllNames(ds: seq<VariableDeclaration>): seq<string> {
    if ds == [] then [] else AllNames(ds[..|ds| - 1]) + ds[|ds| - 1].names
  }

  /** VariableDeclaration.splitNames: one single-name declaration per name,
      in order, so that the split declares exactly the original names. */
  method SplitNames(d: VariableDeclaration) returns (split: seq<VariableDeclaration>)
    ensures |split| == |d.names|
    ensures forall i :: 0 <= i < |split| ==> split[i] == VariableDeclaration([d.names[i]])
    ensures AllNames(split) == d.names
    ensures MultipleNames(d) <==> |split| > 1
  {
    split := [];
    var i := 0;
    while i < |d.names|
      invariant 0 <= i <= |d.names|
      invariant |split| == i
      invariant forall k :: 0 <= k < i ==> split[k] == VariableDeclaration([d.names[k]])
      invariant AllNames(split) == d.names[..i]
    {
      split := split + [VariableDeclaration([d.names[i]])];
      assert split[..|split| - 1] == split[..i];
      assert d.names[..i + 1] == d.names[..i] + [d.names[i]];
      i := i + 1;
    }
    assert d.names[..i] == d.names;
  }

  /** Every name in a node is made of letters and digits, as the scanner's
      identifiers are; a label can then never be confused with a name. */
  predicate IsIdentifierChar(c: char) {
    ('a' <= c <= 'z') || ('A' <= c <= 'Z') || ('0' <= c <= '9')
  }

  predicate IsName(s: string) {
    forall i :: 0 <= i < |s| ==> IsIdentifierChar(s[i])
  }

  predicate ExprNames(x: Expr) {
    match x
    case Number(_) => true
    case Variable(name) => IsName(name)
    case BinOp(l, r, _) => ExprNames(l) && ExprNames(r)
    case Condition(l, r, _) => ExprNames(l) && ExprNames(r)
    case ProcedureCall(id, args) => IsName(id) && forall i :: 0 <= i < |args| ==> ExprNames(args[i])
  }

  predicate StmtNames(s: Stmt) {
    match s
    case Assign(a) => IsName(a.name) && ExprNames(a.exp)
    case Block(ss) => forall i :: 0 <= i < |ss| ==> StmtNames(ss[i])
    case If(c, b) => ExprNames(c) && StmtNames(b)
    case IfElse(c, t, e) => ExprNames(c) && StmtNames(t) && StmtNames(e)
    case While(c, b) => ExprNames(c) && StmtNames(b)
    case For(a, e, b) => IsName(a.name) && ExprNames(a.exp) && ExprNames(e) && StmtNames(b)
    case Break => true
    case Continue => true
    case Exit => true
    case Writeln(e) => ExprNames(e)
    case Call(id, args) => IsName(id) && forall i :: 0 <= i < |args| ==> ExprNames(args[i])
  }
}
