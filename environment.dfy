/** The interpreter's scope record, src/environments/Environment.java.

    `Env` is the value of one Environment object and the functions below are
    its operations on values; `Environment` is the mutable object itself,
    whose methods are proved to act as those functions.

    Environment.java stores `Map<String, Integer>`; a name bound to Java null
    (what declareVariable stores) is `None` here.

    The Java file defines setVariable, getVariable, modifyLoopDepth and
    getLoopDepth. Its callers also use setParent, getProcedure, setProcedure
    and declareVariable, which the file does not define; they are the
    "extension" section below: a parent link whose lookup falls back to the
    parent, and a procedure table kept at the root of the parent chain. */
module Environments {
  import opened Base
  import opened Ast

  datatype Env = Env(
    symtab: map<string, Option<int>>,
    loopDepth: int,
    parent: Option<Env>,
    procedures: map<string, ProcedureDeclaration>)

  /** `new Environment()`: no bindings, loop depth 0. */
  const EmptyEnv: Env := Env(map[], 0, None, map[])

  /** setVariable: a put into this scope's map. */
  function SetVariable(env: Env, name: string, value: int): Env {
    env.(symtab := env.symtab[name := Some(value)])
  }

  /** getVariable: a get from this scope's map, unboxed to int; unboxing the
      null that `get` returns for a missing or declared-only name throws. */
  function GetVariable(env: Env, name: string): (r: Result<int>)
    ensures r.Ok? <==> name in env.symtab && env.symtab[name].Some?
    ensures r.Ok? ==> r.value == env.symtab[name].value
    ensures r.Err? ==> r.error == NullPointer
  {
    if name in env.symtab && env.symtab[name].Some? then Ok(env.symtab[name].value)
    else Err(NullPointer)
  }

  /** modifyLoopDepth: +1 when entering a loop, -1 when leaving it. */
  function ModifyLoopDepth(env: Env, inc: bool): Env {
    env.(loopDepth := env.loopDepth + if inc then 1 else -1)
  }

  function GetLoopDepth(env: Env): int {
    env.loopDepth
  }

  /** A new scope has no bindings and is outside every loop. */
  lemma EmptyEnvIsEmpty(name: string)
    ensures GetVariable(EmptyEnv, name) == Err(NullPointer)
    ensures GetLoopDepth(EmptyEnv) == 0
    ensures Lookup(EmptyEnv, name) == None && GetProcedure(EmptyEnv, name) == None
  {
  }

  /** setVariable then getVariable of the same name reads the value back. */
  lemma SetThenGet(env: Env, name: string, value: int)
    ensures GetVariable(SetVariable(env, name, value), name) == Ok(value)
  {
  }

  /** setVariable changes only the binding it writes. */
  lemma SetVariableFrame(env: Env, name: string, value: int, other: string)
    requires other != name
    ensures GetVariable(SetVariable(env, name, value), other) == GetVariable(env, other)
    ensures Lookup(SetVariable(env, name, value), other) == Lookup(env, other)
    ensures GetLoopDepth(SetVariable(env, name, value)) == GetLoopDepth(env)
    ensures SetVariable(env, name, value).parent == env.parent
    ensures SetVariable(env, name, value).procedures == env.procedures
  {
  }

  /** Entering and leaving a loop, in either order, restores the depth. */
  lemma LoopDepthRoundTrip(env: Env, inc: bool)
    ensures ModifyLoopDepth(ModifyLoopDepth(env, inc), !inc) == env
    ensures GetLoopDepth(ModifyLoopDepth(env, inc)) == GetLoopDepth(env) + (if inc then 1 else -1)
  {
  }

  // ---------------------------------------------------------------------
  // Extension used by the callers of Environment
  // ---------------------------------------------------------------------

  function SetParent(env: Env, p: Env): Env {
    env.(parent := Some(p))
  }

  /** declareVariable(name, null): the name exists in this scope, unassigned. */
  function DeclareVariable(env: Env, name: string): Env {
    env.(symtab := env.symtab[name := None])
  }

  /** Variable lookup: this scope first, then the parent chain. None means
      unbound everywhere, or bound to null in the nearest scope that has it. */
  function Lookup(env: Env, name: string): Option<int>
    decreases env
  {
    if name in env.symtab then env.symtab[name]
    else if env.parent.Some? then Lookup(env.parent.value, name)
    else None
  }

  /** The root of the parent chain, where the procedure table lives. */
  function Root(env: Env): (r: Env)
    ensures r.parent == None
    decreases env
  {
    if env.parent.Some? then Root(env.parent.value) else env
  }

  function GetProcedure(env: Env, id: string): Option<ProcedureDeclaration> {
    var root := Root(env);
    if id in root.procedures then Some(root.procedures[id]) else None
  }

  /** setProcedure: writes the table at the root of the chain. */
  function SetProcedure(env: Env, id: string, p: ProcedureDeclaration): Env
    decreases env
  {
    if env.parent.Some? then env.(parent := Some(SetProcedure(env.parent.value, id, p)))
    else env.(procedures := env.procedures[id := p])
  }

  /** The binding in the nearest scope shadows those further up. */
  lemma LookupShadows(env: Env, p: Env, name: string, value: int)
    ensures Lookup(SetParent(SetVariable(env, name, value), p), name) == Some(value)
  {
  }

  /** A name missing from this scope is looked up in the parent. */
  lemma LookupFallsBack(env: Env, p: Env, name: string)
    requires name !in env.symtab
    ensures Lookup(SetParent(env, p), name) == Lookup(p, name)
  {
  }

  /** A declared name that was never assigned reads as null. */
  lemma DeclareThenLookup(env: Env, name: string)
    ensures Lookup(DeclareVariable(env, name), name) == None
    ensures GetVariable(DeclareVariable(env, name), name) == Err(NullPointer)
  {
  }

  /** A registered procedure is visible from every scope below the root, and
      registering leaves every variable binding where it was. */
  lemma {:induction false} SetThenGetProcedure(env: Env, id: string, p: ProcedureDeclaration, other: string)
    ensures GetProcedure(SetProcedure(env, id, p), id) == Some(p)
    ensures other != id ==> GetProcedure(SetProcedure(env, id, p), other) == GetProcedure(env, other)
    ensures Lookup(SetProcedure(env, id, p), other) == Lookup(env, other)
    ensures SetProcedure(env, id, p).symtab == env.symtab
    ensures SetProcedure(env, id, p).loopDepth == env.loopDepth
    decreases env
  {
    if env.parent.Some? {
      SetThenGetProcedure(env.parent.value, id, p, other);
    }
  }

  /** A child scope sees the procedures of its parent's chain. */
  lemma ChildSeesProcedures(child: Env, p: Env, id: string)
    ensures GetProcedure(SetParent(child, p), id) == GetProcedure(p, id)
  {
  }
}

/** The mutable Environment object, proved to act as the functions of
    module Environments. */
module EnvironmentObject {
  import opened Base
  import opened Ast
  import opened Environments

  /** An Environment object. The parent link holds the caller's scope as a
      value: the caller is suspended while the callee runs, and nothing the
      callee executes writes to the caller's scope. */
  class Environment {
    var symtab: map<string, Option<int>>
    var loopDepth: int
    var parent: Option<Env>
    var procedures: map<string, ProcedureDeclaration>

    function View(): Env
      reads this
    {
      Env(symtab, loopDepth, parent, procedures)
    }

    constructor ()
      ensures View() == EmptyEnv
    {
      symtab := map[];
      loopDepth := 0;
      parent := None;
      procedures := map[];
    }

    method SetVariable(name: string, value: int)
      modifies this
      ensures View() == Environments.SetVariable(old(View()), name, value)
    {
      symtab := symtab[name := Some(value)];
    }

    method GetVariable(name: string) returns (r: Result<int>)
      ensures r == Environments.GetVariable(View(), name)
    {
      if name in symtab && symtab[name].Some? {
        r := Ok(symtab[name].value);
      } else {
        r := Err(NullPointer);
      }
    }

    method ModifyLoopDepth(inc: bool)
      modifies this
      ensures View() == Environments.ModifyLoopDepth(old(View()), inc)
    {
      loopDepth := loopDepth + if inc then 1 else -1;
    }

    method GetLoopDepth() returns (depth: int)
      ensures depth == Environments.GetLoopDepth(View())
    {
      depth := loopDepth;
    }

    method SetParent(p: Env)
      modifies this
      ensures View() == Environments.SetParent(old(View()), p)
    {
      parent := Some(p);
    }

    method DeclareVariable(name: string)
      modifies this
      ensures View() == Environments.DeclareVariable(old(View()), name)
    {
      symtab := symtab[name := None];
    }

    method Lookup(name: string) returns (r: Option<int>)
      ensures r == Environments.Lookup(View(), name)
    {
      if name in symtab {
        r := symtab[name];
      } else if parent.Some? {
        r := LookupIn(parent.value, name);
      } else {
        r := None;
      }
    }

    method GetProcedure(id: string) returns (r: Option<ProcedureDeclaration>)
      ensures r == Environments.GetProcedure(View(), id)
    {
      var root := View();
      while root.parent.Some?
        invariant Root(root) == Root(View())
        decreases root
      {
        root := root.parent.value;
      }
      r := if id in root.procedures then Some(root.procedures[id]) else None;
    }

    method SetProcedure(id: string, p: ProcedureDeclaration)
      modifies this
      ensures View() == Environments.SetProcedure(old(View()), id, p)
    {
      if parent.Some? {
        parent := Some(Environments.SetProcedure(parent.value, id, p));
      } else {
        procedures := procedures[id := p];
      }
    }
  }

  /** The walk up the parent chain, as a loop. */
  method LookupIn(env: Env, name: string) returns (r: Option<int>)
    ensures r == Lookup(env, name)
  {
    var scope := env;
    while name !in scope.symtab && scope.parent.Some?
      invariant Lookup(scope, name) == Lookup(env, name)
      decreases scope
    {
      scope := scope.parent.value;
    }
    r := if name in scope.symtab then scope.symtab[name] else None;
  }
}
