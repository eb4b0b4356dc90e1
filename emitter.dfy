/** The code generator's state, src/emitter/Emitter.java.

    `EmitterState` is the value of one Emitter object and the functions
    below are its operations on values; the Emitter class in module
    EmitterObject is the mutable object, proved to act as these functions.

    The listing is kept as the sequence of lines in the order they were
    emitted or prepended; `Text` renders it as the one string the Java
    object builds, each line formatted as `emit` and `prepend` format it. */
module Emitters {
  import opened Base
  import opened Ast

  datatype EmitterState = EmitterState(
    code: seq<string>,
    loopID: int,
    ifID: int,
    extraStack: int,
    context: Option<ProcedureDeclaration>)

  /** `new Emitter(file)`, without the file: empty listing, both id counters
      at 1, no pushes, no procedure context. */
  const NewEmitter: EmitterState := EmitterState([], 1, 1, 0, None)

  // ---------------------------------------------------------------------
  // The listing
  // ---------------------------------------------------------------------

  predicate StartsWith(s: string, prefix: string) {
    |prefix| <= |s| && s[..|prefix|] == prefix
  }

  predicate EndsWith(s: string, suffix: string) {
    |suffix| <= |s| && s[|s| - |suffix|..] == suffix
  }

  /** Labels and directives are not indented. */
  predicate Unindented(line: string) {
    EndsWith(line, ":") || StartsWith(line, ".")
  }

  /** One line as emit and prepend write it. */
  function FormatLine(line: string): string {
    (if Unindented(line) then line else "\t" + line) + "\n"
  }

  /** The text of a listing: its lines formatted, in order. */
  function Text(code: seq<string>): string {
    if code == [] then "" else Text(code[..|code| - 1]) + FormatLine(code[|code| - 1])
  }

  function NewlineCount(s: string): nat {
    if s == "" then 0 else NewlineCount(s[..|s| - 1]) + if s[|s| - 1] == '\n' then 1 else 0
  }

  predicate SingleLine(line: string) {
    forall i :: 0 <= i < |line| ==> line[i] != '\n'
  }

  /** emit: the line goes at the end of the listing. */
  function Emit(st: EmitterState, line: string): EmitterState {
    st.(code := st.code + [line])
  }

  /** prepend: the line goes in front of the listing. */
  function Prepend(st: EmitterState, line: string): EmitterState {
    st.(code := [line] + st.code)
  }

  /** A formatted line is the line, tab-indented unless it is a label or a
      directive, ended by its only newline. */
  lemma {:induction false} FormatLineShape(line: string)
    requires SingleLine(line)
    ensures var r := FormatLine(line);
      && r[|r| - 1] == '\n'
      && NewlineCount(r) == 1
      && (r[0] == '\t' <==> !Unindented(line) || (|line| > 0 && line[0] == '\t'))
      && r[..|r| - 1] == if Unindented(line) then line else "\t" + line
  {
    var body := if Unindented(line) then line else "\t" + line;
    assert FormatLine(line) == body + "\n";
    NoNewline(body);
    assert (body + "\n")[..|body|] == body;
  }

  lemma {:induction false} NoNewline(s: string)
    requires forall i :: 0 <= i < |s| ==> s[i] != '\n'
    ensures NewlineCount(s) == 0
    decreases |s|
  {
    if s != "" {
      NoNewline(s[..|s| - 1]);
    }
  }

  lemma {:induction false} NewlineCountAppend(a: string, b: string)
    ensures NewlineCount(a + b) == NewlineCount(a) + NewlineCount(b)
    decreases |b|
  {
    if b == "" {
      assert a + b == a;
    } else {
      assert (a + b)[..|a + b| - 1] == a + b[..|b| - 1];
      NewlineCountAppend(a, b[..|b| - 1]);
    }
  }

  /** The text has one line per entry of the listing. */
  lemma {:induction false} TextLineCount(code: seq<string>)
    requires forall i :: 0 <= i < |code| ==> SingleLine(code[i])
    ensures NewlineCount(Text(code)) == |code|
    decreases |code|
  {
    if code != [] {
      TextLineCount(code[..|code| - 1]);
      FormatLineShape(code[|code| - 1]);
      NewlineCountAppend(Text(code[..|code| - 1]), FormatLine(code[|code| - 1]));
    }
  }

  /** emit appends exactly one formatted line to the text and changes
      nothing else. */
  lemma EmitText(st: EmitterState, line: string)
    ensures Text(Emit(st, line).code) == Text(st.code) + FormatLine(line)
    ensures Emit(st, line).(code := st.code) == st
  {
    assert (st.code + [line])[..|st.code|] == st.code;
  }

  /** prepend puts exactly one formatted line before the whole text, which
      is otherwise unchanged. */
  lemma {:induction false} PrependText(code: seq<string>, line: string)
    ensures Text([line] + code) == FormatLine(line) + Text(code)
    decreases |code|
  {
    if code == [] {
      assert [line] + code == [line];
      assert [line][..0] == [];
    } else {
      var init, last := code[..|code| - 1], code[|code| - 1];
      var whole := [line] + code;
      assert whole[..|whole| - 1] == [line] + init && whole[|whole| - 1] == last;
      assert Text(whole) == Text([line] + init) + FormatLine(last);
      PrependText(init, line);
      assert Text(code) == Text(init) + FormatLine(last);
    }
  }

  // ---------------------------------------------------------------------
  // The stack and the id counters
  // ---------------------------------------------------------------------

  const PushLine: string := "addi $sp, $sp, -4"
  const PopLine: string := "addu $sp, $sp, 4"

  /** incrementExtraStack: `opp` pops one word, otherwise one is pushed. */
  function IncrementExtraStack(st: EmitterState, opp: bool): EmitterState {
    st.(extraStack := st.extraStack + if opp then -1 else 1)
  }

  function EmitPush(st: EmitterState, reg: string): EmitterState {
    Emit(Emit(IncrementExtraStack(st, false), PushLine), "sw " + reg + ", ($sp)")
  }

  function EmitPop(st: EmitterState, reg: string): EmitterState {
    Emit(Emit(IncrementExtraStack(st, true), "lw " + reg + ", ($sp)"), PopLine)
  }

  /** A push then a pop restores the push count and appends the four stack
      lines, store before load. */
  lemma PushThenPop(st: EmitterState, r: string, s: string)
    ensures EmitPop(EmitPush(st, r), s).extraStack == st.extraStack
    ensures EmitPop(EmitPush(st, r), s).code ==
      st.code + [PushLine, "sw " + r + ", ($sp)", "lw " + s + ", ($sp)", PopLine]
    ensures EmitPush(st, r).extraStack == st.extraStack + 1 && EmitPop(st, s).extraStack == st.extraStack - 1
  {
  }

  /** nextLoopID: the counter's value, and the counter moves on by one. */
  function NextLoopID(st: EmitterState): (int, EmitterState) {
    (st.loopID, st.(loopID := st.loopID + 1))
  }

  function NextIfID(st: EmitterState): (int, EmitterState) {
    (st.ifID, st.(ifID := st.ifID + 1))
  }

  /** Two draws give two different ids, the second the larger, and drawing
      from one counter leaves the other alone. */
  lemma IdsIncrease(st: EmitterState)
    ensures var (a, s1) := NextLoopID(st); var (b, _) := NextLoopID(s1);
      a < b && s1.ifID == st.ifID && s1.(loopID := st.loopID) == st
    ensures var (a, s1) := NextIfID(st); var (b, _) := NextIfID(s1);
      a < b && s1.loopID == st.loopID && s1.(ifID := st.ifID) == st
  {
  }

  /** setProcedureContext also forgets the pushes counted so far. */
  function SetProcedureContext(st: EmitterState, p: ProcedureDeclaration): EmitterState {
    st.(extraStack := 0, context := Some(p))
  }

  /** clearProcedureContext leaves the push count as it is. */
  function ClearProcedureContext(st: EmitterState): EmitterState {
    st.(context := None)
  }

  // ---------------------------------------------------------------------
  // Local names and their stack offsets
  // ---------------------------------------------------------------------

  /** The scan over the local declarations, from declaration i on, that
      isLocal and getOffset share: the first declaration whose first name is
      `name`; reading the first name of a declaration without names throws. */
  function FindLocal(locals: seq<VariableDeclaration>, name: string, i: nat): (r: Result<Option<nat>>)
    requires i <= |locals|
    ensures r.Ok? && r.value.Some? ==>
      && i <= r.value.value < |locals|
      && |locals[r.value.value].names| > 0 && locals[r.value.value].names[0] == name
      && forall j :: i <= j < r.value.value ==> |locals[j].names| > 0 && locals[j].names[0] != name
    ensures r.Ok? && r.value.None? ==>
      forall j :: i <= j < |locals| ==> |locals[j].names| > 0 && locals[j].names[0] != name
    ensures r.Err? ==>
      && r.error == IndexOutOfBounds
      && exists j :: i <= j < |locals| && locals[j].names == [] &&
           forall k :: i <= k < j ==> |locals[k].names| > 0 && locals[k].names[0] != name
    decreases |locals| - i
  {
    if i == |locals| then Ok(None)
    else if locals[i].names == [] then Err(IndexOutOfBounds)
    else if locals[i].names[0] == name then Ok(Some(i))
    else FindLocal(locals, name, i + 1)
  }

  /** The first parameter, from index i on, named `name`. */
  function FindParameter(params: seq<string>, name: string, i: nat): (r: Option<nat>)
    requires i <= |params|
    ensures r.Some? ==>
      && i <= r.value < |params| && params[r.value] == name
      && forall j :: i <= j < r.value ==> params[j] != name
    ensures r.None? ==> forall j :: i <= j < |params| ==> params[j] != name
    decreases |params| - i
  {
    if i == |params| then None
    else if params[i] == name then Some(i)
    else FindParameter(params, name, i + 1)
  }

  /** isLocal: outside a procedure nothing is local; inside one the
      procedure's own name, the first name of each local declaration and
      every parameter are. */
  function IsLocal(st: EmitterState, name: string): Result<bool> {
    if st.context.None? then Ok(false)
    else
      var p := st.context.value;
      if p.id == name then Ok(true)
      else
        var k :- FindLocal(p.locals, name, 0);
        if k.Some? then Ok(true) else Ok(FindParameter(p.parameters, name, 0).Some?)
  }

  /** Every local declaration has a first name. */
  predicate NamedLocals(p: ProcedureDeclaration) {
    forall k :: 0 <= k < |p.locals| ==> |p.locals[k].names| > 0
  }

  predicate LocalNamed(p: ProcedureDeclaration, name: string) {
    exists k :: 0 <= k < |p.locals| && |p.locals[k].names| > 0 && p.locals[k].names[0] == name
  }

  /** What isLocal decides, both ways, and when it throws. */
  lemma IsLocalMeaning(st: EmitterState, name: string)
    ensures st.context.None? ==> IsLocal(st, name) == Ok(false)
    ensures st.context.Some? && NamedLocals(st.context.value) ==>
      var p := st.context.value;
      IsLocal(st, name) == Ok(name == p.id || LocalNamed(p, name) || name in p.parameters)
    ensures IsLocal(st, name).Err? ==>
      IsLocal(st, name) == Err(IndexOutOfBounds) && st.context.Some? &&
      st.context.value.id != name && !NamedLocals(st.context.value)
  {
    if st.context.Some? {
      var p := st.context.value;
      var k := FindLocal(p.locals, name, 0);
      if NamedLocals(p) && k.Ok? && k.value.None? && FindParameter(p.parameters, name, 0).None? {
        assert !LocalNamed(p, name);
        assert name !in p.parameters;
      }
    }
  }

  /** getOffset: the distance in bytes from the stack pointer to the slot of
      a local name. Above the words pushed since the procedure context was
      set (extraStack of them) lie the local declarations, last declared
      first, then the return-value slot, then the parameters, last first. */
  function GetOffset(st: EmitterState, name: string): Result<int> {
    if st.context.None? then Err(IllegalState)
    else
      var local :- IsLocal(st, name);
      if !local then Err(IllegalArgument)
      else
        var p := st.context.value;
        var n := |p.locals|;
        var excess := st.extraStack * 4;
        var k :- FindLocal(p.locals, name, 0);
        if k.Some? then Ok(excess + 4 * (n - 1 - k.value))
        else if p.id == name then Ok(excess + 4 * n)
        else
          var i := FindParameter(p.parameters, name, 0);
          if i.Some? then Ok(excess + 4 * n + 4 + 4 * (|p.parameters| - 1 - i.value))
          else Err(IllegalArgument)
  }

  /** getOffset throws outside a procedure and for a name that is not local. */
  lemma GetOffsetErrors(st: EmitterState, name: string)
    ensures st.context.None? ==> GetOffset(st, name) == Err(IllegalState)
    ensures IsLocal(st, name) == Ok(false) && st.context.Some? ==> GetOffset(st, name) == Err(IllegalArgument)
    ensures st.context.Some? && NamedLocals(st.context.value) ==>
      (GetOffset(st, name).Ok? <==> IsLocal(st, name) == Ok(true))
  {
    if st.context.Some? && NamedLocals(st.context.value) && IsLocal(st, name) == Ok(true) {
      var p := st.context.value;
      var k := FindLocal(p.locals, name, 0);
      if k.Ok? && k.value.None? && p.id != name {
        assert FindParameter(p.parameters, name, 0).Some?;
      }
    }
  }

  /** The three offset formulas: a local declaration shadows the procedure's
      name, which shadows the parameters. */
  lemma GetOffsetValues(st: EmitterState, name: string)
    requires st.context.Some? && NamedLocals(st.context.value)
    ensures var p := st.context.value; var n := |p.locals|; var es := st.extraStack;
      && (forall k ::
            0 <= k < n && p.locals[k].names[0] == name && (forall j :: 0 <= j < k ==> p.locals[j].names[0] != name)
            ==> GetOffset(st, name) == Ok(4 * es + 4 * (n - 1 - k)))
      && (!LocalNamed(p, name) && p.id == name ==> GetOffset(st, name) == Ok(4 * es + 4 * n))
      && (forall i ::
            0 <= i < |p.parameters| && p.parameters[i] == name && !LocalNamed(p, name) && p.id != name &&
            (forall j :: 0 <= j < i ==> p.parameters[j] != name)
            ==> GetOffset(st, name) == Ok(4 * es + 4 * n + 4 + 4 * (|p.parameters| - 1 - i)))
  {
    var p := st.context.value;
    var loc := FindLocal(p.locals, name, 0);
    if loc.Ok? && loc.value.Some? {
      assert LocalNamed(p, name);
    }
    if loc.Ok? && loc.value.None? && p.id != name {
      IsLocalMeaning(st, name);
    }
  }

  // ---------------------------------------------------------------------
  // The stack frame of a procedure
  // ---------------------------------------------------------------------

  /** A word of a procedure's frame. */
  datatype Slot = ReturnAddress | LocalSlot(k: nat) | ReturnSlot | ParameterSlot(i: nat)

  /** Slots n-1 down to 0 of one kind. */
  function LocalsDown(n: nat): seq<Slot> {
    if n == 0 then [] else [LocalSlot(n - 1)] + LocalsDown(n - 1)
  }

  function ParametersDown(n: nat): seq<Slot> {
    if n == 0 then [] else [ParameterSlot(n - 1)] + ParametersDown(n - 1)
  }

  /** The frame from the top of the stack down, as the prologue of
      ProcedureDeclaration.compile leaves it: $ra, the local slots pushed
      after the return slot (so the last declared is on top), the return
      slot, and below it the arguments the caller pushed in order. */
  function FrameSlots(p: ProcedureDeclaration): seq<Slot> {
    [ReturnAddress] + LocalsDown(|p.locals|) + [ReturnSlot] + ParametersDown(|p.parameters|)
  }

  lemma {:induction false} DownAt(n: nat, j: nat)
    requires j < n
    ensures |LocalsDown(n)| == n && LocalsDown(n)[j] == LocalSlot(n - 1 - j)
    ensures |ParametersDown(n)| == n && ParametersDown(n)[j] == ParameterSlot(n - 1 - j)
    decreases n
  {
    if j > 0 {
      DownAt(n - 1, j - 1);
    }
    DownLength(n);
  }

  lemma {:induction false} DownLength(n: nat)
    ensures |LocalsDown(n)| == n && |ParametersDown(n)| == n
    decreases n
  {
    if n > 0 {
      DownLength(n - 1);
    }
  }

  /** The slot holding what `name` denotes in procedure p. */
  predicate SlotOf(p: ProcedureDeclaration, s: Slot, name: string) {
    match s
    case ReturnAddress => false
    case LocalSlot(k) => k < |p.locals| && |p.locals[k].names| > 0 && p.locals[k].names[0] == name
    case ReturnSlot => p.id == name
    case ParameterSlot(i) => i < |p.parameters| && p.parameters[i] == name
  }

  /** getOffset agrees with the prologue: with extraStack words pushed since
      the context was set, the first of them $ra, every offset it returns is
      a whole number of words and addresses the slot of that very name. */
  lemma OffsetAddressesSlot(st: EmitterState, name: string)
    requires st.context.Some? && st.extraStack >= 1 && GetOffset(st, name).Ok?
    ensures var p := st.context.value; var o := GetOffset(st, name).value;
      var j := o / 4 - (st.extraStack - 1);
      && o % 4 == 0
      && 0 <= j < |FrameSlots(p)|
      && SlotOf(p, FrameSlots(p)[j], name)
  {
    var p := st.context.value;
    var n := |p.locals|;
    var m := |p.parameters|;
    var es := st.extraStack;
    var o := GetOffset(st, name).value;
    var frame := FrameSlots(p);
    DownLength(n);
    DownLength(m);
    assert |frame| == n + m + 2;
    var k := FindLocal(p.locals, name, 0);
    if k.value.Some? {
      var kk := k.value.value;
      assert o == 4 * (es + n - 1 - kk);
      var j := n - kk;
      assert o / 4 - (es - 1) == j;
      DownAt(n, n - 1 - kk);
      assert frame[j] == LocalsDown(n)[n - 1 - kk];
    } else if p.id == name {
      assert o == 4 * (es + n);
      assert o / 4 - (es - 1) == n + 1;
      assert frame[n + 1] == ReturnSlot;
    } else {
      var i := FindParameter(p.parameters, name, 0).value;
      assert o == 4 * (es + n + 1 + (m - 1 - i));
      var j := n + 2 + (m - 1 - i);
      assert o / 4 - (es - 1) == j;
      DownAt(m, m - 1 - i);
      assert frame[j] == ParametersDown(m)[m - 1 - i];
    }
  }
}

/** The mutable Emitter object, proved to act as the functions of module
    Emitters. The output file is not modelled: the listing stays in `code`. */
module EmitterObject {
  import opened Base
  import opened Ast
  import opened Emitters

  class Emitter {
    var code: seq<string>
    var loopID: int
    var ifID: int
    var extraStack: int
    var context: Option<ProcedureDeclaration>

    function View(): EmitterState
      reads this
    {
      EmitterState(code, loopID, ifID, extraStack, context)
    }

    constructor ()
      ensures View() == NewEmitter
    {
      code := [];
      loopID := 1;
      ifID := 1;
      extraStack := 0;
      context := None;
    }

    method Emit(line: string)
      modifies this
      ensures View() == Emitters.Emit(old(View()), line)
    {
      code := code + [line];
    }

    method Prepend(line: string)
      modifies this
      ensures View() == Emitters.Prepend(old(View()), line)
    {
      code := [line] + code;
    }

    method IncrementExtraStack(opp: bool)
      modifies this
      ensures View() == Emitters.IncrementExtraStack(old(View()), opp)
    {
      if opp {
        extraStack := extraStack - 1;
      } else {
        extraStack := extraStack + 1;
      }
    }

    method EmitPush(reg: string)
      modifies this
      ensures View() == Emitters.EmitPush(old(View()), reg)
    {
      IncrementExtraStack(false);
      Emit(PushLine);
      Emit("sw " + reg + ", ($sp)");
    }

    method EmitPop(reg: string)
      modifies this
      ensures View() == Emitters.EmitPop(old(View()), reg)
    {
      IncrementExtraStack(true);
      Emit("lw " + reg + ", ($sp)");
      Emit(PopLine);
    }

    method NextLoopID() returns (id: int)
      modifies this
      ensures (id, View()) == Emitters.NextLoopID(old(View()))
    {
      id := loopID;
      loopID := loopID + 1;
    }

    method NextIfID() returns (id: int)
      modifies this
      ensures (id, View()) == Emitters.NextIfID(old(View()))
    {
      id := ifID;
      ifID := ifID + 1;
    }

    method SetProcedureContext(p: ProcedureDeclaration)
      modifies this
      ensures View() == Emitters.SetProcedureContext(old(View()), p)
    {
      extraStack := 0;
      context := Some(p);
    }

    method ClearProcedureContext()
      modifies this
      ensures View() == Emitters.ClearProcedureContext(old(View()))
    {
      context := None;
    }

    /** isLocal, with its two loops. */
    method IsLocal(name: string) returns (r: Result<bool>)
      ensures r == Emitters.IsLocal(View(), name)
    {
      if context.None? {
        return Ok(false);
      }
      var p := context.value;
      if p.id == name {
        return Ok(true);
      }
      for k := 0 to |p.locals|
        invariant FindLocal(p.locals, name, 0) == FindLocal(p.locals, name, k)
      {
        if p.locals[k].names == [] {
          return Err(IndexOutOfBounds);
        }
        if p.locals[k].names[0] == name {
          return Ok(true);
        }
      }
      for i := 0 to |p.parameters|
        invariant FindParameter(p.parameters, name, 0) == FindParameter(p.parameters, name, i)
      {
        if p.parameters[i] == name {
          return Ok(true);
        }
      }
      r := Ok(false);
    }

    /** getOffset, with the `excess` accumulator of the Java method. */
    method GetOffset(name: string) returns (r: Result<int>)
      ensures r == Emitters.GetOffset(View(), name)
    {
      if context.None? {
        return Err(IllegalState);
      }
      var local := IsLocal(name);
      if local.Err? {
        return Err(local.error);
      }
      if !local.value {
        return Err(IllegalArgument);
      }
      var p := context.value;
      var excess := extraStack * 4;
      for offset := 0 to |p.locals|
        invariant FindLocal(p.locals, name, 0) == FindLocal(p.locals, name, offset)
      {
        if p.locals[offset].names == [] {
          return Err(IndexOutOfBounds);
        }
        if p.locals[offset].names[0] == name {
          return Ok(excess + 4 * (|p.locals| - 1 - offset));
        }
      }
      excess := excess + 4 * |p.locals|;
      if p.id == name {
        return Ok(excess);
      }
      excess := excess + 4;
      for i := 0 to |p.parameters|
        invariant FindParameter(p.parameters, name, 0) == FindParameter(p.parameters, name, i)
      {
        if p.parameters[i] == name {
          return Ok(excess + 4 * (|p.parameters| - 1 - i));
        }
      }
      r := Err(IllegalArgument);
    }
  }
}
