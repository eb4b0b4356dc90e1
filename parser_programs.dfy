/** Procedure declarations and whole programs read back from their printed
    tokens: parseProgram undoes a printer of programs. */
module ProgramPrinting {
  import opened Base
  import opened Tokens
  import opened Ast
  import opened Parsing
  import opened ParserProperties
  import opened StatementPrinting

  /** `, p_i , p_(i+1) ...` of a parameter list. */
  function UnparseParams(ps: seq<string>, i: nat): seq<Token>
    decreases |ps| - i
  {
    if i >= |ps| then [] else [Comma, Word(ps[i])] + UnparseParams(ps, i + 1)
  }

  /** The parameter names separated by commas. */
  function UnparseParameters(ps: seq<string>): seq<Token> {
    if ps == [] then [] else [Word(ps[0])] + UnparseParams(ps, 1)
  }

  /** `PROCEDURE id ( parameters ) ; statement` */
  function UnparseProcedure(p: ProcedureDeclaration): seq<Token> {
    [Word("PROCEDURE"), Word(p.id), LeftParen] + (UnparseParameters(p.parameters) + ([RightParen, Semicolon] + UnparseStmt(p.body)))
  }

  /** The declarations from the i-th on. */
  function UnparseProcedures(ps: seq<ProcedureDeclaration>, i: nat): seq<Token>
    decreases |ps| - i
  {
    if i >= |ps| then [] else UnparseProcedure(ps[i]) + UnparseProcedures(ps, i + 1)
  }

  /** The declarations, then the main statement. */
  function UnparseProgram(p: Program): seq<Token> {
    UnparseProcedures(p.procDecls, 0) + UnparseStmt(p.main)
  }

  /** The declarations the parser can build: no locals, parameter names
      made of letters and digits, a printable body (stated of the
      one-statement list, as NestedRoundTrip takes it). */
  predicate PrintableProcedure(p: ProcedureDeclaration) {
    && p.locals == []
    && (forall i :: 0 <= i < |p.parameters| ==> IsName(p.parameters[i]))
    && PrintableBlock([p.body])
  }

  predicate PrintableProcedures(ps: seq<ProcedureDeclaration>) {
    forall i :: 0 <= i < |ps| ==> PrintableProcedure(ps[i])
  }

  /** The programs the parser can build: no global declarations, and the
      declarations and the main statement printable. */
  predicate PrintableProgram(p: Program) {
    p.varDecls == [] && PrintableProcedures(p.procDecls) && PrintableBlock([p.main])
  }

  /** A name is neither of the two tokens a parameter list looks for. */
  lemma NameIsNoDelimiter(x: string)
    requires IsName(x)
    ensures x != ")" && x != ","
  {
    if |x| > 0 {
      assert IsIdentifierChar(x[0]);
    }
  }

  /** The `, name` loop of a PROCEDURE heading reads back the remaining
      parameters and stops at the ")". */
  lemma {:induction false} ParamsRestRoundTrip(ps: seq<string>, i: nat, ts: seq<Token>, pos: nat)
    requires 1 <= i <= |ps| && forall k :: 0 <= k < |ps| ==> IsName(ps[k])
    requires At(ts, pos, UnparseParams(ps, i))
    requires Current(ts, pos + |UnparseParams(ps, i)|) == RightParen
    ensures ParametersRest(ts, pos, ps[..i]) == Ok(Parsed(ps, pos + |UnparseParams(ps, i)|))
    decreases |ps| - i
  {
    if i == |ps| {
      WholePrefix(ps);
    } else {
      AtPair(ts, pos, Comma, Word(ps[i]), UnparseParams(ps, i + 1));
      NameIsNoDelimiter(ps[i]);
      ParamsRestRoundTrip(ps, i + 1, ts, pos + 2);
      PrefixExtends(ps, i);
    }
  }

  /** The parameter list of a printed heading, up to the ")". */
  lemma {:induction false} ParametersRoundTrip(p: ProcedureDeclaration, ts: seq<Token>, pos: nat) returns (q: nat)
    requires PrintableProcedure(p) && At(ts, pos, UnparseProcedure(p))
    ensures q == pos + 3 + |UnparseParameters(p.parameters)|
    ensures pos + 3 <= |ts| && Current(ts, pos) == Word("PROCEDURE") && Current(ts, pos + 1) == Word(p.id)
    ensures Current(ts, pos + 2) == LeftParen
    ensures Current(ts, q) == RightParen && Current(ts, q + 1) == Semicolon
    ensures At(ts, q + 2, UnparseStmt(p.body))
    ensures q + 2 + |UnparseStmt(p.body)| == pos + |UnparseProcedure(p)|
    ensures p.parameters == [] ==> q == pos + 3 && Current(ts, pos + 3) == RightParen
    ensures p.parameters != [] ==>
      && Current(ts, pos + 3) == Word(p.parameters[0]) && p.parameters[0] != ")"
      && ParametersRest(ts, pos + 4, [p.parameters[0]]) == Ok(Parsed(p.parameters, q))
  {
    var ps := p.parameters;
    var u := UnparseParameters(ps);
    var tail := [RightParen, Semicolon] + UnparseStmt(p.body);
    assert UnparseProcedure(p) == [Word("PROCEDURE"), Word(p.id), LeftParen] + (u + tail);
    AtSplit(ts, pos, [Word("PROCEDURE"), Word(p.id), LeftParen], u + tail);
    assert [Word("PROCEDURE"), Word(p.id), LeftParen] == [Word("PROCEDURE"), Word(p.id)] + [LeftParen];
    AtSplit(ts, pos, [Word("PROCEDURE"), Word(p.id)], [LeftParen]);
    AtPair(ts, pos, Word("PROCEDURE"), Word(p.id), []);
    AtToken(ts, pos + 2, LeftParen);
    AtSplit(ts, pos + 3, u, tail);
    q := pos + 3 + |u|;
    AtPair(ts, q, RightParen, Semicolon, UnparseStmt(p.body));
    if ps == [] {
      assert Current(ts, pos + 3) == RightParen;
    } else {
      AtCons(ts, pos + 3, Word(ps[0]), UnparseParams(ps, 1));
      NameIsNoDelimiter(ps[0]);
      ParamsRestRoundTrip(ps, 1, ts, pos + 4);
      assert ps[..1] == [ps[0]];
    }
  }

  /** A printed declaration reads back as itself, whatever follows it (as
      long as it is no ELSE after a body that ends in an open IF). */
  lemma {:induction false} ProcedureRoundTrip(p: ProcedureDeclaration, ts: seq<Token>, pos: nat)
    requires PrintableProcedure(p) && At(ts, pos, UnparseProcedure(p))
    requires OpenIf(p.body) ==> Current(ts, pos + |UnparseProcedure(p)|).value != "ELSE"
    ensures ParseProcedure(ts, pos) == Ok(Parsed(p, pos + |UnparseProcedure(p)|))
  {
    var q := ParametersRoundTrip(p, ts, pos);
    NestedRoundTrip(p.body, ts, q + 2);
    ProcedureStep(p, ts, pos, q, pos + |UnparseProcedure(p)|);
  }

  /** parseProcedure, once the parameters and the body have been read. */
  lemma {:induction false} ProcedureStep(p: ProcedureDeclaration, ts: seq<Token>, pos: nat, q: nat, next: nat)
    requires p.locals == []
    requires pos + 3 <= |ts| && Current(ts, pos) == Word("PROCEDURE") && Current(ts, pos + 1) == Word(p.id)
    requires Current(ts, pos + 2) == LeftParen
    requires p.parameters == [] ==> q == pos + 3 && Current(ts, pos + 3) == RightParen
    requires p.parameters != [] ==>
      && Current(ts, pos + 3) == Word(p.parameters[0]) && p.parameters[0] != ")"
      && ParametersRest(ts, pos + 4, [p.parameters[0]]) == Ok(Parsed(p.parameters, q))
    requires q + 2 <= |ts| && Current(ts, q) == RightParen && Current(ts, q + 1) == Semicolon
    requires ParseStatement(ts, q + 2, false) == Ok(Parsed(p.body, next))
    ensures ParseProcedure(ts, pos) == Ok(Parsed(p, next))
  {
  }

  /** The first token of a printed declaration is PROCEDURE. */
  lemma ProcedureStart(p: ProcedureDeclaration)
    ensures |UnparseProcedure(p)| > 0 && UnparseProcedure(p)[0] == Word("PROCEDURE")
  {
  }

  /** Where the i-th printed declaration and the rest are, and that what
      follows the declaration is no ELSE. */
  lemma {:induction false} ProcedureHeadLayout(ps: seq<ProcedureDeclaration>, i: nat, ts: seq<Token>, pos: nat)
    requires i < |ps|
    requires At(ts, pos, UnparseProcedures(ps, i))
    requires Current(ts, pos + |UnparseProcedures(ps, i)|).value != "ELSE"
    ensures pos <= |ts| && Current(ts, pos) == Word("PROCEDURE")
    ensures At(ts, pos, UnparseProcedure(ps[i]))
    ensures At(ts, pos + |UnparseProcedure(ps[i])|, UnparseProcedures(ps, i + 1))
    ensures pos + |UnparseProcedure(ps[i])| + |UnparseProcedures(ps, i + 1)| == pos + |UnparseProcedures(ps, i)|
    ensures Current(ts, pos + |UnparseProcedure(ps[i])|).value != "ELSE"
  {
    var u := UnparseProcedure(ps[i]);
    var v := UnparseProcedures(ps, i + 1);
    ProcedureStart(ps[i]);
    SplitAt(ts, pos, u, v);
    if i + 1 < |ps| {
      ProceduresStart(ps, i + 1);
      FirstAt(ts, pos + |u|, v);
    }
  }

  /** The printed declarations from the j-th on start with PROCEDURE. */
  lemma {:induction false} ProceduresStart(ps: seq<ProcedureDeclaration>, j: nat)
    requires j < |ps|
    ensures |UnparseProcedures(ps, j)| > 0 && UnparseProcedures(ps, j)[0] == Word("PROCEDURE")
  {
    ProcedureStart(ps[j]);
  }

  /** u and v where u + v is, u non-empty. */
  lemma {:induction false} SplitAt(ts: seq<Token>, pos: nat, u: seq<Token>, v: seq<Token>)
    requires At(ts, pos, u + v) && |u| > 0
    ensures pos <= |ts| && Current(ts, pos) == u[0]
    ensures At(ts, pos, u) && At(ts, pos + |u|, v) && |u + v| == |u| + |v|
  {
    AtSplit(ts, pos, u, v);
    AtFirst(ts, pos, u, v);
  }

  /** The first of the tokens at pos. */
  lemma {:induction false} FirstAt(ts: seq<Token>, pos: nat, v: seq<Token>)
    requires At(ts, pos, v) && |v| > 0
    ensures Current(ts, pos) == v[0]
  {
    assert v + [] == v;
    AtFirst(ts, pos, v, []);
  }

  /** The loop of parseProgram stops at a token other than PROCEDURE. */
  lemma {:induction false} ProceduresEnd(ts: seq<Token>, pos: nat, procs: seq<ProcedureDeclaration>)
    requires pos <= |ts| && Current(ts, pos).value != "PROCEDURE"
    ensures Procedures(ts, pos, procs) == Ok(Parsed(procs, pos))
  {
  }

  /** One more declaration read by the loop of parseProgram. */
  lemma {:induction false} ProceduresExtend(ts: seq<Token>, pos: nat, ps: seq<ProcedureDeclaration>, i: nat,
                                           next: nat, body: Parsed<seq<ProcedureDeclaration>>)
    requires i < |ps| && pos <= |ts| && Current(ts, pos) == Word("PROCEDURE")
    requires ParseProcedure(ts, pos) == Ok(Parsed(ps[i], next))
    requires Procedures(ts, next, ps[..i + 1]) == Ok(body)
    ensures Procedures(ts, pos, ps[..i]) == Ok(body)
  {
    PrefixExtends(ps, i);
  }

  /** parseProgram's loop reads back the printed declarations from the i-th
      on and stops at the token after them, when that is no PROCEDURE and
      no ELSE. */
  lemma {:induction false} ProceduresRoundTrip(ps: seq<ProcedureDeclaration>, i: nat, ts: seq<Token>, pos: nat)
    requires i <= |ps| && PrintableProcedures(ps)
    requires At(ts, pos, UnparseProcedures(ps, i))
    requires var t := Current(ts, pos + |UnparseProcedures(ps, i)|); t.value != "PROCEDURE" && t.value != "ELSE"
    ensures pos <= |ts|
    ensures Procedures(ts, pos, ps[..i]) == Ok(Parsed(ps, pos + |UnparseProcedures(ps, i)|))
    decreases |ps| - i, 1
  {
    if i == |ps| {
      WholePrefix(ps);
      assert UnparseProcedures(ps, i) == [];
      ProceduresEnd(ts, pos, ps);
    } else {
      ProceduresConsRoundTrip(ps, i, ts, pos);
    }
  }

  /** The printed declarations from the i-th on, when there is an i-th. */
  lemma {:induction false} ProceduresConsRoundTrip(ps: seq<ProcedureDeclaration>, i: nat, ts: seq<Token>, pos: nat)
    requires i < |ps| && PrintableProcedures(ps)
    requires At(ts, pos, UnparseProcedures(ps, i))
    requires var t := Current(ts, pos + |UnparseProcedures(ps, i)|); t.value != "PROCEDURE" && t.value != "ELSE"
    ensures pos <= |ts|
    ensures Procedures(ts, pos, ps[..i]) == Ok(Parsed(ps, pos + |UnparseProcedures(ps, i)|))
    decreases |ps| - i, 0
  {
    ProcedureHeadLayout(ps, i, ts, pos);
    var next := pos + |UnparseProcedure(ps[i])|;
    ProceduresRoundTrip(ps, i + 1, ts, next);
    ProcedureHeadRoundTrip(ps, i, ts, pos, Parsed(ps, pos + |UnparseProcedures(ps, i)|));
  }

  /** The i-th printed declaration, read by the loop of parseProgram. */
  lemma {:induction false} ProcedureHeadRoundTrip(ps: seq<ProcedureDeclaration>, i: nat, ts: seq<Token>, pos: nat,
                                                 body: Parsed<seq<ProcedureDeclaration>>)
    requires i < |ps| && PrintableProcedures(ps) && pos <= |ts| && Current(ts, pos) == Word("PROCEDURE")
    requires At(ts, pos, UnparseProcedure(ps[i]))
    requires Current(ts, pos + |UnparseProcedure(ps[i])|).value != "ELSE"
    requires Procedures(ts, pos + |UnparseProcedure(ps[i])|, ps[..i + 1]) == Ok(body)
    ensures Procedures(ts, pos, ps[..i]) == Ok(body)
  {
    ProcedureRoundTrip(ps[i], ts, pos);
    ProceduresExtend(ts, pos, ps, i, pos + |UnparseProcedure(ps[i])|, body);
  }

  /** parseProgram, once the declarations and the main statement have been
      read. */
  lemma {:induction false} ProgramStep(ts: seq<Token>, p: Program, k: nat, n: nat)
    requires p.varDecls == [] && k <= |ts|
    requires Procedures(ts, 0, p.procDecls[..0]) == Ok(Parsed(p.procDecls, k))
    requires ParseStatement(ts, k, false) == Ok(Parsed(p.main, n))
    ensures ParseProgram(ts) == Ok(Parsed(p, n))
  {
    assert p.procDecls[..0] == [];
  }

  /** parseProgram reads back every printable program, whatever follows it
      (as long as it is no ELSE after a main statement that ends in an open
      IF), and stops right after it. */
  lemma {:induction false} ProgramRoundTrip(p: Program, ts: seq<Token>)
    requires PrintableProgram(p) && At(ts, 0, UnparseProgram(p))
    requires OpenIf(p.main) ==> Current(ts, |UnparseProgram(p)|).value != "ELSE"
    ensures ParseProgram(ts) == Ok(Parsed(p, |UnparseProgram(p)|))
  {
    ProgramProcedures(p, ts);
    ProgramMain(p, ts, 0 + |UnparseProcedures(p.procDecls, 0)|, |UnparseProgram(p)|);
  }

  /** The main statement of a printed program, read where the declarations
      end. */
  lemma {:induction false} ProgramMain(p: Program, ts: seq<Token>, k: nat, n: nat)
    requires p.varDecls == [] && PrintableBlock([p.main]) && k <= |ts|
    requires Procedures(ts, 0, p.procDecls[..0]) == Ok(Parsed(p.procDecls, k))
    requires At(ts, k, UnparseStmt(p.main)) && k + |UnparseStmt(p.main)| == n
    requires OpenIf(p.main) ==> Current(ts, n).value != "ELSE"
    ensures ParseProgram(ts) == Ok(Parsed(p, n))
  {
    NestedRoundTrip(p.main, ts, k);
    ProgramStep(ts, p, k, n);
  }

  /** The declarations of a printed program, read by the loop of
      parseProgram up to the main statement. */
  lemma {:induction false} ProgramProcedures(p: Program, ts: seq<Token>)
    requires PrintableProgram(p) && At(ts, 0, UnparseProgram(p))
    ensures var k := 0 + |UnparseProcedures(p.procDecls, 0)|;
      && k <= |ts|
      && Procedures(ts, 0, p.procDecls[..0]) == Ok(Parsed(p.procDecls, k))
      && At(ts, k, UnparseStmt(p.main)) && k + |UnparseStmt(p.main)| == |UnparseProgram(p)|
  {
    var u := UnparseProcedures(p.procDecls, 0);
    var m := UnparseStmt(p.main);
    AtSplit(ts, 0, u, m);
    MainStart(p.main);
    assert m == [m[0]] + m[1..];
    AtCons(ts, |u|, m[0], m[1..]);
    ProceduresRoundTrip(p.procDecls, 0, ts, 0);
  }

  /** The first token of a printable main statement is neither PROCEDURE
      nor ELSE. */
  lemma {:induction false} MainStart(s: Stmt)
    requires PrintableBlock([s])
    ensures |UnparseStmt(s)| > 0
    ensures UnparseStmt(s)[0].value != "PROCEDURE" && UnparseStmt(s)[0].value != "ELSE"
  {
    assert [s][0] == s;
    StatementStart(s);
  }
}
