/** Statements read back from their printed tokens: the parser's statement
    functions undo a printer of statements. */
module StatementPrinting {
  import opened Base
  import opened Tokens
  import opened Ast
  import opened Parsing
  import opened Semantics
  import opened ParserProperties

  const Semicolon := Token(OPERATOR, ";")

  function Word(w: string): Token {
    Token(IDENTIFIER, w)
  }

  /** The words that parseStatement dispatches on, the END that closes a
      block, the ELSE of an IF, and the PROCEDURE that parseProgram looks
      for: a statement that starts with one of these is not an assignment
      or a call. */
  predicate IsReserved(x: string) {
    x == "WRITELN" || x == "BEGIN" || x == "IF" || x == "WHILE" || x == "FOR"
    || x == "CONTINUE" || x == "BREAK" || x == "EXIT" || x == "END" || x == "ELSE"
    || x == "PROCEDURE"
  }

  predicate StatementName(x: string) {
    IsName(x) && !IsReserved(x)
  }

  predicate PrintableCondition(c: Expr) {
    c.Condition? && IsRelop(c.relop) && Printable(c.left) && Printable(c.right)
  }

  /** A statement that ends in an IF without ELSE: an ELSE after it would
      be taken as that IF's (the dangling else). */
  predicate OpenIf(s: Stmt) {
    match s
    case If(_, _) => true
    case IfElse(_, _, e) => OpenIf(e)
    case While(_, b) => OpenIf(b)
    case For(_, _, b) => OpenIf(b)
    case _ => false
  }

  /** The statements the printer writes so that they read back. */
  predicate PrintableStmt(s: Stmt) {
    match s
    case Assign(a) => StatementName(a.name) && Printable(a.exp)
    case Block(ss) => forall i :: 0 <= i < |ss| ==> PrintableStmt(ss[i])
    case If(c, b) => PrintableCondition(c) && PrintableStmt(b)
    case IfElse(c, t, e) => PrintableCondition(c) && PrintableStmt(t) && !OpenIf(t) && PrintableStmt(e)
    case While(c, b) => PrintableCondition(c) && PrintableStmt(b)
    case For(a, end, b) => StatementName(a.name) && Printable(a.exp) && Printable(end) && PrintableStmt(b)
    case Writeln(e) => Printable(e)
    case Call(id, args) => StatementName(id) && forall i :: 0 <= i < |args| ==> Printable(args[i])
    case Break => true
    case Continue => true
    case Exit => true
  }

  /** Every statement of a block is printable. */
  predicate PrintableBlock(ss: seq<Stmt>) {
    forall k :: 0 <= k < |ss| ==> PrintableStmt(ss[k])
  }

  /** `name := expression`, without the ";". */
  function AssignTokens(a: Assignment): seq<Token> {
    [Word(a.name)] + ([Token(OPERATOR, ":=")] + Unparse(a.exp))
  }

  /** The tokens of a statement. */
  function UnparseStmt(s: Stmt): seq<Token> {
    match s
    case Assign(a) => AssignTokens(a) + [Semicolon]
    case Block(ss) => [Word("BEGIN")] + (UnparseBlock(ss, 0) + [Word("END"), Semicolon])
    case If(c, b) => [Word("IF")] + (Unparse(c) + ([Word("THEN")] + UnparseStmt(b)))
    case IfElse(c, t, e) =>
      [Word("IF")] + (Unparse(c) + ([Word("THEN")] + (UnparseStmt(t) + ([Word("ELSE")] + UnparseStmt(e)))))
    case While(c, b) => [Word("WHILE")] + (Unparse(c) + ([Word("DO")] + UnparseStmt(b)))
    case For(a, end, b) =>
      [Word("FOR")] + (AssignTokens(a) + ([Word("TO")] + (Unparse(end) + ([Word("DO")] + UnparseStmt(b)))))
    case Break => [Word("BREAK"), Semicolon]
    case Continue => [Word("CONTINUE"), Semicolon]
    case Exit => [Word("EXIT"), Semicolon]
    case Writeln(e) => [Word("WRITELN"), LeftParen] + (Unparse(e) + [RightParen, Semicolon])
    case Call(id, args) => [Word(id), LeftParen] + (UnparseList(args) + [RightParen, Semicolon])
  }

  /** The statements of a block from the i-th on. */
  function UnparseBlock(ss: seq<Stmt>, i: nat): seq<Token>
    decreases ss, |ss| - i
  {
    if i >= |ss| then [] else UnparseStmt(ss[i]) + UnparseBlock(ss, i + 1)
  }

  lemma {:induction false} AtCons(ts: seq<Token>, pos: nat, t: Token, v: seq<Token>)
    requires At(ts, pos, [t] + v)
    ensures Current(ts, pos) == t && At(ts, pos + 1, v)
  {
    AtSplit(ts, pos, [t], v);
    AtToken(ts, pos, t);
  }

  /** A printed statement starts with a reserved word or a statement name. */
  lemma {:induction false} StatementStart(s: Stmt)
    requires PrintableStmt(s)
    ensures |UnparseStmt(s)| > 0 && UnparseStmt(s)[0].kind == IDENTIFIER
    ensures UnparseStmt(s)[0].value != "END" && UnparseStmt(s)[0].value != "ELSE"
    ensures UnparseStmt(s)[0].value != "PROCEDURE"
  {
  }

  lemma {:induction false} AtPair(ts: seq<Token>, pos: nat, t1: Token, t2: Token, v: seq<Token>)
    requires At(ts, pos, [t1, t2] + v)
    ensures Current(ts, pos) == t1 && Current(ts, pos + 1) == t2 && At(ts, pos + 2, v)
  {
    assert [t1, t2] + v == [t1] + ([t2] + v);
    AtCons(ts, pos, t1, [t2] + v);
    AtCons(ts, pos + 1, t2, v);
  }

  /** The last two tokens of a printed statement. */
  lemma {:induction false} AtClosing(ts: seq<Token>, pos: nat, u: seq<Token>, t1: Token, t2: Token)
    requires At(ts, pos, u + [t1, t2])
    ensures At(ts, pos, u) && Current(ts, pos + |u|) == t1 && Current(ts, pos + |u| + 1) == t2
  {
    AtSplit(ts, pos, u, [t1, t2]);
    assert [t1, t2] == [t1, t2] + [];
    AtPair(ts, pos + |u|, t1, t2, []);
  }

  // ---------------------------------------------------------------------
  // Reading back printed statements
  // ---------------------------------------------------------------------

  /** A printed statement, followed by anything that is not an ELSE when
      it ends in an open IF, reads back as itself. */
  lemma {:induction false} StatementRoundTrip(s: Stmt, ts: seq<Token>, pos: nat)
    requires PrintableStmt(s) && At(ts, pos, UnparseStmt(s))
    requires OpenIf(s) ==> Current(ts, pos + |UnparseStmt(s)|).value != "ELSE"
    ensures ParseStatement(ts, pos, false) == Ok(Parsed(s, pos + |UnparseStmt(s)|))
    decreases s, 3
  {
    match s
    case Assign(a) =>
      AtSplit(ts, pos, AssignTokens(a), [Semicolon]);
      AtToken(ts, pos + |AssignTokens(a)|, Semicolon);
      AssignmentRoundTrip(a, ts, pos);
    case Block(_) => BlockRoundTrip(s, ts, pos);
    case If(_, _) => ConditionalRoundTrip(s, ts, pos);
    case IfElse(_, _, _) => ConditionalRoundTrip(s, ts, pos);
    case While(_, _) => LoopRoundTrip(s, ts, pos);
    case For(_, _, _) => LoopRoundTrip(s, ts, pos);
    case Break => KeywordRoundTrip("BREAK", s, ts, pos);
    case Continue => KeywordRoundTrip("CONTINUE", s, ts, pos);
    case Exit => KeywordRoundTrip("EXIT", s, ts, pos);
    case Writeln(_) => WritelnRoundTrip(s, ts, pos);
    case Call(_, _) => CallStatementRoundTrip(s, ts, pos);
  }

  lemma {:induction false} ConditionalRoundTrip(s: Stmt, ts: seq<Token>, pos: nat)
    requires (s.If? || s.IfElse?) && PrintableStmt(s) && At(ts, pos, UnparseStmt(s))
    requires OpenIf(s) ==> Current(ts, pos + |UnparseStmt(s)|).value != "ELSE"
    ensures ParseStatement(ts, pos, false) == Ok(Parsed(s, pos + |UnparseStmt(s)|))
    decreases s, 2
  {
    if s.If? {
      IfRoundTrip(s.cond, s.body, ts, pos);
    } else {
      IfElseRoundTrip(s.cond, s.thenBody, s.elseBody, ts, pos);
    }
  }

  lemma {:induction false} LoopRoundTrip(s: Stmt, ts: seq<Token>, pos: nat)
    requires (s.While? || s.For?) && PrintableStmt(s) && At(ts, pos, UnparseStmt(s))
    requires OpenIf(s) ==> Current(ts, pos + |UnparseStmt(s)|).value != "ELSE"
    ensures ParseStatement(ts, pos, false) == Ok(Parsed(s, pos + |UnparseStmt(s)|))
    decreases s, 2
  {
    if s.While? {
      WhileRoundTrip(s.cond, s.body, ts, pos);
    } else {
      ForRoundTrip(s.begin, s.end, s.body, ts, pos);
    }
  }

  /** `name := expression` reads back as the assignment, with the ";" or,
      as in a FOR heading, without it. */
  lemma {:induction false} AssignmentRoundTrip(a: Assignment, ts: seq<Token>, pos: nat)
    requires StatementName(a.name) && Printable(a.exp) && At(ts, pos, AssignTokens(a))
    requires EndsExpression(Current(ts, pos + |AssignTokens(a)|))
    ensures ParseStatement(ts, pos, true) == Ok(Parsed(Assign(a), pos + |AssignTokens(a)|))
    ensures Current(ts, pos + |AssignTokens(a)|) == Semicolon ==>
      ParseStatement(ts, pos, false) == Ok(Parsed(Assign(a), pos + |AssignTokens(a)| + 1))
  {
    AtCons(ts, pos, Word(a.name), [Token(OPERATOR, ":=")] + Unparse(a.exp));
    AtCons(ts, pos + 1, Token(OPERATOR, ":="), Unparse(a.exp));
    ExpressionRoundTrip(a.exp, ts, pos + 2);
  }

  lemma {:induction false} KeywordRoundTrip(word: string, s: Stmt, ts: seq<Token>, pos: nat)
    requires (word == "BREAK" && s == Break) || (word == "CONTINUE" && s == Continue) || (word == "EXIT" && s == Exit)
    requires At(ts, pos, UnparseStmt(s))
    ensures ParseStatement(ts, pos, false) == Ok(Parsed(s, pos + 2))
  {
    assert UnparseStmt(s) == [Word(word), Semicolon] + [];
    AtPair(ts, pos, Word(word), Semicolon, []);
  }

  lemma {:induction false} WritelnRoundTrip(s: Stmt, ts: seq<Token>, pos: nat)
    requires s.Writeln? && PrintableStmt(s) && At(ts, pos, UnparseStmt(s))
    ensures ParseStatement(ts, pos, false) == Ok(Parsed(s, pos + |UnparseStmt(s)|))
  {
    var u := Unparse(s.exp);
    AtPair(ts, pos, Word("WRITELN"), LeftParen, u + [RightParen, Semicolon]);
    AtClosing(ts, pos + 2, u, RightParen, Semicolon);
    ExpressionRoundTrip(s.exp, ts, pos + 2);
    assert ParseWriteln(ts, pos, false) == Ok(Parsed(s, pos + |UnparseStmt(s)|));
  }

  lemma {:induction false} CallStatementRoundTrip(s: Stmt, ts: seq<Token>, pos: nat)
    requires s.Call? && PrintableStmt(s) && At(ts, pos, UnparseStmt(s))
    ensures ParseStatement(ts, pos, false) == Ok(Parsed(s, pos + |UnparseStmt(s)|))
  {
    var u := UnparseList(s.args);
    AtPair(ts, pos, Word(s.id), LeftParen, u + [RightParen, Semicolon]);
    AtClosing(ts, pos + 2, u, RightParen, Semicolon);
    var call := ProcedureCall(s.id, s.args);
    assert Printable(call);
    ArgumentsRoundTrip(call, ts, pos + 2);
    assert ParseIdentifierStatement(ts, pos, false) == Ok(Parsed(s, pos + |UnparseStmt(s)|));
  }

  // One step of parseStatement for each compound statement.

  lemma {:induction false} WhileStep(ts: seq<Token>, pos: nat, s: Stmt, p1: nat, p2: nat)
    requires s.While? && pos <= |ts| && Current(ts, pos) == Word("WHILE")
    requires ParseCondition(ts, pos + 1) == Ok(Parsed(s.cond, p1)) && Current(ts, p1) == Word("DO")
    requires ParseStatement(ts, p1 + 1, false) == Ok(Parsed(s.body, p2))
    ensures ParseStatement(ts, pos, false) == Ok(Parsed(s, p2))
  {
    assert ParseWhile(ts, pos) == Ok(Parsed(s, p2));
  }

  lemma {:induction false} IfStep(ts: seq<Token>, pos: nat, s: Stmt, p1: nat, p2: nat)
    requires s.If? && pos <= |ts| && Current(ts, pos) == Word("IF")
    requires ParseCondition(ts, pos + 1) == Ok(Parsed(s.cond, p1)) && Current(ts, p1) == Word("THEN")
    requires ParseStatement(ts, p1 + 1, false) == Ok(Parsed(s.body, p2))
    requires Current(ts, p2).value != "ELSE"
    ensures ParseStatement(ts, pos, false) == Ok(Parsed(s, p2))
  {
    assert ParseIf(ts, pos) == Ok(Parsed(s, p2));
  }

  lemma {:induction false} IfElseStep(ts: seq<Token>, pos: nat, s: Stmt, p1: nat, p2: nat, p3: nat)
    requires s.IfElse? && pos <= |ts| && Current(ts, pos) == Word("IF")
    requires ParseCondition(ts, pos + 1) == Ok(Parsed(s.cond, p1)) && Current(ts, p1) == Word("THEN")
    requires ParseStatement(ts, p1 + 1, false) == Ok(Parsed(s.thenBody, p2))
    requires Current(ts, p2) == Word("ELSE")
    requires ParseStatement(ts, p2 + 1, false) == Ok(Parsed(s.elseBody, p3))
    ensures ParseStatement(ts, pos, false) == Ok(Parsed(s, p3))
  {
    assert ParseIf(ts, pos) == Ok(Parsed(s, p3));
  }

  lemma {:induction false} ForStep(ts: seq<Token>, pos: nat, s: Stmt, p1: nat, p2: nat, p3: nat)
    requires s.For? && pos <= |ts| && Current(ts, pos) == Word("FOR")
    requires ParseStatement(ts, pos + 1, true) == Ok(Parsed(Assign(s.begin), p1))
    requires Current(ts, p1) == Word("TO")
    requires ParseExpression(ts, p1 + 1) == Ok(Parsed(s.end, p2)) && Current(ts, p2) == Word("DO")
    requires ParseStatement(ts, p2 + 1, false) == Ok(Parsed(s.body, p3))
    ensures ParseStatement(ts, pos, false) == Ok(Parsed(s, p3))
  {
    assert ParseFor(ts, pos) == Ok(Parsed(s, p3));
  }

  lemma {:induction false} BlockStep(ts: seq<Token>, pos: nat, body: Parsed<seq<Stmt>>)
    requires pos <= |ts| && Current(ts, pos) == Word("BEGIN")
    requires BlockRest(ts, pos + 1, []) == Ok(body)
    requires Current(ts, body.next + 1) == Semicolon
    ensures ParseStatement(ts, pos, false) == Ok(Parsed(Block(body.node), body.next + 2))
  {
    assert ParseBlock(ts, pos, false) == Ok(Parsed(Block(body.node), body.next + 2));
  }

  /** The loop of parseBlock stops at END. */
  lemma {:induction false} BlockRestEnd(ts: seq<Token>, pos: nat, stmts: seq<Stmt>)
    requires pos <= |ts| && Current(ts, pos) == Word("END")
    ensures BlockRest(ts, pos, stmts) == Ok(Parsed(stmts, pos))
  {
  }

  lemma {:induction false} BlockRestStep(ts: seq<Token>, pos: nat, stmts: seq<Stmt>, s: Parsed<Stmt>)
    requires pos <= |ts| && Current(ts, pos) != Word("END")
    requires ParseStatement(ts, pos, false) == Ok(s)
    ensures BlockRest(ts, pos, stmts) == BlockRest(ts, s.next, stmts + [s.node])
  {
  }

  /** A statement nested in another reads back as itself. Printability is
      passed as that of a one-statement list, a single fact for the
      verifier rather than one per kind of statement. */
  lemma {:induction false} NestedRoundTrip(s: Stmt, ts: seq<Token>, pos: nat)
    requires PrintableBlock([s]) && At(ts, pos, UnparseStmt(s))
    requires OpenIf(s) ==> Current(ts, pos + |UnparseStmt(s)|).value != "ELSE"
    ensures ParseStatement(ts, pos, false) == Ok(Parsed(s, pos + |UnparseStmt(s)|))
    decreases s, 4
  {
    assert [s][0] == s;
    StatementRoundTrip(s, ts, pos);
  }

  /** The condition of a WHILE or an IF, ended by DO or THEN. */
  lemma {:induction false} GuardRoundTrip(c: Expr, word: string, ts: seq<Token>, pos: nat, p1: nat)
    requires PrintableCondition(c) && At(ts, pos, Unparse(c))
    requires p1 == pos + |Unparse(c)| && Current(ts, p1) == Word(word) && (word == "DO" || word == "THEN")
    ensures ParseCondition(ts, pos) == Ok(Parsed(c, p1))
  {
    ConditionRoundTrip(c, ts, pos);
  }

  // Where the parts of printed compound statements are.

  /** A word, then u, then v. */
  lemma {:induction false} AtWord(ts: seq<Token>, pos: nat, w: string, u: seq<Token>, v: seq<Token>)
    requires At(ts, pos, [Word(w)] + (u + v))
    ensures Current(ts, pos) == Word(w) && At(ts, pos + 1, u) && At(ts, pos + 1 + |u|, v)
  {
    AtCons(ts, pos, Word(w), u + v);
    AtSplit(ts, pos + 1, u, v);
  }

  /** `keyword condition word body`, as WHILE c DO b and IF c THEN b. */
  lemma {:induction false} GuardedLayout(keyword: string, word: string, c: Expr, body: Stmt, ts: seq<Token>, pos: nat) returns (p1: nat, p2: nat)
    requires (keyword == "WHILE" && word == "DO") || (keyword == "IF" && word == "THEN")
    requires At(ts, pos, UnparseStmt(if keyword == "WHILE" then While(c, body) else If(c, body)))
    ensures p1 == pos + 1 + |Unparse(c)| && p2 == p1 + 1 + |UnparseStmt(body)|
    ensures p2 == pos + |UnparseStmt(if keyword == "WHILE" then While(c, body) else If(c, body))|
    ensures Current(ts, pos) == Word(keyword) && At(ts, pos + 1, Unparse(c))
    ensures Current(ts, p1) == Word(word) && At(ts, p1 + 1, UnparseStmt(body))
  {
    var u, b := Unparse(c), UnparseStmt(body);
    assert UnparseStmt(if keyword == "WHILE" then While(c, body) else If(c, body)) == [Word(keyword)] + (u + ([Word(word)] + b));
    p1 := pos + 1 + |u|;
    p2 := p1 + 1 + |b|;
    AtWord(ts, pos, keyword, u, [Word(word)] + b);
    AtCons(ts, p1, Word(word), b);
  }

  lemma {:induction false} WhileRoundTrip(c: Expr, b: Stmt, ts: seq<Token>, pos: nat)
    requires PrintableStmt(While(c, b)) && At(ts, pos, UnparseStmt(While(c, b)))
    requires OpenIf(b) ==> Current(ts, pos + |UnparseStmt(While(c, b))|).value != "ELSE"
    ensures ParseStatement(ts, pos, false) == Ok(Parsed(While(c, b), pos + |UnparseStmt(While(c, b))|))
    decreases While(c, b), 1
  {
    var p1, p2 := GuardedLayout("WHILE", "DO", c, b, ts, pos);
    GuardRoundTrip(c, "DO", ts, pos + 1, p1);
    WhileBodyRoundTrip(c, b, ts, pos, p1, p2);
  }

  /** The body of a WHILE, once its condition has been read. */
  lemma {:induction false} WhileBodyRoundTrip(c: Expr, b: Stmt, ts: seq<Token>, pos: nat, p1: nat, p2: nat)
    requires pos <= |ts| && Current(ts, pos) == Word("WHILE")
    requires ParseCondition(ts, pos + 1) == Ok(Parsed(c, p1)) && Current(ts, p1) == Word("DO")
    requires PrintableStmt(b) && At(ts, p1 + 1, UnparseStmt(b)) && p2 == p1 + 1 + |UnparseStmt(b)|
    requires OpenIf(b) ==> Current(ts, p2).value != "ELSE"
    ensures ParseStatement(ts, pos, false) == Ok(Parsed(While(c, b), p2))
    decreases While(c, b), 0
  {
    assert PrintableBlock([b]);
    NestedRoundTrip(b, ts, p1 + 1);
    WhileStep(ts, pos, While(c, b), p1, p2);
  }

  lemma {:induction false} IfRoundTrip(c: Expr, b: Stmt, ts: seq<Token>, pos: nat)
    requires PrintableStmt(If(c, b)) && At(ts, pos, UnparseStmt(If(c, b)))
    requires Current(ts, pos + |UnparseStmt(If(c, b))|).value != "ELSE"
    ensures ParseStatement(ts, pos, false) == Ok(Parsed(If(c, b), pos + |UnparseStmt(If(c, b))|))
    decreases If(c, b), 1
  {
    var p1, p2 := GuardedLayout("IF", "THEN", c, b, ts, pos);
    GuardRoundTrip(c, "THEN", ts, pos + 1, p1);
    IfBodyRoundTrip(c, b, ts, pos, p1, p2);
  }

  /** The body of an IF without ELSE, once its condition has been read. */
  lemma {:induction false} IfBodyRoundTrip(c: Expr, b: Stmt, ts: seq<Token>, pos: nat, p1: nat, p2: nat)
    requires pos <= |ts| && Current(ts, pos) == Word("IF")
    requires ParseCondition(ts, pos + 1) == Ok(Parsed(c, p1)) && Current(ts, p1) == Word("THEN")
    requires PrintableStmt(b) && At(ts, p1 + 1, UnparseStmt(b)) && p2 == p1 + 1 + |UnparseStmt(b)|
    requires Current(ts, p2).value != "ELSE"
    ensures ParseStatement(ts, pos, false) == Ok(Parsed(If(c, b), p2))
    decreases If(c, b), 0
  {
    assert PrintableBlock([b]);
    NestedRoundTrip(b, ts, p1 + 1);
    IfStep(ts, pos, If(c, b), p1, p2);
  }

  lemma {:induction false} IfElseRoundTrip(c: Expr, t: Stmt, e: Stmt, ts: seq<Token>, pos: nat)
    requires PrintableStmt(IfElse(c, t, e)) && At(ts, pos, UnparseStmt(IfElse(c, t, e)))
    requires OpenIf(e) ==> Current(ts, pos + |UnparseStmt(IfElse(c, t, e))|).value != "ELSE"
    ensures ParseStatement(ts, pos, false) == Ok(Parsed(IfElse(c, t, e), pos + |UnparseStmt(IfElse(c, t, e))|))
    decreases IfElse(c, t, e), 1
  {
    var p1, p2, p3 := IfElseLayout(c, t, e, ts, pos);
    GuardRoundTrip(c, "THEN", ts, pos + 1, p1);
    ThenRoundTrip(c, t, e, ts, pos, p1, p2, p3);
  }

  /** The THEN and ELSE parts, once the condition has been read. */
  lemma {:induction false} ThenRoundTrip(c: Expr, t: Stmt, e: Stmt, ts: seq<Token>, pos: nat, p1: nat, p2: nat, p3: nat)
    requires pos <= |ts| && Current(ts, pos) == Word("IF")
    requires ParseCondition(ts, pos + 1) == Ok(Parsed(c, p1)) && Current(ts, p1) == Word("THEN")
    requires PrintableStmt(t) && !OpenIf(t) && At(ts, p1 + 1, UnparseStmt(t)) && p2 == p1 + 1 + |UnparseStmt(t)|
    requires Current(ts, p2) == Word("ELSE")
    requires PrintableStmt(e) && At(ts, p2 + 1, UnparseStmt(e)) && p3 == p2 + 1 + |UnparseStmt(e)|
    requires OpenIf(e) ==> Current(ts, p3).value != "ELSE"
    ensures ParseStatement(ts, pos, false) == Ok(Parsed(IfElse(c, t, e), p3))
    decreases IfElse(c, t, e), 0, 1
  {
    assert PrintableBlock([t]);
    NestedRoundTrip(t, ts, p1 + 1);
    ElseRoundTrip(c, t, e, ts, pos, p1, p2, p3);
  }

  /** The ELSE part, once the condition and the THEN part have been read. */
  lemma {:induction false} ElseRoundTrip(c: Expr, t: Stmt, e: Stmt, ts: seq<Token>, pos: nat, p1: nat, p2: nat, p3: nat)
    requires pos <= |ts| && Current(ts, pos) == Word("IF")
    requires ParseCondition(ts, pos + 1) == Ok(Parsed(c, p1)) && Current(ts, p1) == Word("THEN")
    requires ParseStatement(ts, p1 + 1, false) == Ok(Parsed(t, p2)) && Current(ts, p2) == Word("ELSE")
    requires PrintableStmt(e) && At(ts, p2 + 1, UnparseStmt(e)) && p3 == p2 + 1 + |UnparseStmt(e)|
    requires OpenIf(e) ==> Current(ts, p3).value != "ELSE"
    ensures ParseStatement(ts, pos, false) == Ok(Parsed(IfElse(c, t, e), p3))
    decreases IfElse(c, t, e), 0, 0
  {
    assert PrintableBlock([e]);
    NestedRoundTrip(e, ts, p2 + 1);
    IfElseStep(ts, pos, IfElse(c, t, e), p1, p2, p3);
  }

  lemma {:induction false} IfElseLayout(c: Expr, t: Stmt, e: Stmt, ts: seq<Token>, pos: nat) returns (p1: nat, p2: nat, p3: nat)
    requires At(ts, pos, UnparseStmt(IfElse(c, t, e)))
    ensures p1 == pos + 1 + |Unparse(c)| && p2 == p1 + 1 + |UnparseStmt(t)| && p3 == p2 + 1 + |UnparseStmt(e)|
    ensures p3 == pos + |UnparseStmt(IfElse(c, t, e))|
    ensures Current(ts, pos) == Word("IF") && At(ts, pos + 1, Unparse(c))
    ensures Current(ts, p1) == Word("THEN") && At(ts, p1 + 1, UnparseStmt(t))
    ensures Current(ts, p2) == Word("ELSE") && At(ts, p2 + 1, UnparseStmt(e))
  {
    var uc, ut, ue := Unparse(c), UnparseStmt(t), UnparseStmt(e);
    assert UnparseStmt(IfElse(c, t, e)) == [Word("IF")] + (uc + ([Word("THEN")] + (ut + ([Word("ELSE")] + ue))));
    p1 := pos + 1 + |uc|;
    p2 := p1 + 1 + |ut|;
    p3 := p2 + 1 + |ue|;
    AtWord(ts, pos, "IF", uc, [Word("THEN")] + (ut + ([Word("ELSE")] + ue)));
    AtWord(ts, p1, "THEN", ut, [Word("ELSE")] + ue);
    AtCons(ts, p2, Word("ELSE"), ue);
  }

  lemma {:induction false} ForLayout(a: Assignment, x: Expr, b: Stmt, ts: seq<Token>, pos: nat) returns (p1: nat, p2: nat, p3: nat)
    requires At(ts, pos, UnparseStmt(For(a, x, b)))
    ensures p1 == pos + 1 + |AssignTokens(a)| && p2 == p1 + 1 + |Unparse(x)| && p3 == p2 + 1 + |UnparseStmt(b)|
    ensures p3 == pos + |UnparseStmt(For(a, x, b))|
    ensures Current(ts, pos) == Word("FOR") && At(ts, pos + 1, AssignTokens(a))
    ensures Current(ts, p1) == Word("TO") && At(ts, p1 + 1, Unparse(x))
    ensures Current(ts, p2) == Word("DO") && At(ts, p2 + 1, UnparseStmt(b))
  {
    var ua, ux, ub := AssignTokens(a), Unparse(x), UnparseStmt(b);
    assert UnparseStmt(For(a, x, b)) == [Word("FOR")] + (ua + ([Word("TO")] + (ux + ([Word("DO")] + ub))));
    p1 := pos + 1 + |ua|;
    p2 := p1 + 1 + |ux|;
    p3 := p2 + 1 + |ub|;
    AtWord(ts, pos, "FOR", ua, [Word("TO")] + (ux + ([Word("DO")] + ub)));
    AtWord(ts, p1, "TO", ux, [Word("DO")] + ub);
    AtCons(ts, p2, Word("DO"), ub);
  }

  lemma {:induction false} ForRoundTrip(a: Assignment, x: Expr, b: Stmt, ts: seq<Token>, pos: nat)
    requires PrintableStmt(For(a, x, b)) && At(ts, pos, UnparseStmt(For(a, x, b)))
    requires OpenIf(b) ==> Current(ts, pos + |UnparseStmt(For(a, x, b))|).value != "ELSE"
    ensures ParseStatement(ts, pos, false) == Ok(Parsed(For(a, x, b), pos + |UnparseStmt(For(a, x, b))|))
    decreases For(a, x, b), 1
  {
    var p1, p2, p3 := ForLayout(a, x, b, ts, pos);
    AssignmentRoundTrip(a, ts, pos + 1);
    ForBoundRoundTrip(a, x, b, ts, pos, p1, p2, p3);
  }

  /** The bound and the body of a FOR, once its assignment has been read. */
  lemma {:induction false} ForBoundRoundTrip(a: Assignment, x: Expr, b: Stmt, ts: seq<Token>, pos: nat, p1: nat, p2: nat, p3: nat)
    requires pos <= |ts| && Current(ts, pos) == Word("FOR")
    requires ParseStatement(ts, pos + 1, true) == Ok(Parsed(Assign(a), p1)) && Current(ts, p1) == Word("TO")
    requires Printable(x) && At(ts, p1 + 1, Unparse(x)) && p2 == p1 + 1 + |Unparse(x)| && Current(ts, p2) == Word("DO")
    requires PrintableStmt(b) && At(ts, p2 + 1, UnparseStmt(b)) && p3 == p2 + 1 + |UnparseStmt(b)|
    requires OpenIf(b) ==> Current(ts, p3).value != "ELSE"
    ensures ParseStatement(ts, pos, false) == Ok(Parsed(For(a, x, b), p3))
    decreases For(a, x, b), 0, 1
  {
    ExpressionRoundTrip(x, ts, p1 + 1);
    ForBodyRoundTrip(a, x, b, ts, pos, p1, p2, p3);
  }

  /** The body of a FOR, once its heading has been read. */
  lemma {:induction false} ForBodyRoundTrip(a: Assignment, x: Expr, b: Stmt, ts: seq<Token>, pos: nat, p1: nat, p2: nat, p3: nat)
    requires pos <= |ts| && Current(ts, pos) == Word("FOR")
    requires ParseStatement(ts, pos + 1, true) == Ok(Parsed(Assign(a), p1)) && Current(ts, p1) == Word("TO")
    requires ParseExpression(ts, p1 + 1) == Ok(Parsed(x, p2)) && Current(ts, p2) == Word("DO")
    requires PrintableStmt(b) && At(ts, p2 + 1, UnparseStmt(b)) && p3 == p2 + 1 + |UnparseStmt(b)|
    requires OpenIf(b) ==> Current(ts, p3).value != "ELSE"
    ensures ParseStatement(ts, pos, false) == Ok(Parsed(For(a, x, b), p3))
    decreases For(a, x, b), 0, 0
  {
    assert PrintableBlock([b]);
    NestedRoundTrip(b, ts, p2 + 1);
    ForStep(ts, pos, For(a, x, b), p1, p2, p3);
  }

  lemma {:induction false} BlockRoundTrip(s: Stmt, ts: seq<Token>, pos: nat)
    requires s.Block? && PrintableStmt(s) && At(ts, pos, UnparseStmt(s))
    ensures ParseStatement(ts, pos, false) == Ok(Parsed(s, pos + |UnparseStmt(s)|))
    decreases s, 1
  {
    var u := UnparseBlock(s.stmts, 0);
    AtCons(ts, pos, Word("BEGIN"), u + [Word("END"), Semicolon]);
    AtClosing(ts, pos + 1, u, Word("END"), Semicolon);
    BlockRestRoundTrip(s, 0, ts, pos + 1);
    assert s.stmts[..0] == [];
    BlockStep(ts, pos, Parsed(s.stmts, pos + 1 + |u|));
  }

  /** The statements of a printed block, up to the END. */
  lemma {:induction false} BlockRestRoundTrip(s: Stmt, i: nat, ts: seq<Token>, pos: nat)
    requires s.Block? && PrintableBlock(s.stmts) && i <= |s.stmts|
    requires At(ts, pos, UnparseBlock(s.stmts, i))
    requires Current(ts, pos + |UnparseBlock(s.stmts, i)|) == Word("END")
    ensures BlockRest(ts, pos, s.stmts[..i]) == Ok(Parsed(s.stmts, pos + |UnparseBlock(s.stmts, i)|))
    decreases s, 0, |s.stmts| - i, 2
  {
    var ss := s.stmts;
    if i == |ss| {
      WholePrefix(ss);
      assert UnparseBlock(ss, i) == [];
      BlockRestEnd(ts, pos, ss);
    } else {
      BlockConsRoundTrip(s, i, ts, pos);
    }
  }

  /** The statements of a printed block from the i-th on, when there is an
      i-th. */
  lemma {:induction false} BlockConsRoundTrip(s: Stmt, i: nat, ts: seq<Token>, pos: nat)
    requires s.Block? && PrintableBlock(s.stmts) && i < |s.stmts|
    requires At(ts, pos, UnparseBlock(s.stmts, i))
    requires Current(ts, pos + |UnparseBlock(s.stmts, i)|) == Word("END")
    ensures BlockRest(ts, pos, s.stmts[..i]) == Ok(Parsed(s.stmts, pos + |UnparseBlock(s.stmts, i)|))
    decreases s, 0, |s.stmts| - i, 1
  {
    var next := BlockHeadLayout(s, i, ts, pos);
    BlockRestRoundTrip(s, i + 1, ts, next);
    BlockHeadRoundTrip(s, i, ts, pos, next, Parsed(s.stmts, pos + |UnparseBlock(s.stmts, i)|));
  }

  /** One more statement read by the loop of parseBlock. */
  lemma {:induction false} BlockRestExtends(ts: seq<Token>, pos: nat, ss: seq<Stmt>, i: nat, next: nat, body: Parsed<seq<Stmt>>)
    requires i < |ss| && pos <= |ts| && Current(ts, pos) != Word("END")
    requires ParseStatement(ts, pos, false) == Ok(Parsed(ss[i], next))
    requires BlockRest(ts, next, ss[..i + 1]) == Ok(body)
    ensures BlockRest(ts, pos, ss[..i]) == Ok(body)
  {
    PrefixExtends(ss, i);
    BlockRestStep(ts, pos, ss[..i], Parsed(ss[i], next));
  }

  /** The i-th statement of a printed block, read by the loop of parseBlock. */
  lemma {:induction false} BlockHeadRoundTrip(s: Stmt, i: nat, ts: seq<Token>, pos: nat, next: nat, body: Parsed<seq<Stmt>>)
    requires s.Block? && PrintableBlock(s.stmts) && i < |s.stmts| && pos <= |ts| && Current(ts, pos) != Word("END")
    requires At(ts, pos, UnparseStmt(s.stmts[i]))
    requires next == pos + |UnparseStmt(s.stmts[i])| && Current(ts, next).value != "ELSE"
    requires BlockRest(ts, next, s.stmts[..i + 1]) == Ok(body)
    ensures BlockRest(ts, pos, s.stmts[..i]) == Ok(body)
    decreases s, 0, |s.stmts| - i, 0
  {
    assert PrintableBlock([s.stmts[i]]);
    NestedRoundTrip(s.stmts[i], ts, pos);
    BlockRestExtends(ts, pos, s.stmts, i, next, body);
  }

  /** Where the i-th statement of a printed block and the rest of the block
      are, and that what follows the statement is no ELSE. */
  lemma {:induction false} BlockHeadLayout(s: Stmt, i: nat, ts: seq<Token>, pos: nat) returns (next: nat)
    requires s.Block? && PrintableBlock(s.stmts) && i < |s.stmts|
    requires At(ts, pos, UnparseBlock(s.stmts, i))
    requires Current(ts, pos + |UnparseBlock(s.stmts, i)|) == Word("END")
    ensures next == pos + |UnparseStmt(s.stmts[i])| && pos <= |ts| && Current(ts, pos) != Word("END")
    ensures next + |UnparseBlock(s.stmts, i + 1)| == pos + |UnparseBlock(s.stmts, i)|
    ensures At(ts, next, UnparseBlock(s.stmts, i + 1))
    ensures At(ts, pos, UnparseStmt(s.stmts[i]))
    ensures Current(ts, next).value != "ELSE"
  {
    var ss := s.stmts;
    var u, rest := UnparseStmt(ss[i]), UnparseBlock(ss, i + 1);
    next := pos + |u|;
    assert UnparseBlock(ss, i) == u + rest;
    AtSplit(ts, pos, u, rest);
    MemberPrintable(s, i);
    StatementStart(ss[i]);
    AtFirst(ts, pos, u, rest);
    FollowsInBlock(s, i, ts, next);
  }

  lemma {:induction false} MemberPrintable(s: Stmt, i: nat)
    requires s.Block? && PrintableBlock(s.stmts) && i < |s.stmts|
    ensures PrintableStmt(s.stmts[i])
  {
  }

  /** After a statement of a block comes the next statement or the END,
      neither of which is an ELSE. */
  lemma {:induction false} FollowsInBlock(s: Stmt, i: nat, ts: seq<Token>, pos: nat)
    requires s.Block? && PrintableBlock(s.stmts) && i < |s.stmts|
    requires At(ts, pos, UnparseBlock(s.stmts, i + 1))
    requires Current(ts, pos + |UnparseBlock(s.stmts, i + 1)|) == Word("END")
    ensures Current(ts, pos).value != "ELSE"
  {
    var ss := s.stmts;
    if i + 1 < |ss| {
      MemberPrintable(s, i + 1);
      StatementStart(ss[i + 1]);
      AtFirst(ts, pos, UnparseStmt(ss[i + 1]), UnparseBlock(ss, i + 2));
    }
  }

  /** The first token of u at pos. */
  lemma {:induction false} AtFirst(ts: seq<Token>, pos: nat, u: seq<Token>, v: seq<Token>)
    requires At(ts, pos, u + v) && |u| > 0
    ensures Current(ts, pos) == u[0]
  {
    assert u + v == [u[0]] + (u[1..] + v);
    AtCons(ts, pos, u[0], u[1..] + v);
  }
}
