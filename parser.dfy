/** The recursive-descent parser as functions over the token sequence.

    The Java Parser pulls tokens from the scanner one at a time into
    `currentToken`; here the tokens are a sequence and the parser's state is
    the position of the current token. Past the end the current token is EOF,
    as the scanner keeps returning EOF once the input is used up. Every parse
    function returns the node it built and the position after it, or the
    exception the Java method throws. */
module Parsing {
  import opened Base
  import opened Tokens
  import opened Ast

  /** A node and the position of the first token after it. */
  datatype Parsed<T> = Parsed(node: T, next: nat)

  /** Parser.currentToken at a position. */
  function Current(ts: seq<Token>, pos: nat): Token {
    if pos < |ts| then ts[pos] else Token(EOF, "")
  }

  /** Parser.eat: when the expected token equals the current one (by
      Token.equals) the next token becomes current; otherwise
      IllegalArgumentException. */
  function Eat(ts: seq<Token>, pos: nat, expected: Token): (r: Result<nat>)
    ensures r.Ok? <==> Current(ts, pos) == expected
    ensures r.Ok? && pos <= |ts| ==> r.value <= |ts|
    ensures r.Ok? && expected.kind != EOF ==> pos < |ts| && r.value == pos + 1
    ensures r.Err? ==> r.error == IllegalArgument
  {
    if Equals(expected, TokenObject(Current(ts, pos))) == Ok(true) then
      Ok(if pos < |ts| then pos + 1 else pos)
    else Err(IllegalArgument)
  }

  function EatOperator(ts: seq<Token>, pos: nat, op: string): (r: Result<nat>)
    ensures r.Ok? ==> pos < |ts| && r.value == pos + 1
  {
    Eat(ts, pos, Token(OPERATOR, op))
  }

  function EatIdentifier(ts: seq<Token>, pos: nat, word: string): (r: Result<nat>)
    ensures r.Ok? ==> pos < |ts| && r.value == pos + 1
  {
    Eat(ts, pos, Token(IDENTIFIER, word))
  }

  /** The `if (!ignoreSemi) eat(";")` that ends most statements. */
  function EatSemicolon(ts: seq<Token>, pos: nat, ignoreSemi: bool): (r: Result<nat>)
    requires pos <= |ts|
    ensures r.Ok? ==> pos <= r.value <= |ts|
  {
    if ignoreSemi then Ok(pos) else EatOperator(ts, pos, ";")
  }

  /** Parser.parseNumber: Integer.parseInt of the token's text. */
  function ParseNumber(ts: seq<Token>, pos: nat): (r: Result<Parsed<Expr>>)
    requires pos <= |ts|
    ensures r.Ok? ==> pos < r.value.next <= |ts|
  {
    var text := Current(ts, pos).value;
    var n :- ParseInt(text);
    var next :- Eat(ts, pos, Token(NUMBER, text));
    Ok(Parsed(Number(n), next))
  }

  /** Parser.parseFactor: a parenthesised expression, a negation, a number,
      a procedure call or a variable. Any other token, including an
      operator other than "(" and "-", throws. */
  function ParseFactor(ts: seq<Token>, pos: nat): (r: Result<Parsed<Expr>>)
    requires pos <= |ts|
    decreases |ts| - pos, 1
    ensures r.Ok? ==> pos < r.value.next <= |ts|
  {
    var t := Current(ts, pos);
    if t.kind == OPERATOR then
      if t.value == "(" then
        var p1 := EatOperator(ts, pos, "(").value;  // the current token is "("
        var e :- ParseExpression(ts, p1);
        var p2 :- EatOperator(ts, e.next, ")");
        Ok(Parsed(e.node, p2))
      else if t.value == "-" then
        var p1 := EatOperator(ts, pos, "-").value;
        var f :- ParseFactor(ts, p1);
        Ok(Parsed(BinOp(Number(-1), f.node, "*"), f.next))
      else Err(IllegalArgument)
    else if t.kind == NUMBER then ParseNumber(ts, pos)
    else if t.kind == IDENTIFIER then
      var p1 := EatIdentifier(ts, pos, t.value).value;
      if Current(ts, p1).value == "(" then
        var p2 :- EatOperator(ts, p1, "(");
        var args :- ParseArguments(ts, p2);
        var p3 :- EatOperator(ts, args.next, ")");
        Ok(Parsed(ProcedureCall(t.value, args.node), p3))
      else Ok(Parsed(Variable(t.value), p1))
    else Err(IllegalArgument)
  }

  /** The argument list of a call, up to (not including) the ")": empty, or
      expressions separated by ",". */
  function ParseArguments(ts: seq<Token>, pos: nat): (r: Result<Parsed<seq<Expr>>>)
    requires pos <= |ts|
    decreases |ts| - pos, 5
    ensures r.Ok? ==> pos <= r.value.next <= |ts|
  {
    if Current(ts, pos).value == ")" then Ok(Parsed([], pos))
    else
      var e :- ParseExpression(ts, pos);
      ArgumentsRest(ts, e.next, [e.node])
  }

  /** The `while (currentToken is ",")` loop of an argument list. */
  function ArgumentsRest(ts: seq<Token>, pos: nat, args: seq<Expr>): (r: Result<Parsed<seq<Expr>>>)
    requires pos <= |ts|
    decreases |ts| - pos, 0
    ensures r.Ok? ==> pos <= r.value.next <= |ts| && |r.value.node| >= |args|
    ensures r.Ok? ==> r.value.node[..|args|] == args
  {
    if Current(ts, pos).value == "," then
      var p1 :- EatOperator(ts, pos, ",");
      var e :- ParseExpression(ts, p1);
      ArgumentsRest(ts, e.next, args + [e.node])
    else Ok(Parsed(args, pos))
  }

  predicate IsMultiplyingOperator(t: Token) {
    t.kind == OPERATOR && (t.value == "*" || t.value == "/" || t.value == "mod")
  }

  predicate IsAddingOperator(t: Token) {
    t.kind == OPERATOR && (t.value == "+" || t.value == "-")
  }

  /** Parser.parseTerm. */
  function ParseTerm(ts: seq<Token>, pos: nat): (r: Result<Parsed<Expr>>)
    requires pos <= |ts|
    decreases |ts| - pos, 2
    ensures r.Ok? ==> pos < r.value.next <= |ts|
  {
    var f :- ParseFactor(ts, pos);
    TermRest(ts, f.next, f.node, None)
  }

  /** The loop of parseTerm. `left` stays the first factor: each operator
      builds BinOp(left, right, op) afresh, and the last one built is the
      result (`exp`, or `left` when there was none). */
  function TermRest(ts: seq<Token>, pos: nat, left: Expr, exp: Option<Expr>): (r: Result<Parsed<Expr>>)
    requires pos <= |ts|
    decreases |ts| - pos, 0
    ensures r.Ok? ==> pos <= r.value.next <= |ts|
  {
    var t := Current(ts, pos);
    if IsMultiplyingOperator(t) then
      var p1 := EatOperator(ts, pos, t.value).value;
      var right :- ParseFactor(ts, p1);
      TermRest(ts, right.next, left, Some(BinOp(left, right.node, t.value)))
    else Ok(Parsed(if exp.None? then left else exp.value, pos))
  }

  /** Parser.parseExpression. */
  function ParseExpression(ts: seq<Token>, pos: nat): (r: Result<Parsed<Expr>>)
    requires pos <= |ts|
    decreases |ts| - pos, 3
    ensures r.Ok? ==> pos < r.value.next <= |ts|
  {
    var t :- ParseTerm(ts, pos);
    ExpressionRest(ts, t.next, t.node, None)
  }

  /** The loop of parseExpression, with the same `left` as TermRest. */
  function ExpressionRest(ts: seq<Token>, pos: nat, left: Expr, exp: Option<Expr>): (r: Result<Parsed<Expr>>)
    requires pos <= |ts|
    decreases |ts| - pos, 0
    ensures r.Ok? ==> pos <= r.value.next <= |ts|
  {
    var t := Current(ts, pos);
    if IsAddingOperator(t) then
      var p1 := EatOperator(ts, pos, t.value).value;
      var right :- ParseTerm(ts, p1);
      ExpressionRest(ts, right.next, left, Some(BinOp(left, right.node, t.value)))
    else Ok(Parsed(if exp.None? then left else exp.value, pos))
  }

  /** Parser.parseCondition: an expression, any OPERATOR token as the
      relational operator, and an expression. */
  function ParseCondition(ts: seq<Token>, pos: nat): (r: Result<Parsed<Expr>>)
    requires pos <= |ts|
    decreases |ts| - pos, 4
    ensures r.Ok? ==> pos < r.value.next <= |ts| && r.value.node.Condition?
  {
    var left :- ParseExpression(ts, pos);
    var t := Current(ts, left.next);
    if t.kind == OPERATOR then
      var p1 := Eat(ts, left.next, t).value;
      var right :- ParseExpression(ts, p1);
      Ok(Parsed(Condition(left.node, right.node, t.value), right.next))
    else Err(IllegalArgument)
  }

  /** Parser.parseStatement: the statement is chosen by the value of the
      current token; an identifier that is none of the keywords starts an
      assignment or a procedure call. */
  function ParseStatement(ts: seq<Token>, pos: nat, ignoreSemi: bool): (r: Result<Parsed<Stmt>>)
    requires pos <= |ts|
    decreases |ts| - pos, 6
    ensures r.Ok? ==> pos < r.value.next <= |ts|
  {
    var t := Current(ts, pos);
    if t.value == "WRITELN" then ParseWriteln(ts, pos, ignoreSemi)
    else if t.value == "BEGIN" then ParseBlock(ts, pos, ignoreSemi)
    else if t.value == "IF" then ParseIf(ts, pos)
    else if t.value == "WHILE" then ParseWhile(ts, pos)
    else if t.value == "FOR" then ParseFor(ts, pos)
    else if t.value == "CONTINUE" then ParseKeyword(ts, pos, ignoreSemi, "CONTINUE", Continue)
    else if t.value == "BREAK" then ParseKeyword(ts, pos, ignoreSemi, "BREAK", Break)
    else if t.value == "EXIT" then ParseKeyword(ts, pos, ignoreSemi, "EXIT", Exit)
    else if t.kind == IDENTIFIER then ParseIdentifierStatement(ts, pos, ignoreSemi)
    else Err(IllegalArgument)
  }

  /** WRITELN ( expression ) */
  function ParseWriteln(ts: seq<Token>, pos: nat, ignoreSemi: bool): (r: Result<Parsed<Stmt>>)
    requires pos <= |ts|
    decreases |ts| - pos, 5
    ensures r.Ok? ==> pos < r.value.next <= |ts| && r.value.node.Writeln?
  {
    var p1 :- EatIdentifier(ts, pos, "WRITELN");
    var p2 :- EatOperator(ts, p1, "(");
    var e :- ParseExpression(ts, p2);
    var p3 :- EatOperator(ts, e.next, ")");
    var p4 :- EatSemicolon(ts, p3, ignoreSemi);
    Ok(Parsed(Writeln(e.node), p4))
  }

  /** BEGIN statements END */
  function ParseBlock(ts: seq<Token>, pos: nat, ignoreSemi: bool): (r: Result<Parsed<Stmt>>)
    requires pos <= |ts|
    decreases |ts| - pos, 5
    ensures r.Ok? ==> pos < r.value.next <= |ts| && r.value.node.Block?
  {
    var p1 :- EatIdentifier(ts, pos, "BEGIN");
    var body :- BlockRest(ts, p1, []);
    var p2 := EatIdentifier(ts, body.next, "END").value;  // the loop stopped at END
    var p3 :- EatSemicolon(ts, p2, ignoreSemi);
    Ok(Parsed(Block(body.node), p3))
  }

  /** The loop of BEGIN ... END: statements, each with its ";", up to the
      token END. */
  function BlockRest(ts: seq<Token>, pos: nat, stmts: seq<Stmt>): (r: Result<Parsed<seq<Stmt>>>)
    requires pos <= |ts|
    decreases |ts| - pos, 7
    ensures r.Ok? ==> pos <= r.value.next <= |ts| && Current(ts, r.value.next) == Token(IDENTIFIER, "END")
    ensures r.Ok? ==> |r.value.node| >= |stmts| && r.value.node[..|stmts|] == stmts
  {
    if Current(ts, pos) == Token(IDENTIFIER, "END") then Ok(Parsed(stmts, pos))
    else
      var s :- ParseStatement(ts, pos, false);
      BlockRest(ts, s.next, stmts + [s.node])
  }

  /** IF condition THEN statement, with an optional ELSE statement. */
  function ParseIf(ts: seq<Token>, pos: nat): (r: Result<Parsed<Stmt>>)
    requires pos <= |ts|
    decreases |ts| - pos, 5
    ensures r.Ok? ==> pos < r.value.next <= |ts| && (r.value.node.If? || r.value.node.IfElse?)
  {
    var p1 :- EatIdentifier(ts, pos, "IF");
    var c :- ParseCondition(ts, p1);
    var p2 :- EatIdentifier(ts, c.next, "THEN");
    var s :- ParseStatement(ts, p2, false);
    if Current(ts, s.next).value == "ELSE" then
      var p3 :- EatIdentifier(ts, s.next, "ELSE");
      var e :- ParseStatement(ts, p3, false);
      Ok(Parsed(IfElse(c.node, s.node, e.node), e.next))
    else Ok(Parsed(If(c.node, s.node), s.next))
  }

  /** WHILE condition DO statement */
  function ParseWhile(ts: seq<Token>, pos: nat): (r: Result<Parsed<Stmt>>)
    requires pos <= |ts|
    decreases |ts| - pos, 5
    ensures r.Ok? ==> pos < r.value.next <= |ts| && r.value.node.While?
  {
    var p1 :- EatIdentifier(ts, pos, "WHILE");
    var c :- ParseCondition(ts, p1);
    var p2 :- EatIdentifier(ts, c.next, "DO");
    var s :- ParseStatement(ts, p2, false);
    Ok(Parsed(While(c.node, s.node), s.next))
  }

  /** FOR assignment TO expression DO statement; the heading is parsed as a
      statement without its ";" and must be an assignment. */
  function ParseFor(ts: seq<Token>, pos: nat): (r: Result<Parsed<Stmt>>)
    requires pos <= |ts|
    decreases |ts| - pos, 5
    ensures r.Ok? ==> pos < r.value.next <= |ts| && r.value.node.For?
  {
    var p1 :- EatIdentifier(ts, pos, "FOR");
    var begin :- ParseStatement(ts, p1, true);
    if !begin.node.Assign? then Err(IllegalArgument)
    else
      var p2 :- EatIdentifier(ts, begin.next, "TO");
      var end :- ParseExpression(ts, p2);
      var p3 :- EatIdentifier(ts, end.next, "DO");
      var s :- ParseStatement(ts, p3, false);
      Ok(Parsed(For(begin.node.assignment, end.node, s.node), s.next))
  }

  /** CONTINUE, BREAK and EXIT: the keyword and its ";". */
  function ParseKeyword(ts: seq<Token>, pos: nat, ignoreSemi: bool, word: string, node: Stmt): (r: Result<Parsed<Stmt>>)
    requires pos <= |ts|
    ensures r.Ok? ==> pos < r.value.next <= |ts| && r.value.node == node
  {
    var p1 :- EatIdentifier(ts, pos, word);
    var p2 :- EatSemicolon(ts, p1, ignoreSemi);
    Ok(Parsed(node, p2))
  }

  /** An identifier: `id := expression` or `id ( arguments )`; anything else
      after the identifier throws. */
  function ParseIdentifierStatement(ts: seq<Token>, pos: nat, ignoreSemi: bool): (r: Result<Parsed<Stmt>>)
    requires pos <= |ts|
    decreases |ts| - pos, 5
    ensures r.Ok? ==> pos < r.value.next <= |ts| && (r.value.node.Assign? || r.value.node.Call?)
  {
    var id := Current(ts, pos).value;
    var p1 :- EatIdentifier(ts, pos, id);
    if Current(ts, p1).value == ":=" then
      var p2 :- EatOperator(ts, p1, ":=");
      var e :- ParseExpression(ts, p2);
      var p3 :- EatSemicolon(ts, e.next, ignoreSemi);
      Ok(Parsed(Assign(Assignment(id, e.node)), p3))
    else if Current(ts, p1).value == "(" then
      var p2 :- EatOperator(ts, p1, "(");
      var args :- ParseArguments(ts, p2);
      var p3 :- EatOperator(ts, args.next, ")");
      var p4 :- EatSemicolon(ts, p3, ignoreSemi);
      Ok(Parsed(Call(id, args.node), p4))
    else Err(IllegalArgument)
  }

  /** The parameter list of a PROCEDURE heading, after its first name: the
      `while (currentToken is ",")` loop. */
  function ParametersRest(ts: seq<Token>, pos: nat, params: seq<string>): (r: Result<Parsed<seq<string>>>)
    requires pos <= |ts|
    decreases |ts| - pos
    ensures r.Ok? ==> pos <= r.value.next <= |ts| && |r.value.node| >= |params|
    ensures r.Ok? ==> r.value.node[..|params|] == params
  {
    if Current(ts, pos).value == "," then
      var p1 :- EatOperator(ts, pos, ",");
      var param := Current(ts, p1).value;
      var p2 :- EatIdentifier(ts, p1, param);
      ParametersRest(ts, p2, params + [param])
    else Ok(Parsed(params, pos))
  }

  /** PROCEDURE id ( parameters ) ; statement. The Java parser builds the
      declaration with no local variable declarations. */
  function ParseProcedure(ts: seq<Token>, pos: nat): (r: Result<Parsed<ProcedureDeclaration>>)
    requires pos <= |ts|
    ensures r.Ok? ==> pos < r.value.next <= |ts| && r.value.node.locals == []
  {
    var p1 :- EatIdentifier(ts, pos, "PROCEDURE");
    var id := Current(ts, p1).value;
    var p2 :- EatIdentifier(ts, p1, id);
    var p3 :- EatOperator(ts, p2, "(");
    var params :- if Current(ts, p3).value != ")" then
        var param := Current(ts, p3).value;
        var p4 :- EatIdentifier(ts, p3, param);
        ParametersRest(ts, p4, [param])
      else Ok(Parsed([], p3));
    var p5 :- EatOperator(ts, params.next, ")");
    var p6 :- EatOperator(ts, p5, ";");
    var body :- ParseStatement(ts, p6, false);
    Ok(Parsed(ProcedureDeclaration(id, params.node, body.node, []), body.next))
  }

  /** The loop of parseProgram: declarations while the current token's value
      is PROCEDURE. */
  function Procedures(ts: seq<Token>, pos: nat, procs: seq<ProcedureDeclaration>): (r: Result<Parsed<seq<ProcedureDeclaration>>>)
    requires pos <= |ts|
    decreases |ts| - pos
    ensures r.Ok? ==> pos <= r.value.next <= |ts| && Current(ts, r.value.next).value != "PROCEDURE"
    ensures r.Ok? ==> |r.value.node| >= |procs| && r.value.node[..|procs|] == procs
  {
    if Current(ts, pos).value == "PROCEDURE" then
      var p :- ParseProcedure(ts, pos);
      var rest := Procedures(ts, p.next, procs + [p.node]);
      assert rest.Ok? ==> rest.value.node[..|procs|] == procs by {
        if rest.Ok? {
          PrefixOfPrefix(procs, [p.node], rest.value.node);
        }
      }
      rest
    else Ok(Parsed(procs, pos))
  }

  lemma PrefixOfPrefix<T>(a: seq<T>, b: seq<T>, c: seq<T>)
    requires |a + b| <= |c| && c[..|a + b|] == a + b
    ensures c[..|a|] == a
  {
    assert c[..|a|] == c[..|a + b|][..|a|];
  }

  /** Parser.parseProgram: the procedure declarations, then the main
      statement. The Java parser builds the program with no global variable
      declarations; tokens after the main statement are not read. */
  function ParseProgram(ts: seq<Token>): (r: Result<Parsed<Program>>)
    ensures r.Ok? ==> 0 < r.value.next <= |ts| && r.value.node.varDecls == []
  {
    var procs :- Procedures(ts, 0, []);
    var main :- ParseStatement(ts, procs.next, false);
    Ok(Parsed(Program([], procs.node, main.node), main.next))
  }
}

/** The Parser class: `currentToken` is advanced by eat; each parse method is
    proved to return the node, leave the position, or throw as the Parsing
    function of the same name. */
module ParserObject {
  import opened Base
  import opened Tokens
  import opened Ast
  import opened Parsing

  /** A node returned (or the exception thrown) and the position after it. */
  function Outcome<T>(r: Result<T>, pos: nat): Result<Parsed<T>> {
    if r.Ok? then Ok(Parsed(r.value, pos)) else Err(r.error)
  }

  class Parser {
    /** The tokens the scanner returns, in order. */
    const tokens: seq<Token>
    var pos: nat
    var currentToken: Token

    predicate Valid()
      reads this
    {
      pos <= |tokens| && currentToken == Current(tokens, pos)
    }

    /** Parser(Scanner): the first token becomes current. */
    constructor(ts: seq<Token>)
      ensures Valid() && tokens == ts && pos == 0
    {
      tokens := ts;
      pos := 0;
      currentToken := Current(ts, 0);
    }

    /** Parser.eat. */
    method Eat(expected: Token) returns (thrown: Option<Error>)
      requires Valid()
      modifies this
      ensures Valid()
      ensures Parsing.Eat(tokens, old(pos), expected) == if thrown.None? then Ok(pos) else Err(thrown.value)
    {
      var same := Equals(expected, TokenObject(currentToken));
      if same == Ok(true) {
        if pos < |tokens| {
          pos := pos + 1;
        }
        currentToken := Current(tokens, pos);
        thrown := None;
      } else {
        thrown := Some(IllegalArgument);
      }
    }

    /** The `if (!ignoreSemi) eat(";")` that ends most statements. */
    method EatSemicolon(ignoreSemi: bool) returns (thrown: Option<Error>)
      requires Valid()
      modifies this
      ensures Valid()
      ensures Parsing.EatSemicolon(tokens, old(pos), ignoreSemi) == if thrown.None? then Ok(pos) else Err(thrown.value)
    {
      thrown := None;
      if !ignoreSemi {
        thrown := Eat(Token(OPERATOR, ";"));
      }
    }

    /** Parser.parseNumber. */
    method ParseNumber() returns (r: Result<Expr>)
      requires Valid()
      modifies this
      ensures Valid()
      ensures Outcome(r, pos) == Parsing.ParseNumber(tokens, old(pos))
    {
      var number := ParseInt(currentToken.value);
      if number.Err? {
        return Err(number.error);
      }
      var thrown := Eat(Token(NUMBER, currentToken.value));
      if thrown.Some? {
        return Err(thrown.value);
      }
      return Ok(Number(number.value));
    }

    /** Parser.parseFactor. */
    method ParseFactor() returns (r: Result<Expr>)
      requires Valid()
      modifies this
      decreases |tokens| - pos, 1
      ensures Valid()
      ensures Outcome(r, pos) == Parsing.ParseFactor(tokens, old(pos))
    {
      if currentToken.kind == OPERATOR {
        if currentToken.value == "(" {
          var _ := Eat(Token(OPERATOR, "("));
          r := ParseExpression();
          if r.Ok? {
            var thrown := Eat(Token(OPERATOR, ")"));
            if thrown.Some? {
              r := Err(thrown.value);
            }
          }
        } else if currentToken.value == "-" {
          var _ := Eat(Token(OPERATOR, "-"));
          var factor := ParseFactor();
          r := if factor.Ok? then Ok(BinOp(Number(-1), factor.value, "*")) else factor;
        } else {
          r := Err(IllegalArgument);
        }
      } else if currentToken.kind == NUMBER {
        r := ParseNumber();
      } else if currentToken.kind == IDENTIFIER {
        r := ParseNameFactor();
      } else {
        r := Err(IllegalArgument);
      }
    }

    /** The identifier case of parseFactor: a call or a variable. */
    method ParseNameFactor() returns (r: Result<Expr>)
      requires Valid() && currentToken.kind == IDENTIFIER
      modifies this
      decreases |tokens| - pos, 0
      ensures Valid()
      ensures Outcome(r, pos) == Parsing.ParseFactor(tokens, old(pos))
    {
      var id := currentToken.value;
      var _ := Eat(Token(IDENTIFIER, id));
      if currentToken.value == "(" {
        var thrown := Eat(Token(OPERATOR, "("));
        if thrown.Some? {
          return Err(thrown.value);
        }
        var arguments := ParseArguments();
        if arguments.Err? {
          return Err(arguments.error);
        }
        thrown := Eat(Token(OPERATOR, ")"));
        if thrown.Some? {
          return Err(thrown.value);
        }
        return Ok(ProcedureCall(id, arguments.value));
      }
      return Ok(Variable(id));
    }

    /** The argument list of a call, up to the ")". */
    method ParseArguments() returns (r: Result<seq<Expr>>)
      requires Valid()
      modifies this
      decreases |tokens| - pos, 5
      ensures Valid()
      ensures Outcome(r, pos) == Parsing.ParseArguments(tokens, old(pos))
    {
      var arguments: seq<Expr> := [];
      if currentToken.value != ")" {
        var first := ParseExpression();
        if first.Err? {
          return Err(first.error);
        }
        arguments := [first.value];
        while currentToken.value == ","
          invariant Valid() && old(pos) < pos
          invariant Parsing.ParseArguments(tokens, old(pos)) == ArgumentsRest(tokens, pos, arguments)
          decreases |tokens| - pos
        {
          var thrown := Eat(Token(OPERATOR, ","));
          if thrown.Some? {
            return Err(thrown.value);
          }
          var e := ParseExpression();
          if e.Err? {
            return Err(e.error);
          }
          arguments := arguments + [e.value];
        }
      }
      return Ok(arguments);
    }

    /** Parser.parseTerm. */
    method ParseTerm() returns (r: Result<Expr>)
      requires Valid()
      modifies this
      decreases |tokens| - pos, 2
      ensures Valid()
      ensures Outcome(r, pos) == Parsing.ParseTerm(tokens, old(pos))
    {
      var left := ParseFactor();
      if left.Err? {
        return left;
      }
      var exp: Option<Expr> := None;
      while IsMultiplyingOperator(currentToken)
        invariant Valid() && old(pos) < pos
        invariant Parsing.ParseTerm(tokens, old(pos)) == TermRest(tokens, pos, left.value, exp)
        decreases |tokens| - pos
      {
        var op := currentToken.value;
        var _ := Eat(Token(OPERATOR, op));
        var right := ParseFactor();
        if right.Err? {
          return right;
        }
        exp := Some(BinOp(left.value, right.value, op));
      }
      return Ok(if exp.None? then left.value else exp.value);
    }

    /** Parser.parseExpression. */
    method ParseExpression() returns (r: Result<Expr>)
      requires Valid()
      modifies this
      decreases |tokens| - pos, 3
      ensures Valid()
      ensures Outcome(r, pos) == Parsing.ParseExpression(tokens, old(pos))
    {
      var left := ParseTerm();
      if left.Err? {
        return left;
      }
      var exp: Option<Expr> := None;
      while IsAddingOperator(currentToken)
        invariant Valid() && old(pos) < pos
        invariant Parsing.ParseExpression(tokens, old(pos)) == ExpressionRest(tokens, pos, left.value, exp)
        decreases |tokens| - pos
      {
        var op := currentToken.value;
        var _ := Eat(Token(OPERATOR, op));
        var right := ParseTerm();
        if right.Err? {
          return right;
        }
        exp := Some(BinOp(left.value, right.value, op));
      }
      return Ok(if exp.None? then left.value else exp.value);
    }

    /** Parser.parseCondition. */
    method ParseCondition() returns (r: Result<Expr>)
      requires Valid()
      modifies this
      decreases |tokens| - pos, 4
      ensures Valid()
      ensures Outcome(r, pos) == Parsing.ParseCondition(tokens, old(pos))
    {
      var left := ParseExpression();
      if left.Err? {
        return left;
      }
      if currentToken.kind != OPERATOR {
        return Err(IllegalArgument);
      }
      var op := currentToken.value;
      var _ := Eat(currentToken);
      var right := ParseExpression();
      if right.Err? {
        return right;
      }
      return Ok(Condition(left.value, right.value, op));
    }

    /** Parser.parseStatement: dispatch on the current token. */
    method ParseStatement(ignoreSemi: bool) returns (r: Result<Stmt>)
      requires Valid()
      modifies this
      decreases |tokens| - pos, 6
      ensures Valid()
      ensures Outcome(r, pos) == Parsing.ParseStatement(tokens, old(pos), ignoreSemi)
    {
      var t := currentToken;
      if t.value == "WRITELN" {
        r := ParseWriteln(ignoreSemi);
      } else if t.value == "BEGIN" {
        r := ParseBlock(ignoreSemi);
      } else if t.value == "IF" {
        r := ParseIf();
      } else if t.value == "WHILE" {
        r := ParseWhile();
      } else if t.value == "FOR" {
        r := ParseFor();
      } else if t.value == "CONTINUE" {
        r := ParseKeyword(ignoreSemi, "CONTINUE", Continue);
      } else if t.value == "BREAK" {
        r := ParseKeyword(ignoreSemi, "BREAK", Break);
      } else if t.value == "EXIT" {
        r := ParseKeyword(ignoreSemi, "EXIT", Exit);
      } else if t.kind == IDENTIFIER {
        r := ParseIdentifierStatement(ignoreSemi);
      } else {
        r := Err(IllegalArgument);
      }
    }

    method ParseWriteln(ignoreSemi: bool) returns (r: Result<Stmt>)
      requires Valid()
      modifies this
      decreases |tokens| - pos, 5
      ensures Valid()
      ensures Outcome(r, pos) == Parsing.ParseWriteln(tokens, old(pos), ignoreSemi)
    {
      var thrown := Eat(Token(IDENTIFIER, "WRITELN"));
      if thrown.Some? {
        return Err(thrown.value);
      }
      thrown := Eat(Token(OPERATOR, "("));
      if thrown.Some? {
        return Err(thrown.value);
      }
      var exp := ParseExpression();
      if exp.Err? {
        return Err(exp.error);
      }
      thrown := Eat(Token(OPERATOR, ")"));
      if thrown.Some? {
        return Err(thrown.value);
      }
      thrown := EatSemicolon(ignoreSemi);
      if thrown.Some? {
        return Err(thrown.value);
      }
      return Ok(Writeln(exp.value));
    }

    method ParseBlock(ignoreSemi: bool) returns (r: Result<Stmt>)
      requires Valid()
      modifies this
      decreases |tokens| - pos, 5
      ensures Valid()
      ensures Outcome(r, pos) == Parsing.ParseBlock(tokens, old(pos), ignoreSemi)
    {
      var thrown := Eat(Token(IDENTIFIER, "BEGIN"));
      if thrown.Some? {
        return Err(thrown.value);
      }
      var stmts: seq<Stmt> := [];
      while currentToken != Token(IDENTIFIER, "END")
        invariant Valid() && old(pos) < pos
        invariant BlockRest(tokens, old(pos) + 1, []) == BlockRest(tokens, pos, stmts)
        decreases |tokens| - pos
      {
        var s := ParseStatement(false);
        if s.Err? {
          return Err(s.error);
        }
        stmts := stmts + [s.value];
      }
      thrown := Eat(Token(IDENTIFIER, "END"));
      thrown := EatSemicolon(ignoreSemi);
      if thrown.Some? {
        return Err(thrown.value);
      }
      return Ok(Block(stmts));
    }

    method ParseIf() returns (r: Result<Stmt>)
      requires Valid()
      modifies this
      decreases |tokens| - pos, 5
      ensures Valid()
      ensures Outcome(r, pos) == Parsing.ParseIf(tokens, old(pos))
    {
      var thrown := Eat(Token(IDENTIFIER, "IF"));
      if thrown.Some? {
        return Err(thrown.value);
      }
      var cond := ParseCondition();
      if cond.Err? {
        return Err(cond.error);
      }
      thrown := Eat(Token(IDENTIFIER, "THEN"));
      if thrown.Some? {
        return Err(thrown.value);
      }
      var s := ParseStatement(false);
      if s.Err? {
        return s;
      }
      if currentToken.value == "ELSE" {
        thrown := Eat(Token(IDENTIFIER, "ELSE"));
        if thrown.Some? {
          return Err(thrown.value);
        }
        var e := ParseStatement(false);
        if e.Err? {
          return e;
        }
        return Ok(IfElse(cond.value, s.value, e.value));
      }
      return Ok(If(cond.value, s.value));
    }

    method ParseWhile() returns (r: Result<Stmt>)
      requires Valid()
      modifies this
      decreases |tokens| - pos, 5
      ensures Valid()
      ensures Outcome(r, pos) == Parsing.ParseWhile(tokens, old(pos))
    {
      var thrown := Eat(Token(IDENTIFIER, "WHILE"));
      if thrown.Some? {
        return Err(thrown.value);
      }
      var cond := ParseCondition();
      if cond.Err? {
        return Err(cond.error);
      }
      thrown := Eat(Token(IDENTIFIER, "DO"));
      if thrown.Some? {
        return Err(thrown.value);
      }
      var s := ParseStatement(false);
      if s.Err? {
        return s;
      }
      return Ok(While(cond.value, s.value));
    }

    method ParseFor() returns (r: Result<Stmt>)
      requires Valid()
      modifies this
      decreases |tokens| - pos, 5
      ensures Valid()
      ensures Outcome(r, pos) == Parsing.ParseFor(tokens, old(pos))
    {
      var thrown := Eat(Token(IDENTIFIER, "FOR"));
      if thrown.Some? {
        return Err(thrown.value);
      }
      var begin := ParseStatement(true);
      if begin.Err? {
        return begin;
      }
      if !begin.value.Assign? {
        return Err(IllegalArgument);
      }
      thrown := Eat(Token(IDENTIFIER, "TO"));
      if thrown.Some? {
        return Err(thrown.value);
      }
      var end := ParseExpression();
      if end.Err? {
        return Err(end.error);
      }
      thrown := Eat(Token(IDENTIFIER, "DO"));
      if thrown.Some? {
        return Err(thrown.value);
      }
      var s := ParseStatement(false);
      if s.Err? {
        return s;
      }
      return Ok(For(begin.value.assignment, end.value, s.value));
    }

    method ParseKeyword(ignoreSemi: bool, word: string, node: Stmt) returns (r: Result<Stmt>)
      requires Valid()
      modifies this
      ensures Valid()
      ensures Outcome(r, pos) == Parsing.ParseKeyword(tokens, old(pos), ignoreSemi, word, node)
    {
      var thrown := Eat(Token(IDENTIFIER, word));
      if thrown.Some? {
        return Err(thrown.value);
      }
      thrown := EatSemicolon(ignoreSemi);
      if thrown.Some? {
        return Err(thrown.value);
      }
      return Ok(node);
    }

    method ParseIdentifierStatement(ignoreSemi: bool) returns (r: Result<Stmt>)
      requires Valid()
      modifies this
      decreases |tokens| - pos, 5
      ensures Valid()
      ensures Outcome(r, pos) == Parsing.ParseIdentifierStatement(tokens, old(pos), ignoreSemi)
    {
      var id := currentToken.value;
      var thrown := Eat(Token(IDENTIFIER, id));
      if thrown.Some? {
        return Err(thrown.value);
      }
      if currentToken.value == ":=" {
        thrown := Eat(Token(OPERATOR, ":="));
        if thrown.Some? {
          return Err(thrown.value);
        }
        var exp := ParseExpression();
        if exp.Err? {
          return Err(exp.error);
        }
        thrown := EatSemicolon(ignoreSemi);
        if thrown.Some? {
          return Err(thrown.value);
        }
        return Ok(Assign(Assignment(id, exp.value)));
      } else if currentToken.value == "(" {
        thrown := Eat(Token(OPERATOR, "("));
        if thrown.Some? {
          return Err(thrown.value);
        }
        var arguments := ParseArguments();
        if arguments.Err? {
          return Err(arguments.error);
        }
        thrown := Eat(Token(OPERATOR, ")"));
        if thrown.Some? {
          return Err(thrown.value);
        }
        thrown := EatSemicolon(ignoreSemi);
        if thrown.Some? {
          return Err(thrown.value);
        }
        return Ok(Call(id, arguments.value));
      }
      return Err(IllegalArgument);
    }

    /** A PROCEDURE declaration, with the parameter loop. */
    method ParseProcedure() returns (r: Result<ProcedureDeclaration>)
      requires Valid()
      modifies this
      ensures Valid()
      ensures Outcome(r, pos) == Parsing.ParseProcedure(tokens, old(pos))
    {
      var thrown := Eat(Token(IDENTIFIER, "PROCEDURE"));
      if thrown.Some? {
        return Err(thrown.value);
      }
      var id := currentToken.value;
      thrown := Eat(Token(IDENTIFIER, id));
      if thrown.Some? {
        return Err(thrown.value);
      }
      thrown := Eat(Token(OPERATOR, "("));
      if thrown.Some? {
        return Err(thrown.value);
      }
      ghost var start := pos;
      var params: seq<string> := [];
      if currentToken.value != ")" {
        var param := currentToken.value;
        thrown := Eat(Token(IDENTIFIER, param));
        if thrown.Some? {
          return Err(thrown.value);
        }
        params := [param];
        while currentToken.value == ","
          invariant Valid() && start < pos
          invariant ParametersRest(tokens, start + 1, [Current(tokens, start).value]) == ParametersRest(tokens, pos, params)
          decreases |tokens| - pos
        {
          thrown := Eat(Token(OPERATOR, ","));
          if thrown.Some? {
            return Err(thrown.value);
          }
          param := currentToken.value;
          thrown := Eat(Token(IDENTIFIER, param));
          if thrown.Some? {
            return Err(thrown.value);
          }
          params := params + [param];
        }
      }
      thrown := Eat(Token(OPERATOR, ")"));
      if thrown.Some? {
        return Err(thrown.value);
      }
      thrown := Eat(Token(OPERATOR, ";"));
      if thrown.Some? {
        return Err(thrown.value);
      }
      var body := ParseStatement(false);
      if body.Err? {
        return Err(body.error);
      }
      return Ok(ProcedureDeclaration(id, params, body.value, []));
    }

    /** Parser.parseProgram. */
    method ParseProgram() returns (r: Result<Program>)
      requires Valid() && pos == 0
      modifies this
      ensures Valid()
      ensures Outcome(r, pos) == Parsing.ParseProgram(tokens)
    {
      var procedures: seq<ProcedureDeclaration> := [];
      while currentToken.value == "PROCEDURE"
        invariant Valid()
        invariant Procedures(tokens, 0, []) == Procedures(tokens, pos, procedures)
        decreases |tokens| - pos
      {
        ghost var before := pos;
        var p := ParseProcedure();
        if p.Err? {
          return Err(p.error);
        }
        assert before < pos;
        procedures := procedures + [p.value];
      }
      var main := ParseStatement(false);
      if main.Err? {
        return Err(main.error);
      }
      return Ok(Program([], procedures, main.value));
    }
  }
}
