/** Properties of the parser: how operator chains are built, precedence,
    the shape of factors, and that parsing reads back what a printer of
    fully parenthesised expressions writes. */
module ParserProperties {
  import opened Base
  import opened Tokens
  import opened Ast
  import opened Parsing
  import opened Environments
  import opened Semantics

  // ---------------------------------------------------------------------
  // One step of each parse function
  // ---------------------------------------------------------------------

  lemma {:induction false} FactorNumber(ts: seq<Token>, pos: nat, n: int)
    requires pos <= |ts| && Current(ts, pos).kind == NUMBER
    requires ParseInt(Current(ts, pos).value) == Ok(n)
    ensures ParseFactor(ts, pos) == Ok(Parsed(Number(n), pos + 1))
  {
  }

  lemma {:induction false} FactorVariable(ts: seq<Token>, pos: nat)
    requires pos <= |ts| && Current(ts, pos).kind == IDENTIFIER
    requires Current(ts, pos + 1).value != "("
    ensures ParseFactor(ts, pos) == Ok(Parsed(Variable(Current(ts, pos).value), pos + 1))
  {
  }

  /** `( e )` is e: the parentheses leave no node behind. */
  lemma {:induction false} FactorParenthesised(ts: seq<Token>, pos: nat, inner: Parsed<Expr>)
    requires pos <= |ts| && Current(ts, pos) == LeftParen
    requires ParseExpression(ts, pos + 1) == Ok(inner)
    requires Current(ts, inner.next) == RightParen
    ensures ParseFactor(ts, pos) == Ok(Parsed(inner.node, inner.next + 1))
  {
  }

  /** `- f` is f multiplied by the literal -1. */
  lemma {:induction false} FactorNegated(ts: seq<Token>, pos: nat, f: Parsed<Expr>)
    requires pos <= |ts| && Current(ts, pos) == Token(OPERATOR, "-")
    requires ParseFactor(ts, pos + 1) == Ok(f)
    ensures ParseFactor(ts, pos) == Ok(Parsed(BinOp(Number(-1), f.node, "*"), f.next))
  {
  }

  lemma {:induction false} FactorCall(ts: seq<Token>, pos: nat, args: Parsed<seq<Expr>>)
    requires pos <= |ts| && Current(ts, pos).kind == IDENTIFIER
    requires Current(ts, pos + 1) == LeftParen
    requires ParseArguments(ts, pos + 2) == Ok(args)
    requires Current(ts, args.next) == RightParen
    ensures ParseFactor(ts, pos) == Ok(Parsed(ProcedureCall(Current(ts, pos).value, args.node), args.next + 1))
  {
  }

  lemma {:induction false} TermStart(ts: seq<Token>, pos: nat, f: Parsed<Expr>)
    requires pos <= |ts| && ParseFactor(ts, pos) == Ok(f)
    ensures ParseTerm(ts, pos) == TermRest(ts, f.next, f.node, None)
  {
  }

  lemma {:induction false} TermStep(ts: seq<Token>, pos: nat, left: Expr, exp: Option<Expr>, f: Parsed<Expr>)
    requires pos <= |ts| && IsMultiplyingOperator(Current(ts, pos))
    requires ParseFactor(ts, pos + 1) == Ok(f)
    ensures TermRest(ts, pos, left, exp) == TermRest(ts, f.next, left, Some(BinOp(left, f.node, Current(ts, pos).value)))
  {
  }

  lemma {:induction false} TermStop(ts: seq<Token>, pos: nat, left: Expr, exp: Option<Expr>)
    requires pos <= |ts| && !IsMultiplyingOperator(Current(ts, pos))
    ensures TermRest(ts, pos, left, exp) == Ok(Parsed(if exp.None? then left else exp.value, pos))
  {
  }

  lemma {:induction false} ExpressionStart(ts: seq<Token>, pos: nat, t: Parsed<Expr>)
    requires pos <= |ts| && ParseTerm(ts, pos) == Ok(t)
    ensures ParseExpression(ts, pos) == ExpressionRest(ts, t.next, t.node, None)
  {
  }

  lemma {:induction false} ExpressionStep(ts: seq<Token>, pos: nat, left: Expr, exp: Option<Expr>, t: Parsed<Expr>)
    requires pos <= |ts| && IsAddingOperator(Current(ts, pos))
    requires ParseTerm(ts, pos + 1) == Ok(t)
    ensures ExpressionRest(ts, pos, left, exp) == ExpressionRest(ts, t.next, left, Some(BinOp(left, t.node, Current(ts, pos).value)))
  {
  }

  lemma {:induction false} ExpressionStop(ts: seq<Token>, pos: nat, left: Expr, exp: Option<Expr>)
    requires pos <= |ts| && !IsAddingOperator(Current(ts, pos))
    ensures ExpressionRest(ts, pos, left, exp) == Ok(Parsed(if exp.None? then left else exp.value, pos))
  {
  }

  lemma {:induction false} ArgumentsStart(ts: seq<Token>, pos: nat, e: Parsed<Expr>)
    requires pos <= |ts| && Current(ts, pos).value != ")"
    requires ParseExpression(ts, pos) == Ok(e)
    ensures ParseArguments(ts, pos) == ArgumentsRest(ts, e.next, [e.node])
  {
  }

  lemma {:induction false} ArgumentsStep(ts: seq<Token>, pos: nat, args: seq<Expr>, e: Parsed<Expr>)
    requires pos <= |ts| && Current(ts, pos) == Comma
    requires ParseExpression(ts, pos + 1) == Ok(e)
    ensures ArgumentsRest(ts, pos, args) == ArgumentsRest(ts, e.next, args + [e.node])
  {
  }

  // ---------------------------------------------------------------------
  // Printing expressions as tokens
  // ---------------------------------------------------------------------

  const LeftParen := Token(OPERATOR, "(")
  const RightParen := Token(OPERATOR, ")")
  const Comma := Token(OPERATOR, ",")

  /** The expressions the printer below writes so that they read back:
      non-negative int literals, arithmetic operators, and no conditions
      inside an expression, and names made of letters and digits. */
  predicate Printable(e: Expr) {
    match e
    case Number(n) => 0 <= n <= IntMax
    case Variable(x) => IsName(x)
    case BinOp(l, r, op) => IsArithOp(op) && Printable(l) && Printable(r)
    case ProcedureCall(id, args) => IsName(id) && forall i :: 0 <= i < |args| ==> Printable(args[i])
    case Condition(_, _, _) => false
  }

  /** The tokens of an expression, every binary operation in parentheses. */
  function Unparse(e: Expr): seq<Token> {
    match e
    case Number(n) => [Token(NUMBER, IntToString(n))]
    case Variable(x) => [Token(IDENTIFIER, x)]
    case BinOp(l, r, op) => [LeftParen] + Unparse(l) + [Token(OPERATOR, op)] + Unparse(r) + [RightParen]
    case ProcedureCall(id, args) => [Token(IDENTIFIER, id), LeftParen] + UnparseList(args) + [RightParen]
    case Condition(l, r, op) => Unparse(l) + [Token(OPERATOR, op)] + Unparse(r)
  }

  /** Arguments separated by commas. */
  function UnparseList(args: seq<Expr>): seq<Token> {
    if args == [] then [] else Unparse(args[0]) + UnparseTail(args, 1)
  }

  /** `, a_i , a_(i+1) ...` */
  function UnparseTail(args: seq<Expr>, i: nat): seq<Token>
    decreases args, |args| - i
  {
    if i >= |args| then [] else [Comma] + Unparse(args[i]) + UnparseTail(args, i + 1)
  }

  /** The tokens u appear in ts starting at pos. */
  ghost predicate At(ts: seq<Token>, pos: nat, u: seq<Token>)
    decreases |u|
  {
    pos + |u| <= |ts| && (|u| == 0 || (ts[pos] == u[0] && At(ts, pos + 1, u[1..])))
  }

  lemma {:induction false} AtSplit(ts: seq<Token>, pos: nat, u: seq<Token>, v: seq<Token>)
    requires At(ts, pos, u + v)
    ensures At(ts, pos, u) && At(ts, pos + |u|, v)
    decreases |u|
  {
    if |u| == 0 {
      assert u + v == v;
    } else {
      assert (u + v)[1..] == u[1..] + v;
      AtSplit(ts, pos + 1, u[1..], v);
    }
  }

  /** At is the slice of ts at pos being u. */
  lemma {:induction false} AtSlice(ts: seq<Token>, pos: nat, u: seq<Token>)
    requires pos + |u| <= |ts| && ts[pos..pos + |u|] == u
    ensures At(ts, pos, u)
    decreases |u|
  {
    if |u| > 0 {
      assert ts[pos + 1..pos + |u|] == u[1..];
      AtSlice(ts, pos + 1, u[1..]);
    }
  }

  lemma {:induction false} AtToken(ts: seq<Token>, pos: nat, t: Token)
    requires At(ts, pos, [t])
    ensures Current(ts, pos) == t
  {
  }

  /** A token that ends an expression: parseTerm's and parseExpression's
      loops stop at it, and it does not turn a name into a call. */
  predicate EndsExpression(t: Token) {
    !IsAddingOperator(t) && !IsMultiplyingOperator(t) && t.value != "("
  }

  // ---------------------------------------------------------------------
  // Reading back printed expressions
  // ---------------------------------------------------------------------

  /** A printed expression is one factor: a literal, a name, a call or a
      parenthesised operation. */
  lemma {:induction false} FactorRoundTrip(e: Expr, ts: seq<Token>, pos: nat)
    requires Printable(e) && At(ts, pos, Unparse(e))
    requires Current(ts, pos + |Unparse(e)|).value != "("
    ensures ParseFactor(ts, pos) == Ok(Parsed(e, pos + |Unparse(e)|))
    decreases e, 3
  {
    match e
    case Number(n) =>
      AtToken(ts, pos, Token(NUMBER, IntToString(n)));
      ParseIntRoundTrip(n);
      FactorNumber(ts, pos, n);
    case Variable(x) =>
      AtToken(ts, pos, Token(IDENTIFIER, x));
      FactorVariable(ts, pos);
    case BinOp(l, r, op) =>
      BinOpRoundTrip(e, ts, pos);
    case ProcedureCall(id, args) =>
      CallRoundTrip(e, ts, pos);
  }

  /** Where the parts of a printed `id ( arguments )` are. */
  lemma {:induction false} CallLayout(e: Expr, ts: seq<Token>, pos: nat)
    requires e.ProcedureCall? && At(ts, pos, Unparse(e))
    ensures |Unparse(e)| == |UnparseList(e.args)| + 3
    ensures Current(ts, pos) == Token(IDENTIFIER, e.id)
    ensures Current(ts, pos + 1) == LeftParen
    ensures At(ts, pos + 2, UnparseList(e.args))
    ensures Current(ts, pos + 2 + |UnparseList(e.args)|) == RightParen
  {
    var u := [Token(IDENTIFIER, e.id), LeftParen];
    var list := UnparseList(e.args);
    AtSplit(ts, pos, u + list, [RightParen]);
    AtSplit(ts, pos, u, list);
    AtSplit(ts, pos, [Token(IDENTIFIER, e.id)], [LeftParen]);
    AtToken(ts, pos, Token(IDENTIFIER, e.id));
    AtToken(ts, pos + 1, LeftParen);
    AtToken(ts, pos + 2 + |list|, RightParen);
  }

  /** `id ( arguments )` reads back as the call. */
  lemma {:induction false} CallRoundTrip(e: Expr, ts: seq<Token>, pos: nat)
    requires e.ProcedureCall? && Printable(e) && At(ts, pos, Unparse(e))
    ensures ParseFactor(ts, pos) == Ok(Parsed(e, pos + |Unparse(e)|))
    decreases e, 2
  {
    CallLayout(e, ts, pos);
    var close := pos + 2 + |UnparseList(e.args)|;
    ArgumentsRoundTrip(e, ts, pos + 2);
    assert ParseArguments(ts, pos + 2) == Ok(Parsed(e.args, close));
    FactorCall(ts, pos, Parsed(e.args, close));
    assert ParseFactor(ts, pos) == Ok(Parsed(ProcedureCall(e.id, e.args), close + 1));
    assert pos + |Unparse(e)| == close + 1;
  }

  /** Where the parts of a printed `( l op r )` are: the operator at e1,
      the ")" at e2. */
  lemma {:induction false} BinOpLayout(e: Expr, ts: seq<Token>, pos: nat) returns (e1: nat, e2: nat)
    requires e.BinOp? && At(ts, pos, Unparse(e))
    ensures e1 == pos + 1 + |Unparse(e.left)| && e2 == e1 + 1 + |Unparse(e.right)|
    ensures e2 + 1 == pos + |Unparse(e)| && e2 < |ts|
    ensures Current(ts, pos) == LeftParen
    ensures At(ts, pos + 1, Unparse(e.left))
    ensures Current(ts, e1) == Token(OPERATOR, e.op)
    ensures At(ts, e1 + 1, Unparse(e.right))
    ensures Current(ts, e2) == RightParen
  {
    var l, r := Unparse(e.left), Unparse(e.right);
    var opToken := Token(OPERATOR, e.op);
    e1 := pos + 1 + |l|;
    e2 := e1 + 1 + |r|;
    AtSplit(ts, pos, [LeftParen] + l + [opToken] + r, [RightParen]);
    AtSplit(ts, pos, [LeftParen] + l + [opToken], r);
    AtSplit(ts, pos, [LeftParen] + l, [opToken]);
    AtSplit(ts, pos, [LeftParen], l);
    AtToken(ts, pos, LeftParen);
    AtToken(ts, e1, opToken);
    AtToken(ts, e2, RightParen);
  }

  /** `( l op r )` reads back as BinOp(l, r, op), whichever level op binds at. */
  lemma {:induction false} BinOpRoundTrip(e: Expr, ts: seq<Token>, pos: nat)
    requires e.BinOp? && Printable(e) && At(ts, pos, Unparse(e))
    ensures ParseFactor(ts, pos) == Ok(Parsed(e, pos + |Unparse(e)|))
    decreases e, 2
  {
    var e1, e2 := BinOpLayout(e, ts, pos);
    OperandsRoundTrip(e, ts, pos, e1, e2);
    ParenthesisedOperation(ts, pos, e, e1, e2);
  }

  /** `( l op r )` is one factor once l and r are. */
  lemma ParenthesisedOperation(ts: seq<Token>, pos: nat, e: Expr, e1: nat, e2: nat)
    requires e.BinOp? && IsArithOp(e.op) && pos < e1 < e2 < |ts|
    requires Current(ts, pos) == LeftParen
    requires ParseFactor(ts, pos + 1) == Ok(Parsed(e.left, e1))
    requires Current(ts, e1) == Token(OPERATOR, e.op)
    requires ParseFactor(ts, e1 + 1) == Ok(Parsed(e.right, e2))
    requires Current(ts, e2) == RightParen
    ensures ParseFactor(ts, pos) == Ok(Parsed(e, e2 + 1))
  {
    OperationParses(ts, pos + 1, e, e1, e2);
    FactorParenthesised(ts, pos, Parsed(e, e2));
  }

  /** `l op r` before a ")" is one expression, whichever level op binds at. */
  lemma {:induction false} OperationParses(ts: seq<Token>, pos: nat, e: Expr, e1: nat, e2: nat)
    requires e.BinOp? && IsArithOp(e.op) && pos <= e1 < e2 <= |ts|
    requires ParseFactor(ts, pos) == Ok(Parsed(e.left, e1))
    requires Current(ts, e1) == Token(OPERATOR, e.op)
    requires ParseFactor(ts, e1 + 1) == Ok(Parsed(e.right, e2))
    requires Current(ts, e2) == RightParen
    ensures ParseExpression(ts, pos) == Ok(Parsed(e, e2))
  {
    if IsMultiplyingOperator(Current(ts, e1)) {
      ProductParses(ts, pos, e, e1, e2);
    } else {
      SumParses(ts, pos, e, e1, e2);
    }
  }

  /** The two operands of a printed `( l op r )` read back as factors. */
  lemma {:induction false} OperandsRoundTrip(e: Expr, ts: seq<Token>, pos: nat, e1: nat, e2: nat)
    requires e.BinOp? && Printable(e)
    requires e1 == pos + 1 + |Unparse(e.left)| && e2 == e1 + 1 + |Unparse(e.right)| && e2 < |ts|
    requires At(ts, pos + 1, Unparse(e.left)) && Current(ts, e1) == Token(OPERATOR, e.op)
    requires At(ts, e1 + 1, Unparse(e.right)) && Current(ts, e2) == RightParen
    ensures ParseFactor(ts, pos + 1) == Ok(Parsed(e.left, e1))
    ensures ParseFactor(ts, e1 + 1) == Ok(Parsed(e.right, e2))
    decreases e, 1
  {
    FactorRoundTrip(e.left, ts, pos + 1);
    FactorRoundTrip(e.right, ts, e1 + 1);
  }

  /** `l * r` (or / or mod) before a ")" is one term. */
  lemma {:induction false} ProductParses(ts: seq<Token>, pos: nat, e: Expr, e1: nat, e2: nat)
    requires e.BinOp? && pos <= e1 < e2 <= |ts|
    requires ParseFactor(ts, pos) == Ok(Parsed(e.left, e1))
    requires Current(ts, e1) == Token(OPERATOR, e.op) && IsMultiplyingOperator(Current(ts, e1))
    requires ParseFactor(ts, e1 + 1) == Ok(Parsed(e.right, e2))
    requires Current(ts, e2) == RightParen
    ensures ParseExpression(ts, pos) == Ok(Parsed(e, e2))
  {
    TermStart(ts, pos, Parsed(e.left, e1));
    TermStep(ts, e1, e.left, None, Parsed(e.right, e2));
    TermStop(ts, e2, e.left, Some(e));
    ExpressionStart(ts, pos, Parsed(e, e2));
    ExpressionStop(ts, e2, e, None);
  }

  /** `l + r` (or -) before a ")" is a sum of two one-factor terms. */
  lemma {:induction false} SumParses(ts: seq<Token>, pos: nat, e: Expr, e1: nat, e2: nat)
    requires e.BinOp? && IsArithOp(e.op) && pos <= e1 < e2 <= |ts|
    requires ParseFactor(ts, pos) == Ok(Parsed(e.left, e1))
    requires Current(ts, e1) == Token(OPERATOR, e.op) && !IsMultiplyingOperator(Current(ts, e1))
    requires ParseFactor(ts, e1 + 1) == Ok(Parsed(e.right, e2))
    requires Current(ts, e2) == RightParen
    ensures ParseExpression(ts, pos) == Ok(Parsed(e, e2))
  {
    TermStart(ts, pos, Parsed(e.left, e1));
    TermStop(ts, e1, e.left, None);
    ExpressionStart(ts, pos, Parsed(e.left, e1));
    TermStart(ts, e1 + 1, Parsed(e.right, e2));
    TermStop(ts, e2, e.right, None);
    ExpressionStep(ts, e1, e.left, None, Parsed(e.right, e2));
    ExpressionStop(ts, e2, e.left, Some(e));
  }

  /** A printed expression followed by a token that ends it reads back as
      itself, and the parser stops right after it. */
  lemma {:induction false} ExpressionRoundTrip(e: Expr, ts: seq<Token>, pos: nat)
    requires Printable(e) && At(ts, pos, Unparse(e))
    requires EndsExpression(Current(ts, pos + |Unparse(e)|))
    ensures ParseExpression(ts, pos) == Ok(Parsed(e, pos + |Unparse(e)|))
    decreases e, 4
  {
    var f := Parsed(e, pos + |Unparse(e)|);
    FactorRoundTrip(e, ts, pos);
    assert pos <= |ts|;
    assert ParseFactor(ts, pos) == Ok(f);
    assert EndsExpression(Current(ts, f.next));
    SingleFactor(ts, pos, f);
  }

  /** A factor followed by a token that ends an expression is a whole
      expression. */
  lemma {:induction false} SingleFactor(ts: seq<Token>, pos: nat, f: Parsed<Expr>)
    requires pos <= |ts| && ParseFactor(ts, pos) == Ok(f) && EndsExpression(Current(ts, f.next))
    ensures ParseExpression(ts, pos) == Ok(f)
  {
    TermStart(ts, pos, f);
    TermStop(ts, f.next, f.node, None);
    ExpressionStart(ts, pos, f);
    ExpressionStop(ts, f.next, f.node, None);
  }

  /** A printed expression does not start with ")", so an argument list
      that has one is not taken for an empty one. */
  lemma {:induction false} StartsExpression(e: Expr)
    requires Printable(e)
    ensures |Unparse(e)| > 0 && Unparse(e)[0].value != ")"
  {
    match e
    case Number(n) =>
      NatToStringRoundTrip(n);
      assert IsDigitChar(IntToString(n)[0]);
    case Variable(x) =>
      assert |x| == 0 || IsIdentifierChar(x[0]);
    case BinOp(_, _, _) =>
    case ProcedureCall(id, _) =>
      assert |id| == 0 || IsIdentifierChar(id[0]);
  }

  lemma {:induction false} FirstTokenAt(e: Expr, ts: seq<Token>, pos: nat)
    requires Printable(e) && At(ts, pos, Unparse(e))
    ensures Current(ts, pos).value != ")"
  {
    var u := Unparse(e);
    StartsExpression(e);
    AtSplit(ts, pos, [u[0]], u[1..]);
    assert [u[0]] + u[1..] == u;
    AtToken(ts, pos, u[0]);
  }

  /** The first printed argument is followed by a comma or by the ")". */
  lemma {:induction false} TailStartsWithComma(args: seq<Expr>, i: nat)
    requires i < |args|
    ensures |UnparseTail(args, i)| > 0 && UnparseTail(args, i)[0] == Comma
  {
  }

  /** Where a printed argument ends, a comma or the closing ")" follows. */
  lemma {:induction false} ArgumentEnds(args: seq<Expr>, i: nat, ts: seq<Token>, pos: nat)
    requires i <= |args|
    requires At(ts, pos, UnparseTail(args, i))
    requires Current(ts, pos + |UnparseTail(args, i)|) == RightParen
    ensures EndsExpression(Current(ts, pos))
    ensures Current(ts, pos) == Comma <==> i < |args|
  {
    if i < |args| {
      TailStartsWithComma(args, i);
      AtSplit(ts, pos, [Comma], UnparseTail(args, i)[1..]);
      assert [Comma] + UnparseTail(args, i)[1..] == UnparseTail(args, i);
      AtToken(ts, pos, Comma);
    }
  }

  /** A printed argument list followed by ")" reads back as the arguments. */
  lemma {:induction false} ArgumentsRoundTrip(call: Expr, ts: seq<Token>, pos: nat)
    requires call.ProcedureCall? && Printable(call)
    requires At(ts, pos, UnparseList(call.args))
    requires Current(ts, pos + |UnparseList(call.args)|) == RightParen
    ensures ParseArguments(ts, pos) == Ok(Parsed(call.args, pos + |UnparseList(call.args)|))
    decreases call, 1
  {
    var args := call.args;
    if args != [] {
      var first := Unparse(args[0]);
      AtSplit(ts, pos, first, UnparseTail(args, 1));
      ArgumentEnds(args, 1, ts, pos + |first|);
      assert Printable(args[0]);
      ExpressionRoundTrip(args[0], ts, pos);
      assert ParseExpression(ts, pos) == Ok(Parsed(args[0], pos + |first|));
      ArgumentsTailRoundTrip(call, 1, ts, pos + |first|);
      assert args[..1] == [args[0]];
      FirstTokenAt(args[0], ts, pos);
      ArgumentsStart(ts, pos, Parsed(args[0], pos + |first|));
    }
  }

  /** The `, argument` loop reads back the remaining arguments. */
  lemma {:induction false} ArgumentsTailRoundTrip(call: Expr, i: nat, ts: seq<Token>, pos: nat)
    requires call.ProcedureCall? && Printable(call) && 1 <= i <= |call.args|
    requires At(ts, pos, UnparseTail(call.args, i))
    requires Current(ts, pos + |UnparseTail(call.args, i)|) == RightParen
    ensures ArgumentsRest(ts, pos, call.args[..i]) == Ok(Parsed(call.args, pos + |UnparseTail(call.args, i)|))
    decreases call, 0, |call.args| - i
  {
    var args := call.args;
    ArgumentEnds(args, i, ts, pos);
    if i == |args| {
      WholePrefix(args);
    } else {
      var u := Unparse(args[i]);
      AtSplit(ts, pos, [Comma] + u, UnparseTail(args, i + 1));
      AtSplit(ts, pos, [Comma], u);
      ArgumentEnds(args, i + 1, ts, pos + 1 + |u|);
      assert Printable(args[i]);
      ExpressionRoundTrip(args[i], ts, pos + 1);
      ArgumentsTailRoundTrip(call, i + 1, ts, pos + 1 + |u|);
      PrefixExtends(args, i);
      ArgumentsStep(ts, pos, args[..i], Parsed(args[i], pos + 1 + |u|));
    }
  }

  lemma {:induction false} PrefixExtends<T>(s: seq<T>, i: nat)
    requires i < |s|
    ensures s[..i] + [s[i]] == s[..i + 1]
  {
  }

  lemma {:induction false} WholePrefix<T>(s: seq<T>)
    ensures s[..|s|] == s
  {
  }

  /** Parsing reads back every printable expression, whatever follows it
      (as long as it ends the expression). */
  lemma {:induction false} ParsesPrinted(e: Expr, rest: seq<Token>)
    requires Printable(e) && EndsExpression(Current(rest, 0))
    ensures ParseExpression(Unparse(e) + rest, 0) == Ok(Parsed(e, |Unparse(e)|))
  {
    var ts := Unparse(e) + rest;
    assert ts[0..|Unparse(e)|] == Unparse(e);
    AtSlice(ts, 0, Unparse(e));
    assert Current(ts, |Unparse(e)|) == Current(rest, 0);
    ExpressionRoundTrip(e, ts, 0);
  }

  // ---------------------------------------------------------------------
  // Conditions
  // ---------------------------------------------------------------------

  lemma {:induction false} ConditionStep(ts: seq<Token>, pos: nat, l: Parsed<Expr>, r: Parsed<Expr>)
    requires pos <= |ts| && ParseExpression(ts, pos) == Ok(l)
    requires Current(ts, l.next).kind == OPERATOR
    requires ParseExpression(ts, l.next + 1) == Ok(r)
    ensures ParseCondition(ts, pos) == Ok(Parsed(Condition(l.node, r.node, Current(ts, l.next).value), r.next))
  {
  }

  /** `l relop r` reads back as the condition, for each relational operator
      Condition.eval knows. */
  lemma {:induction false} ConditionRoundTrip(c: Expr, ts: seq<Token>, pos: nat)
    requires c.Condition? && IsRelop(c.relop) && Printable(c.left) && Printable(c.right)
    requires At(ts, pos, Unparse(c))
    requires EndsExpression(Current(ts, pos + |Unparse(c)|))
    ensures ParseCondition(ts, pos) == Ok(Parsed(c, pos + |Unparse(c)|))
  {
    var e1 := ConditionLayout(c, ts, pos);
    var e2 := pos + |Unparse(c)|;
    ConditionOperandsRoundTrip(c, ts, pos, e1, e2);
    ConditionStep(ts, pos, Parsed(c.left, e1), Parsed(c.right, e2));
  }

  /** Where the operands and the operator of a printed condition are. */
  lemma {:induction false} ConditionLayout(c: Expr, ts: seq<Token>, pos: nat) returns (e1: nat)
    requires c.Condition? && At(ts, pos, Unparse(c))
    ensures e1 == pos + |Unparse(c.left)| && e1 + 1 + |Unparse(c.right)| == pos + |Unparse(c)|
    ensures At(ts, pos, Unparse(c.left)) && Current(ts, e1) == Token(OPERATOR, c.relop)
    ensures At(ts, e1 + 1, Unparse(c.right))
  {
    var l, r := Unparse(c.left), Unparse(c.right);
    var opToken := Token(OPERATOR, c.relop);
    e1 := pos + |l|;
    AtSplit(ts, pos, l + [opToken], r);
    AtSplit(ts, pos, l, [opToken]);
    AtToken(ts, e1, opToken);
  }

  /** Both operands of a printed condition read back as expressions: the
      relational operator ends the first, and the token after the condition
      the second. */
  lemma {:induction false} ConditionOperandsRoundTrip(c: Expr, ts: seq<Token>, pos: nat, e1: nat, e2: nat)
    requires c.Condition? && IsRelop(c.relop) && Printable(c.left) && Printable(c.right)
    requires e1 == pos + |Unparse(c.left)| && e2 == e1 + 1 + |Unparse(c.right)|
    requires At(ts, pos, Unparse(c.left)) && Current(ts, e1) == Token(OPERATOR, c.relop)
    requires At(ts, e1 + 1, Unparse(c.right)) && EndsExpression(Current(ts, e2))
    ensures ParseExpression(ts, pos) == Ok(Parsed(c.left, e1))
    ensures ParseExpression(ts, e1 + 1) == Ok(Parsed(c.right, e2))
  {
    ExpressionRoundTrip(c.left, ts, pos);
    ExpressionRoundTrip(c.right, ts, e1 + 1);
  }

  // ---------------------------------------------------------------------
  // How chains of operators are built
  // ---------------------------------------------------------------------

  /** parseExpression's loop builds every operation on the FIRST term: each
      `+ t` or `- t` replaces the node built so far by BinOp(first, t, op),
      so a chain keeps only its first and its last term. */
  lemma {:induction false} ExpressionRestKeepsFirst(ts: seq<Token>, pos: nat, left: Expr, exp: Option<Expr>)
    requires pos <= |ts|
    requires exp.Some? ==> exp.value.BinOp? && exp.value.left == left
    requires ExpressionRest(ts, pos, left, exp).Ok?
    ensures var n := ExpressionRest(ts, pos, left, exp).value.node;
      if exp.None? && !IsAddingOperator(Current(ts, pos)) then n == left
      else n.BinOp? && n.left == left
    decreases |ts| - pos
  {
    var t := Current(ts, pos);
    if IsAddingOperator(t) {
      var right := ParseTerm(ts, pos + 1).value;
      ExpressionRestKeepsFirst(ts, right.next, left, Some(BinOp(left, right.node, t.value)));
    }
  }

  /** The same for parseTerm's loop over *, / and mod. */
  lemma {:induction false} TermRestKeepsFirst(ts: seq<Token>, pos: nat, left: Expr, exp: Option<Expr>)
    requires pos <= |ts|
    requires exp.Some? ==> exp.value.BinOp? && exp.value.left == left
    requires TermRest(ts, pos, left, exp).Ok?
    ensures var n := TermRest(ts, pos, left, exp).value.node;
      if exp.None? && !IsMultiplyingOperator(Current(ts, pos)) then n == left
      else n.BinOp? && n.left == left
    decreases |ts| - pos
  {
    var t := Current(ts, pos);
    if IsMultiplyingOperator(t) {
      var right := ParseFactor(ts, pos + 1).value;
      TermRestKeepsFirst(ts, right.next, left, Some(BinOp(left, right.node, t.value)));
    }
  }

  /** `1 - 2 - 3` parses as `1 - 3`: the middle term is dropped. */
  lemma {:induction false} SubtractionChainDropsMiddle()
    ensures var ts := [Token(NUMBER, "1"), Token(OPERATOR, "-"), Token(NUMBER, "2"), Token(OPERATOR, "-"), Token(NUMBER, "3")];
      ParseExpression(ts, 0) == Ok(Parsed(BinOp(Number(1), Number(3), "-"), 5))
  {
    var ts := [Token(NUMBER, "1"), Token(OPERATOR, "-"), Token(NUMBER, "2"), Token(OPERATOR, "-"), Token(NUMBER, "3")];
    assert ParseInt("1") == Ok(1) && ParseInt("2") == Ok(2) && ParseInt("3") == Ok(3);
    FactorNumber(ts, 0, 1);
    FactorNumber(ts, 2, 2);
    FactorNumber(ts, 4, 3);
    TermStart(ts, 0, Parsed(Number(1), 1));
    TermStop(ts, 1, Number(1), None);
    TermStart(ts, 2, Parsed(Number(2), 3));
    TermStop(ts, 3, Number(2), None);
    TermStart(ts, 4, Parsed(Number(3), 5));
    TermStop(ts, 5, Number(3), None);
    ExpressionStart(ts, 0, Parsed(Number(1), 1));
    ExpressionStep(ts, 1, Number(1), None, Parsed(Number(2), 3));
    ExpressionStep(ts, 3, Number(1), Some(BinOp(Number(1), Number(2), "-")), Parsed(Number(3), 5));
    ExpressionStop(ts, 5, Number(1), Some(BinOp(Number(1), Number(3), "-")));
  }

  /** The dropped term changes the value: the parsed `1 - 3` is -2, where
      the left-to-right reading (1 - 2) - 3 is -4. */
  lemma {:induction false} DroppedTermChangesValue(env: Env, fuel: nat)
    requires fuel >= 3
    ensures Eval(BinOp(Number(1), Number(3), "-"), env, fuel).result == Ok(-2)
    ensures Eval(BinOp(BinOp(Number(1), Number(2), "-"), Number(3), "-"), env, fuel).result == Ok(-4)
  {
    assert Eval(Number(1), env, fuel - 1).result == Ok(1);
    assert Eval(Number(3), env, fuel - 1).result == Ok(3);
    assert Eval(Number(1), env, fuel - 2).result == Ok(1);
    assert Eval(Number(2), env, fuel - 2).result == Ok(2);
    assert Eval(BinOp(Number(1), Number(2), "-"), env, fuel - 1).result == Ok(-1);
  }

  /** `*` binds tighter than `+`: `1 + 2 * 3` is 1 + (2 * 3). */
  lemma {:induction false} ProductBindsTighter()
    ensures var ts := [Token(NUMBER, "1"), Token(OPERATOR, "+"), Token(NUMBER, "2"), Token(OPERATOR, "*"), Token(NUMBER, "3")];
      ParseExpression(ts, 0) == Ok(Parsed(BinOp(Number(1), BinOp(Number(2), Number(3), "*"), "+"), 5))
  {
    var ts := [Token(NUMBER, "1"), Token(OPERATOR, "+"), Token(NUMBER, "2"), Token(OPERATOR, "*"), Token(NUMBER, "3")];
    var product := BinOp(Number(2), Number(3), "*");
    assert ParseInt("1") == Ok(1) && ParseInt("2") == Ok(2) && ParseInt("3") == Ok(3);
    FactorNumber(ts, 0, 1);
    FactorNumber(ts, 2, 2);
    FactorNumber(ts, 4, 3);
    TermStart(ts, 0, Parsed(Number(1), 1));
    TermStop(ts, 1, Number(1), None);
    TermStart(ts, 2, Parsed(Number(2), 3));
    TermStep(ts, 3, Number(2), None, Parsed(Number(3), 5));
    TermStop(ts, 5, Number(2), Some(product));
    ExpressionStart(ts, 0, Parsed(Number(1), 1));
    ExpressionStep(ts, 1, Number(1), None, Parsed(product, 5));
    ExpressionStop(ts, 5, Number(1), Some(BinOp(Number(1), product, "+")));
  }

  // ---------------------------------------------------------------------
  // Statements
  // ---------------------------------------------------------------------

  /** The heading of a FOR is parsed as a statement without its ";" and
      must be an assignment: any other statement there throws. */
  lemma {:induction false} ForNeedsAssignment(ts: seq<Token>, pos: nat, begin: Parsed<Stmt>)
    requires pos <= |ts| && Current(ts, pos) == Token(IDENTIFIER, "FOR")
    requires ParseStatement(ts, pos + 1, true) == Ok(begin) && !begin.node.Assign?
    ensures ParseFor(ts, pos) == Err(IllegalArgument)
    ensures ParseStatement(ts, pos, false) == Err(IllegalArgument)
  {
  }
}
