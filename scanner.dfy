/** The scanner as functions of its state.

    The Java Scanner reads characters one at a time from a reader into
    `currentChar`; here the reader is the whole input as a sequence with a
    read position, so a state is the input, the position of the next char to
    read, and the Scanner's fields currentChar, eof, lineno and colno. */
module Lexer {
  import opened Base
  import opened Tokens

  datatype ScanState = ScanState(input: seq<char>, pos: nat, current: char, eof: bool, lineno: int, colno: int)

  /** Scanner.isWhiteSpace. */
  predicate IsWhiteSpace(c: char) {
    c == ' ' || c == '\n' || c == '\t' || c == '\r'
  }

  /** Scanner.isLetter: the chars whose lower case is one of "a".."z". Besides
      the ASCII letters of either case that is the KELVIN SIGN U+212A, which
      lower-cases to 'k' (the root-locale case mapping). */
  predicate IsLetter(c: char) {
    ('a' <= c <= 'z') || ('A' <= c <= 'Z') || c == '\U{212A}'
  }

  /** Scanner.isDigit. */
  predicate IsDigit(c: char) {
    '0' <= c <= '9'
  }

  /** Scanner.isOperator. */
  predicate IsOperator(c: char) {
    c in ":<>=;,+-*/%()"
  }

  /** Scanner.isExtendableOperator: the characters that may be followed by
      '=' to form a two-character operator. */
  predicate IsExtendableOperator(c: char) {
    c in "=+-*%<>:!"
  }

  /** The characters still to be read. */
  function Remaining(st: ScanState): nat {
    if st.pos < |st.input| then |st.input| - st.pos else 0
  }

  /** What is left to do: the characters to read, and one more read before
      eof is set. Every read of a state not at eof makes it smaller. */
  function Measure(st: ScanState): nat {
    Remaining(st) + if st.eof then 0 else 1
  }

  /** Scanner.getNextChar. Past the end of the input the read returns -1;
      that, and a '.', set eof and leave currentChar as it was. A newline
      moves to the next line and column 1; any other read, including one at
      the end, moves one column on. */
  function GetNextChar(st: ScanState): (r: ScanState)
    ensures r.input == st.input
    ensures Measure(r) <= Measure(st)
    ensures !st.eof || st.pos < |st.input| ==> Measure(r) < Measure(st)
    ensures st.pos < |st.input| ==> r.pos == st.pos + 1 && Remaining(r) < Remaining(st)
    ensures r.eof <==> st.eof || st.pos >= |st.input| || st.input[st.pos] == '.'
    ensures r.current == if st.pos < |st.input| && st.input[st.pos] != '.' then st.input[st.pos] else st.current
  {
    if st.pos >= |st.input| then st.(eof := true, colno := st.colno + 1)
    else
      var c := st.input[st.pos];
      var read := if c == '.' then st.(pos := st.pos + 1, eof := true) else st.(pos := st.pos + 1, current := c);
      if c == '\n' then read.(lineno := st.lineno + 1, colno := 1) else read.(colno := st.colno + 1)
  }

  /** The Scanner(InputStream) constructor: line 1, column 1, and the first
      character read. currentChar starts as Java's default char. */
  function Init(input: seq<char>): ScanState {
    GetNextChar(ScanState(input, 0, '\0', false, 1, 1))
  }

  /** The Scanner(String) constructor: the first character read, with
      lineno and colno never set, so they count on from Java's default 0. */
  function InitString(input: seq<char>): ScanState {
    GetNextChar(ScanState(input, 0, '\0', false, 0, 0))
  }

  /** Scanner.eat: reads on when the current character is the expected one
      and throws otherwise. */
  function Eat(st: ScanState, expected: char): (r: Result<ScanState>)
    ensures r.Ok? <==> st.current == expected
    ensures r.Ok? ==> r.value == GetNextChar(st)
    ensures r.Err? ==> r.error == ScanError
  {
    if st.current == expected then Ok(GetNextChar(st)) else Err(ScanError)
  }

  /** The loop at the start of Scanner.nextToken. */
  function SkipWhiteSpace(st: ScanState): (r: ScanState)
    decreases Measure(st)
    ensures r.input == st.input
    ensures r.eof || !IsWhiteSpace(r.current)
    ensures Measure(r) <= Measure(st)
  {
    if !st.eof && IsWhiteSpace(st.current) then SkipWhiteSpace(GetNextChar(st)) else st
  }

  /** The two character loops: scanNumber reads digits, scanIdentifier
      letters and digits. */
  datatype RunKind = Digits | LettersAndDigits

  predicate InRun(kind: RunKind, c: char) {
    match kind
    case Digits => IsDigit(c)
    case LettersAndDigits => IsLetter(c) || IsDigit(c)
  }

  /** The loop of scanNumber and scanIdentifier: append the current char and
      eat it while it is in the class. The loop does not look at eof: once
      the input is used up a read leaves the current char as it is, so a run
      that reaches the end of the input never stops (Diverges); a '.' inside
      the loop likewise leaves the char unchanged, so it is appended again. */
  function Run(st: ScanState, kind: RunKind): (r: Result<(string, ScanState)>)
    decreases Remaining(st)
    ensures r.Ok? ==> r.value.1.input == st.input && !InRun(kind, r.value.1.current)
    ensures r.Ok? ==> forall i :: 0 <= i < |r.value.0| ==> InRun(kind, r.value.0[i])
    ensures r.Ok? ==> (|r.value.0| > 0 <==> InRun(kind, st.current))
    ensures r.Ok? && |r.value.0| > 0 ==> r.value.0[0] == st.current && Measure(r.value.1) < Measure(st)
    ensures r.Ok? ==> Measure(r.value.1) <= Measure(st) && (st.eof ==> r.value.1.eof)
    ensures r.Err? ==> r.error == Diverges
  {
    if !InRun(kind, st.current) then Ok(("", st))
    else if st.pos >= |st.input| then Err(Diverges)
    else
      var rest :- Run(GetNextChar(st), kind);
      Ok(([st.current] + rest.0, rest.1))
  }

  /** Scanner.scanNumber. */
  function ScanNumber(st: ScanState): (r: Result<(Token, ScanState)>) {
    var run :- Run(st, Digits);
    Ok((Token(NUMBER, run.0), run.1))
  }

  /** Scanner.scanIdentifier: a letter and then letters and digits; the word
      "mod" is the modulus operator. */
  function ScanIdentifier(st: ScanState): (r: Result<(Token, ScanState)>) {
    if !IsLetter(st.current) then Err(ScanError)
    else
      var run :- Run(st, LettersAndDigits);
      if run.0 == "mod" then Ok((Token(OPERATOR, "mod"), run.1))
      else Ok((Token(IDENTIFIER, run.0), run.1))
  }

  /** The line-comment loop of Scanner.eatComment: eat up to the newline or
      the end of input. The chars read are input[st.pos..r.pos]; none but the
      last is a newline (or a '.', which ends the input), and the last is the
      newline the loop stops at unless the input ended first. */
  function LineComment(st: ScanState): (r: ScanState)
    decreases Measure(st)
    ensures r.input == st.input
    ensures Measure(r) <= Measure(st)
    ensures r.eof || r.current == '\n'
    ensures st.eof || st.current == '\n' ==> r == st
    ensures st.pos <= r.pos && (r.pos == st.pos || r.pos <= |st.input|)
    ensures forall i :: st.pos <= i < r.pos - 1 ==> st.input[i] != '\n' && st.input[i] != '.'
    ensures !r.eof && r.pos > st.pos ==> st.input[r.pos - 1] == '\n'
  {
    if st.current != '\n' && !st.eof then LineComment(GetNextChar(st)) else st
  }

  /** Scanner.eatBlockComment from its loop on, with `nested` comments still
      open: "*" then "/" closes one, "/" then "*" opens one. The end of input
      with a comment still open throws. */
  function BlockComment(st: ScanState, nested: int): (r: Result<ScanState>)
    decreases Measure(st)
    ensures r.Ok? ==> r.value.input == st.input && Measure(r.value) <= Measure(st)
    ensures r.Err? ==> r.error == ScanError
  {
    if nested > 0 && !st.eof then
      var s1 := GetNextChar(st);
      if s1.current == '*' then
        var s2 := GetNextChar(s1);
        BlockComment(s2, if s2.current == '/' then nested - 1 else nested)
      else if s1.current == '/' then
        var s2 := GetNextChar(s1);
        BlockComment(s2, if s2.current == '*' then nested + 1 else nested)
      else BlockComment(s1, nested)
    else if nested > 0 then Err(ScanError)
    else Ok(st)
  }

  /** Scanner.eatComment: (true, state) when a comment was eaten, (false,
      state) when the '/' is not the start of a comment; in that case the
      '/' has been eaten and the following char is current. */
  function EatComment(st: ScanState): (r: Result<(bool, ScanState)>)
    ensures r.Ok? ==> r.value.1.input == st.input && Measure(r.value.1) <= Measure(st)
    ensures r.Ok? && r.value.0 ==> Measure(r.value.1) < Measure(st)
    ensures r.Err? ==> r.error == ScanError
  {
    if !st.eof && st.current == '/' then
      var s1 := GetNextChar(st);
      if s1.current == '/' then Ok((true, LineComment(s1)))
      else if s1.current == '*' then
        var s2 :- BlockComment(s1, 1);
        Ok((true, s2))
      else Ok((false, s1))
    else Ok((false, st))
  }

  /** The end of Scanner.scanOperator: an extendable operator followed by
      '=', or '<' followed by '>', takes the second char too. */
  function Extend(op: char, st: ScanState): (r: (Token, ScanState))
    ensures r.0.kind == OPERATOR && |r.0.value| > 0 && r.0.value[0] == op
    ensures r.1.input == st.input && Measure(r.1) <= Measure(st)
  {
    if IsExtendableOperator(op) && !st.eof && (st.current == '=' || (op == '<' && st.current == '>')) then
      (Token(OPERATOR, [op, st.current]), GetNextChar(st))
    else (Token(OPERATOR, [op]), st)
  }

  /** The tokens the scanner can return: EOF with no text, a NUMBER of
      digits, an IDENTIFIER word other than "mod", or an OPERATOR of one or
      two characters or "mod". */
  predicate ScannedToken(t: Token) {
    match t.kind
    case EOF => t.value == ""
    case NUMBER => |t.value| > 0 && forall i :: 0 <= i < |t.value| ==> IsDigit(t.value[i])
    case IDENTIFIER =>
      |t.value| > 0 && IsLetter(t.value[0]) && t.value != "mod"
      && forall i :: 0 <= i < |t.value| ==> IsLetter(t.value[i]) || IsDigit(t.value[i])
    case OPERATOR =>
      t.value == "mod"
      || (|t.value| == 1 && IsOperator(t.value[0]))
      || (|t.value| == 2 && IsOperator(t.value[0]) && IsExtendableOperator(t.value[0])
          && (t.value[1] == '=' || t.value == "<>"))
    case UMKNOWN => false
  }

  /** Scanner.nextToken: skip white space; at eof an EOF token; otherwise an
      identifier, a number or an operator by the class of the current char,
      and a ScanErrorException for any other char. */
  function NextToken(st: ScanState): (r: Result<(Token, ScanState)>)
    decreases Measure(st), 2
    ensures r.Ok? ==> ScannedToken(r.value.0) && r.value.1.input == st.input
    ensures r.Ok? ==> Measure(r.value.1) <= Measure(st)
    ensures r.Ok? && r.value.0.kind != EOF ==> Measure(r.value.1) < Measure(st)
    ensures r.Ok? && r.value.0.kind == EOF ==> r.value.1.eof
  {
    ScanFrom(SkipWhiteSpace(st))
  }

  /** The rest of nextToken, from the first char that is not white space. */
  function ScanFrom(s1: ScanState): (r: Result<(Token, ScanState)>)
    requires s1.eof || !IsWhiteSpace(s1.current)
    decreases Measure(s1), 1
    ensures r.Ok? ==> ScannedToken(r.value.0) && r.value.1.input == s1.input
    ensures r.Ok? ==> Measure(r.value.1) <= Measure(s1)
    ensures r.Ok? && r.value.0.kind != EOF ==> Measure(r.value.1) < Measure(s1)
    ensures r.Ok? && r.value.0.kind == EOF ==> r.value.1.eof
  {
    if s1.eof then Ok((Token(EOF, ""), s1))
    else if IsLetter(s1.current) then ScanIdentifier(s1)
    else if IsDigit(s1.current) then ScanNumber(s1)
    else if IsOperator(s1.current) then ScanOperator(s1)
    else Err(ScanError)
  }

  /** Scanner.scanOperator. A '/' may start a comment, after which the next
      token is scanned. Otherwise the operator char is taken and then the
      current char is eaten: for a '/' that is the char after it, which is
      lost. */
  function ScanOperator(st: ScanState): (r: Result<(Token, ScanState)>)
    decreases Measure(st), 0
    ensures r.Ok? ==> ScannedToken(r.value.0) && r.value.1.input == st.input
    ensures r.Ok? ==> Measure(r.value.1) <= Measure(st)
    ensures r.Ok? && r.value.0.kind != EOF && !st.eof ==> Measure(r.value.1) < Measure(st)
    ensures r.Ok? && r.value.0.kind == EOF ==> r.value.1.eof
  {
    if !IsOperator(st.current) then Err(ScanError)
    else if st.current == '/' then
      var c :- EatComment(st);
      if c.0 then NextToken(c.1)
      else Ok(Extend('/', GetNextChar(c.1)))
    else Ok(Extend(st.current, GetNextChar(st)))
  }

  /** The tokens of the input from a state on, up to and including the first
      EOF token: what the parser receives from its calls to nextToken. */
  function Tokenize(st: ScanState): (r: Result<seq<Token>>)
    decreases Measure(st)
    ensures r.Ok? ==> |r.value| > 0 && r.value[|r.value| - 1] == Token(EOF, "")
    ensures r.Ok? ==> forall i :: 0 <= i < |r.value| ==> ScannedToken(r.value[i])
    ensures r.Ok? ==> forall i :: 0 <= i < |r.value| - 1 ==> r.value[i].kind != EOF
  {
    var t :- NextToken(st);
    if t.0.kind == EOF then Ok([t.0])
    else
      var rest :- Tokenize(t.1);
      Ok([t.0] + rest)
  }
}

/** The Scanner class: its fields updated in place, each method proved to
    leave the state (and return the token) that the Lexer functions give. */
module ScannerObject {
  import opened Base
  import opened Tokens
  import opened Lexer

  /** A returned value (or the exception thrown) together with the state the
      scanner is left in. */
  function Outcome<T>(r: Result<T>, st: ScanState): Result<(T, ScanState)> {
    if r.Ok? then Ok((r.value, st)) else Err(r.error)
  }

  /** The result of a method that returns nothing: the new state, or the
      exception thrown. */
  function Status(thrown: Option<Error>, st: ScanState): Result<ScanState> {
    if thrown.Some? then Err(thrown.value) else Ok(st)
  }

  /** A run's text with a prefix put in front of it. */
  function Prefixed(p: string, r: Result<(string, ScanState)>): Result<(string, ScanState)> {
    if r.Ok? then Ok((p + r.value.0, r.value.1)) else r
  }

  lemma PrefixedEmpty(r: Result<(string, ScanState)>)
    ensures Prefixed("", r) == r
  {
    if r.Ok? {
      assert "" + r.value.0 == r.value.0;
    }
  }

  lemma PrefixedAppend(p: string, q: string, r: Result<(string, ScanState)>)
    ensures Prefixed(p, Prefixed(q, r)) == Prefixed(p + q, r)
  {
    if r.Ok? {
      assert p + (q + r.value.0) == (p + q) + r.value.0;
    }
  }

  class Scanner {
    /** The characters the reader delivers, and how many have been read. */
    const input: seq<char>
    var pos: nat
    var currentChar: char
    var eof: bool
    var lineno: int
    var colno: int

    function View(): ScanState
      reads this
    {
      ScanState(input, pos, currentChar, eof, lineno, colno)
    }

    /** Scanner(InputStream). */
    constructor(text: seq<char>)
      ensures View() == Init(text)
    {
      input := text;
      pos := 0;
      currentChar := '\0';
      eof := false;
      lineno := 1;
      colno := 1;
      new;
      GetNextChar();
    }

    /** Scanner(String). */
    constructor FromString(text: seq<char>)
      ensures View() == InitString(text)
    {
      input := text;
      pos := 0;
      currentChar := '\0';
      eof := false;
      lineno := 0;
      colno := 0;
      new;
      GetNextChar();
    }

    /** Scanner.getNextChar. */
    method GetNextChar()
      modifies this
      ensures View() == Lexer.GetNextChar(old(View()))
    {
      var atEnd := pos >= |input|;  // the read returns -1
      var inp := if atEnd then '\0' else input[pos];
      if !atEnd {
        pos := pos + 1;
      }
      if atEnd || inp == '.' {
        eof := true;
      } else {
        currentChar := inp;
      }
      if !atEnd && inp == '\n' {
        lineno := lineno + 1;
        colno := 1;
      } else {
        colno := colno + 1;
      }
    }

    /** Scanner.eat. */
    method Eat(expected: char) returns (thrown: Option<Error>)
      modifies this
      ensures Status(thrown, View()) == Lexer.Eat(old(View()), expected)
    {
      thrown := None;
      if currentChar == expected {
        GetNextChar();
      } else {
        thrown := Some(ScanError);
      }
    }

    /** Scanner.hasNext. */
    function HasNext(): bool
      reads this
    {
      !eof
    }

    /** The loop of scanNumber and scanIdentifier. */
    method ReadRun(kind: RunKind) returns (r: Result<string>)
      modifies this
      ensures Outcome(r, View()) == Run(old(View()), kind)
    {
      var current := currentChar;
      var text := "";
      PrefixedEmpty(Run(View(), kind));
      while InRun(kind, current)
        invariant current == currentChar
        invariant Run(old(View()), kind) == Prefixed(text, Run(View(), kind))
        decreases Remaining(View())
      {
        if pos >= |input| {
          // the Java loop goes on for ever from here
          return Err(Diverges);
        }
        ghost var before := View();
        var _ := Eat(current);
        PrefixedAppend(text, [current], Run(View(), kind));
        assert Run(before, kind) == Prefixed([current], Run(View(), kind));
        text := text + [current];
        current := currentChar;
      }
      assert text + "" == text;
      return Ok(text);
    }

    /** Scanner.scanNumber. */
    method ScanNumber() returns (r: Result<Token>)
      modifies this
      ensures Outcome(r, View()) == Lexer.ScanNumber(old(View()))
    {
      var digits := ReadRun(Digits);
      if digits.Err? {
        return Err(digits.error);
      }
      return Ok(Token(NUMBER, digits.value));
    }

    /** Scanner.scanIdentifier. */
    method ScanIdentifier() returns (r: Result<Token>)
      modifies this
      ensures Outcome(r, View()) == Lexer.ScanIdentifier(old(View()))
    {
      if !IsLetter(currentChar) {
        return Err(ScanError);
      }
      var identifier := ReadRun(LettersAndDigits);
      if identifier.Err? {
        return Err(identifier.error);
      }
      if identifier.value == "mod" {
        return Ok(Token(OPERATOR, "mod"));
      }
      return Ok(Token(IDENTIFIER, identifier.value));
    }

    /** Scanner.eatComment. */
    method EatComment() returns (r: Result<bool>)
      modifies this
      ensures Outcome(r, View()) == Lexer.EatComment(old(View()))
    {
      if HasNext() && currentChar == '/' {
        var _ := Eat(currentChar);
        if currentChar == '/' {
          while currentChar != '\n' && HasNext()
            invariant LineComment(View()) == LineComment(old(Lexer.GetNextChar(View())))
            decreases Measure(View())
          {
            var _ := Eat(currentChar);
          }
          return Ok(true);
        } else if currentChar == '*' {
          var thrown := EatBlockComment();
          if thrown.Some? {
            return Err(thrown.value);
          }
          return Ok(true);
        }
        return Ok(false);
      }
      return Ok(false);
    }

    /** Scanner.eatBlockComment. */
    method EatBlockComment() returns (thrown: Option<Error>)
      modifies this
      ensures Status(thrown, View()) == BlockComment(old(View()), 1)
    {
      var nestedCount := 1;
      while nestedCount > 0 && HasNext()
        invariant BlockComment(View(), nestedCount) == BlockComment(old(View()), 1)
        decreases Measure(View())
      {
        var _ := Eat(currentChar);
        if currentChar == '*' {
          var _ := Eat(currentChar);
          if currentChar == '/' {
            nestedCount := nestedCount - 1;
          }
        } else if currentChar == '/' {
          var _ := Eat(currentChar);
          if currentChar == '*' {
            nestedCount := nestedCount + 1;
          }
        }
      }
      thrown := None;
      if nestedCount > 0 {
        thrown := Some(ScanError);
      }
    }

    /** Scanner.scanOperator. */
    method ScanOperator() returns (r: Result<Token>)
      modifies this
      decreases Measure(View()), 0
      ensures Outcome(r, View()) == Lexer.ScanOperator(old(View()))
    {
      if !IsOperator(currentChar) {
        return Err(ScanError);
      }
      var token := "";
      if currentChar == '/' {
        var comment := EatComment();
        if comment.Err? {
          return Err(comment.error);
        }
        if comment.value {
          r := NextToken();
          return;
        }
        token := "/";
      } else {
        token := [currentChar];
      }
      var _ := Eat(currentChar);
      ghost var op, read := token[0], View();
      assert token == [op];
      if IsExtendableOperator(token[0]) && HasNext() {
        if currentChar == '=' || (token[0] == '<' && currentChar == '>') {
          token := token + [currentChar];
          var _ := Eat(currentChar);
          assert token == [op, read.current] && View() == Lexer.GetNextChar(read);
        }
      }
      assert (Token(OPERATOR, token), View()) == Extend(op, read);
      return Ok(Token(OPERATOR, token));
    }

    /** Scanner.nextToken. */
    method NextToken() returns (r: Result<Token>)
      modifies this
      decreases Measure(View()), 1
      ensures Outcome(r, View()) == Lexer.NextToken(old(View()))
    {
      while HasNext() && IsWhiteSpace(currentChar)
        invariant SkipWhiteSpace(View()) == SkipWhiteSpace(old(View()))
        decreases Measure(View())
      {
        var _ := Eat(currentChar);
      }
      if eof {
        r := Ok(Token(EOF, ""));
      } else if IsLetter(currentChar) {
        r := ScanIdentifier();
      } else if IsDigit(currentChar) {
        r := ScanNumber();
      } else if IsOperator(currentChar) {
        r := ScanOperator();
      } else {
        r := Err(ScanError);
      }
    }
  }
}
