/** What the scanner does with its input: end of input, white space, maximal
    runs, two-character operators, comments, illegal characters and line
    counting, including the consequences of reads that leave the current
    character unchanged. */
module LexerProperties {
  import opened Base
  import opened Tokens
  import opened Lexer

  /** Once eof is set nothing more is scanned, whatever input is left: every
      further call returns EOF and changes nothing. */
  lemma EofIsFinal(st: ScanState)
    requires st.eof
    ensures NextToken(st) == Ok((Token(EOF, ""), st))
    ensures Tokenize(st) == Ok([Token(EOF, "")])
  {
  }

  /** A '.' read between tokens ends the input. */
  lemma DotEndsInput(st: ScanState)
    requires !st.eof && IsWhiteSpace(st.current)
    requires st.pos < |st.input| && st.input[st.pos] == '.'
    ensures Tokenize(st) == Ok([Token(EOF, "")])
  {
    var s1 := GetNextChar(st);
    assert SkipWhiteSpace(st) == SkipWhiteSpace(s1) == s1;
    EofIsFinal(s1);
  }

  /** White space before a token does not change the token. */
  lemma WhiteSpaceSkipped(st: ScanState)
    requires !st.eof && IsWhiteSpace(st.current)
    ensures NextToken(st) == NextToken(GetNextChar(st))
  {
    assert SkipWhiteSpace(st) == SkipWhiteSpace(GetNextChar(st));
  }

  /** A run reads exactly the word in front of it: from a state whose
      current char starts w, with the rest of w and then a char c outside the
      class (and not a '.') still to read, the run returns w and leaves c as
      the current char. */
  lemma {:induction false} RunReadsWord(st: ScanState, kind: RunKind, w: string)
    requires |w| > 0 && forall i :: 0 <= i < |w| ==> InRun(kind, w[i])
    requires st.current == w[0]
    requires st.pos + |w| <= |st.input| && st.input[st.pos..st.pos + |w| - 1] == w[1..]
    requires !InRun(kind, st.input[st.pos + |w| - 1]) && st.input[st.pos + |w| - 1] != '.'
    ensures Run(st, kind).Ok? && Run(st, kind).value.0 == w
    ensures Run(st, kind).value.1.current == st.input[st.pos + |w| - 1]
    ensures Run(st, kind).value.1.pos == st.pos + |w| && Run(st, kind).value.1.eof == st.eof
    decreases |w|
  {
    var s1 := GetNextChar(st);
    if |w| == 1 {
      assert InRun(kind, st.current) && s1.current == st.input[st.pos];
    } else {
      assert st.input[st.pos] == st.input[st.pos..st.pos + |w| - 1][0] == w[1];
      assert InRun(kind, w[1]);
      assert s1.current == w[1] && s1.eof == st.eof;
      assert s1.input[s1.pos..s1.pos + |w[1..]| - 1] == st.input[st.pos..st.pos + |w| - 1][1..] == w[2..];
      RunReadsWord(s1, kind, w[1..]);
      assert [w[0]] + w[1..] == w;
    }
  }

  /** A word followed by a char that cannot continue it is one token:
      IDENTIFIER, or the OPERATOR "mod". */
  lemma ScansWord(st: ScanState, w: string)
    requires !st.eof && |w| > 0 && IsLetter(w[0]) && st.current == w[0]
    requires forall i :: 0 <= i < |w| ==> IsLetter(w[i]) || IsDigit(w[i])
    requires st.pos + |w| <= |st.input| && st.input[st.pos..st.pos + |w| - 1] == w[1..]
    requires !(IsLetter(st.input[st.pos + |w| - 1]) || IsDigit(st.input[st.pos + |w| - 1]))
    requires st.input[st.pos + |w| - 1] != '.'
    ensures NextToken(st).Ok?
    ensures NextToken(st).value.0 == if w == "mod" then Token(OPERATOR, "mod") else Token(IDENTIFIER, w)
    ensures NextToken(st).value.1.pos == st.pos + |w|
  {
    assert !IsWhiteSpace(st.current) && SkipWhiteSpace(st) == st;
    assert NextToken(st) == ScanIdentifier(st);
    RunReadsWord(st, LettersAndDigits, w);
  }

  /** A digit run followed by a char that is not a digit is one NUMBER token
      with exactly those digits. */
  lemma ScansNumber(st: ScanState, w: string)
    requires !st.eof && |w| > 0 && st.current == w[0]
    requires forall i :: 0 <= i < |w| ==> IsDigit(w[i])
    requires st.pos + |w| <= |st.input| && st.input[st.pos..st.pos + |w| - 1] == w[1..]
    requires !IsDigit(st.input[st.pos + |w| - 1]) && st.input[st.pos + |w| - 1] != '.'
    ensures NextToken(st).Ok? && NextToken(st).value.0 == Token(NUMBER, w)
    ensures NextToken(st).value.1.pos == st.pos + |w|
  {
    assert !IsWhiteSpace(st.current) && SkipWhiteSpace(st) == st;
    assert NextToken(st) == ScanNumber(st);
    RunReadsWord(st, Digits, w);
  }

  /** A '.' straight after a word or number is not the end of it: the read
      of the '.' leaves the last char current, so that char is taken twice
      and the run reads on past the '.'. */
  lemma RunRepeatsCharBeforeDot(st: ScanState, kind: RunKind)
    requires InRun(kind, st.current)
    requires st.pos + 1 < |st.input| && st.input[st.pos] == '.'
    requires !InRun(kind, st.input[st.pos + 1]) && st.input[st.pos + 1] != '.'
    ensures Run(st, kind).Ok? && Run(st, kind).value.0 == [st.current, st.current]
    ensures Run(st, kind).value.1.current == st.input[st.pos + 1] && Run(st, kind).value.1.eof
  {
    var s1 := GetNextChar(st);
    assert s1.current == st.current && s1.pos == st.pos + 1;
    var s2 := GetNextChar(s1);
    assert s2.current == st.input[st.pos + 1] && s2.eof;
    assert Run(s2, kind) == Ok(("", s2));
    assert [s1.current] + "" == [st.current];
    assert Run(s1, kind) == Ok(([st.current], s2));
  }

  /** When the '.' is the last char of the input the run never ends. */
  lemma RunDivergesAtFinalDot(st: ScanState, kind: RunKind)
    requires InRun(kind, st.current)
    requires st.pos + 1 == |st.input| && st.input[st.pos] == '.'
    ensures Run(st, kind) == Err(Diverges)
  {
    var s1 := GetNextChar(st);
    assert s1.current == st.current && s1.pos == |st.input|;
  }

  /** A program that ends with "END." followed by a newline is scanned as
      ending in the identifier ENDD. */
  lemma EndDotScansAsEndd(st: ScanState)
    requires !st.eof && st.current == 'E'
    requires st.pos <= |st.input| && st.input[st.pos..] == "ND.\n"
    ensures NextToken(st).Ok? && NextToken(st).value.0 == Token(IDENTIFIER, "ENDD")
  {
    var s1 := GetNextChar(st);
    assert st.input[st.pos] == 'N' && st.input[st.pos + 1] == 'D';
    assert st.input[st.pos + 2] == '.' && st.input[st.pos + 3] == '\n';
    var s2 := GetNextChar(s1);
    assert s1.current == 'N' && s2.current == 'D';
    RunRepeatsCharBeforeDot(s2, LettersAndDigits);
    var last := Run(s2, LettersAndDigits).value.1;
    assert Run(s2, LettersAndDigits) == Ok(("DD", last));
    assert s1.pos < |s1.input| && GetNextChar(s1) == s2;
    assert ['N'] + "DD" == "NDD" && ['E'] + "NDD" == "ENDD";
    assert Run(s1, LettersAndDigits) == Ok(("NDD", last));
    assert Run(st, LettersAndDigits) == Ok(("ENDD", last));
    assert SkipWhiteSpace(st) == st;
  }

  /** An operator char is followed by '=' or, for '<', by '>' exactly when
      the scanner joins the two into one token. */
  lemma TwoCharOperators(st: ScanState)
    requires !st.eof && IsOperator(st.current) && st.current != '/'
    requires st.pos < |st.input| && st.input[st.pos] != '.'
    ensures ScanOperator(st).Ok?
    ensures var t := ScanOperator(st).value.0; var c, d := st.current, st.input[st.pos];
      t.kind == OPERATOR
      && (t.value == [c, d] <==> IsExtendableOperator(c) && (d == '=' || (c == '<' && d == '>')))
      && (t.value == [c] <==> !(IsExtendableOperator(c) && (d == '=' || (c == '<' && d == '>'))))
  {
  }

  /** A '/' that does not start a comment is returned as "/", and the char
      after it is eaten with it: that char is never scanned. */
  lemma SlashSwallowsNextChar(st: ScanState)
    requires !st.eof && st.current == '/'
    requires st.pos < |st.input|
    requires st.input[st.pos] != '/' && st.input[st.pos] != '*' && st.input[st.pos] != '.'
    ensures ScanOperator(st) == Ok((Token(OPERATOR, "/"), GetNextChar(GetNextChar(st))))
  {
    var s1 := GetNextChar(st);
    assert s1.current == st.input[st.pos] && !s1.eof;
    assert EatComment(st) == Ok((false, s1));
    SlashOperator(st, s1);
  }

  /** A '/' that EatComment finds is not a comment is returned as "/". */
  lemma SlashOperator(st: ScanState, s1: ScanState)
    requires !st.eof && st.current == '/' && EatComment(st) == Ok((false, s1))
    ensures ScanOperator(st) == Ok((Token(OPERATOR, "/"), GetNextChar(s1)))
  {
    assert !IsExtendableOperator('/');
    assert Extend('/', GetNextChar(s1)) == (Token(OPERATOR, "/"), GetNextChar(s1));
  }

  /** After a comment the scanner goes on with the next token. */
  lemma CommentThenToken(st: ScanState, s: ScanState)
    requires !st.eof && st.current == '/' && EatComment(st) == Ok((true, s))
    ensures ScanOperator(st) == NextToken(s)
  {
  }

  /** At a '/' that is not white space, nextToken goes straight to scanOperator. */
  lemma NextTokenAtSlash(s: ScanState)
    requires !s.eof && s.current == '/'
    ensures NextToken(s) == ScanOperator(s)
  {
    assert SkipWhiteSpace(s) == s;
  }

  /** A '/' followed by '*' eats a block comment. */
  lemma BlockCommentEaten(st: ScanState, s: ScanState)
    requires !st.eof && st.current == '/'
    requires GetNextChar(st).current == '*' && BlockComment(GetNextChar(st), 1) == Ok(s)
    ensures EatComment(st) == Ok((true, s))
  {
  }

  /** A block comment closed by its first "*" "/" pair leaves the '/' as the
      current char after the comment. */
  lemma ClosedCommentLeavesSlash(st: ScanState)
    requires !st.eof && st.pos + 2 <= |st.input| && st.input[st.pos..st.pos + 2] == "*/"
    ensures BlockComment(st, 1) == Ok(GetNextChar(GetNextChar(st)))
    ensures GetNextChar(GetNextChar(st)).current == '/'
  {
    assert st.input[st.pos] == '*' && st.input[st.pos + 1] == '/';
    var s1 := GetNextChar(st);
    var s2 := GetNextChar(s1);
    assert s1.current == '*' && s2.current == '/';
  }

  /** Inside a block comment an opening "/" "*" raises the depth by one, so
      the next closing pair only returns to the depth before it. */
  lemma OpenRaisesDepth(st: ScanState, n: int)
    requires n > 0 && !st.eof && st.pos + 2 <= |st.input| && st.input[st.pos..st.pos + 2] == "/*"
    ensures BlockComment(st, n) == BlockComment(GetNextChar(GetNextChar(st)), n + 1)
  {
    assert st.input[st.pos] == '/' && st.input[st.pos + 1] == '*';
  }

  /** A closing "*" "/" lowers the depth by one. */
  lemma CloseLowersDepth(st: ScanState, n: int)
    requires n > 0 && !st.eof && st.pos + 2 <= |st.input| && st.input[st.pos..st.pos + 2] == "*/"
    ensures BlockComment(st, n) == BlockComment(GetNextChar(GetNextChar(st)), n - 1)
  {
    assert st.input[st.pos] == '*' && st.input[st.pos + 1] == '/';
  }

  /** Any other char inside a comment, save the '.' that ends the input, is
      read past with the depth unchanged. */
  lemma OtherCharKeepsDepth(st: ScanState, n: int)
    requires n > 0 && !st.eof && st.pos < |st.input|
    requires st.input[st.pos] != '*' && st.input[st.pos] != '/' && st.input[st.pos] != '.'
    ensures BlockComment(st, n) == BlockComment(GetNextChar(st), n)
  {
  }

  /** An inner "/" "*" " " "*" "/" inside a comment returns to the depth it
      started at. */
  lemma InnerCommentCloses(st: ScanState, n: int) returns (s: ScanState)
    requires n > 0 && !st.eof && st.pos + 5 <= |st.input| && st.input[st.pos..st.pos + 5] == "/* */"
    ensures BlockComment(st, n) == BlockComment(s, n)
    ensures s.input == st.input && !s.eof && s.pos == st.pos + 5
  {
    var w := st.input[st.pos..st.pos + 5];
    assert st.input[st.pos..st.pos + 2] == w[..2];
    OpenRaisesDepth(st, n);
    var s2 := GetNextChar(GetNextChar(st));
    assert s2.pos == st.pos + 2 && !s2.eof;
    assert s2.input[s2.pos..s2.pos + 3] == w[2..];
    s := SpacedCloseLowers(s2, n + 1);
  }

  /** " " "*" "/" inside a comment lowers the depth by one, with the '/'
      current after it. */
  lemma SpacedCloseLowers(st: ScanState, n: int) returns (s: ScanState)
    requires n > 0 && !st.eof && st.pos + 3 <= |st.input| && st.input[st.pos..st.pos + 3] == " */"
    ensures BlockComment(st, n) == BlockComment(s, n - 1)
    ensures s.input == st.input && !s.eof && s.current == '/' && s.pos == st.pos + 3
  {
    var w := st.input[st.pos..st.pos + 3];
    assert st.input[st.pos] == w[0];
    OtherCharKeepsDepth(st, n);
    var s1 := GetNextChar(st);
    assert s1.input[s1.pos..s1.pos + 2] == w[1..];
    CloseLowersDepth(s1, n);
    assert s1.input[s1.pos + 1] == '/';
    s := GetNextChar(GetNextChar(s1));
  }

  /** " " "*" "/" ends a comment at depth 1 with its '/' current. */
  lemma CommentTailCloses(st: ScanState) returns (s: ScanState)
    requires !st.eof && st.pos + 3 <= |st.input| && st.input[st.pos..st.pos + 3] == " */"
    ensures BlockComment(st, 1) == Ok(s)
    ensures s.input == st.input && !s.eof && s.current == '/' && s.pos == st.pos + 3
  {
    s := SpacedCloseLowers(st, 1);
  }

  /** "/* /* */ */" is one comment: the inner "*" "/" closes only the inner
      comment, and the comment ends at the outer one, leaving its '/'
      current. */
  lemma NestedCommentEatenWhole(st: ScanState) returns (s: ScanState)
    requires !st.eof && st.current == '/'
    requires st.pos + 10 <= |st.input| && st.input[st.pos..st.pos + 10] == "* /* */ */"
    ensures EatComment(st) == Ok((true, s))
    ensures s.input == st.input && !s.eof && s.current == '/' && s.pos == st.pos + 10
  {
    var w := st.input[st.pos..st.pos + 10];
    assert st.input[st.pos] == w[0];
    var s1 := GetNextChar(st);
    assert s1.current == '*' && s1.input[s1.pos..s1.pos + 9] == w[1..];
    s := NestedBodyCloses(s1);
    BlockCommentEaten(st, s);
  }

  /** The rest of that comment, after its opening "/" "*". */
  lemma NestedBodyCloses(st: ScanState) returns (s: ScanState)
    requires !st.eof && st.pos + 9 <= |st.input| && st.input[st.pos..st.pos + 9] == " /* */ */"
    ensures BlockComment(st, 1) == Ok(s)
    ensures s.input == st.input && !s.eof && s.current == '/' && s.pos == st.pos + 9
  {
    var w := st.input[st.pos..st.pos + 9];
    assert st.input[st.pos] == w[0];
    OtherCharKeepsDepth(st, 1);
    var s1 := GetNextChar(st);
    assert s1.input[s1.pos..s1.pos + 5] == w[1..6];
    var s6 := InnerCommentCloses(s1, 1);
    assert s6.input[s6.pos..s6.pos + 3] == w[6..];
    s := CommentTailCloses(s6);
  }

  /** A comment with no '*' left to read can never close, whatever '/' it
      holds ("/" "* a / b" included), and throws. The opening '*' may still
      be current unless a '.' follows it, after which the loop's second read
      would look past the end of the input. */
  lemma {:induction false} UnstarredCommentThrows(st: ScanState, nested: int)
    requires nested > 0
    requires forall i :: st.pos <= i < |st.input| ==> st.input[i] != '*'
    requires st.current != '*' || st.pos >= |st.input| || st.input[st.pos] != '.'
    ensures BlockComment(st, nested) == Err(ScanError)
    decreases Measure(st)
  {
    if !st.eof {
      var s1 := GetNextChar(st);
      if s1.current == '*' {
        assert st.pos >= |st.input|;
        var s2 := GetNextChar(s1);
        assert s2.current == '*' && s2.eof;
      } else if s1.current == '/' {
        var s2 := GetNextChar(s1);
        UnstarredCommentThrows(s2, nested);
      } else {
        UnstarredCommentThrows(s1, nested);
      }
    }
  }

  /** So the empty comment "/" "**" "/" followed by a char d that is neither
      '/' nor '*' is scanned as the operator "/", and d is lost with it. */
  lemma EmptyCommentScansAsSlash(st: ScanState, d: char)
    requires !st.eof && st.current == '/'
    requires st.pos + 4 <= |st.input| && st.input[st.pos..st.pos + 4] == "**/" + [d]
    requires d != '/' && d != '*' && d != '.'
    ensures ScanOperator(st).Ok? && ScanOperator(st).value.0 == Token(OPERATOR, "/")
    ensures ScanOperator(st).value.1.pos == st.pos + 5 || ScanOperator(st).value.1.eof
  {
    var s3 := EmptyCommentEaten(st, d);
    SlashSwallowsNextChar(s3);
    var s4 := GetNextChar(s3);
    assert s4.pos == st.pos + 4 && !s4.eof;
    var s5 := GetNextChar(s4);
    assert ScanOperator(st) == Ok((Token(OPERATOR, "/"), s5));
    assert s5.pos == st.pos + 5 || s5.eof;
  }

  /** The empty comment is eaten, and scanning goes on at the '/' that
      closed it. */
  lemma EmptyCommentEaten(st: ScanState, d: char) returns (s3: ScanState)
    requires !st.eof && st.current == '/'
    requires st.pos + 4 <= |st.input| && st.input[st.pos..st.pos + 4] == "**/" + [d]
    ensures ScanOperator(st) == ScanOperator(s3)
    ensures s3.input == st.input && !s3.eof && s3.current == '/' && s3.pos == st.pos + 3
    ensures s3.input[s3.pos] == d
  {
    var w := st.input[st.pos..st.pos + 4];
    assert w[0] == '*' && w[1] == '*' && w[2] == '/' && w[3] == d;
    assert st.input[st.pos] == w[0] && st.input[st.pos + 1] == w[1];
    assert st.input[st.pos + 2] == w[2] && st.input[st.pos + 3] == w[3];
    var s1 := GetNextChar(st);
    assert s1.current == '*' && !s1.eof;
    assert s1.input[s1.pos..s1.pos + 2] == "*/";
    ClosedCommentLeavesSlash(s1);
    s3 := GetNextChar(GetNextChar(s1));
    BlockCommentEaten(st, s3);
    CommentThenToken(st, s3);
    NextTokenAtSlash(s3);
  }

  /** "**" "/" does not close a comment: the second '*' is eaten as the next
      char of the loop, and the '/' after it is taken for the start of a
      nested comment. */
  lemma DoubleStarDoesNotClose(st: ScanState)
    requires !st.eof && st.pos <= |st.input| && st.input[st.pos..] == "**/"
    ensures BlockComment(st, 1) == Err(ScanError)
  {
    assert st.input[st.pos] == '*' && st.input[st.pos + 1] == '*' && st.input[st.pos + 2] == '/';
    var s1 := GetNextChar(st);
    var s2 := GetNextChar(s1);
    assert s1.current == '*' && s2.current == '*' && !s2.eof;
    var s3 := GetNextChar(s2);
    var s4 := GetNextChar(s3);
    assert s3.current == '/' && s4.current == '/' && s4.eof;
    assert BlockComment(s4, 1) == Err(ScanError);
    assert BlockComment(s2, 1) == BlockComment(s4, 1);
  }

  /** A comment is unclosed, and throws, when no '/' is left in the input. */
  lemma {:induction false} UnclosedCommentThrows(st: ScanState, nested: int)
    requires nested > 0 && st.current != '/'
    requires forall i :: st.pos <= i < |st.input| ==> st.input[i] != '/'
    ensures BlockComment(st, nested) == Err(ScanError)
    decreases Measure(st)
  {
    if !st.eof {
      var s1 := GetNextChar(st);
      assert s1.current != '/';
      if s1.current == '*' {
        var s2 := GetNextChar(s1);
        assert s2.current != '/';
        UnclosedCommentThrows(s2, nested);
      } else {
        UnclosedCommentThrows(s1, nested);
      }
    }
  }

  /** A char that is no letter, digit, operator or white space is an error. */
  lemma IllegalCharacterThrows(st: ScanState)
    requires !st.eof
    requires var c := st.current; !IsWhiteSpace(c) && !IsLetter(c) && !IsDigit(c) && !IsOperator(c)
    ensures NextToken(st) == Err(ScanError)
  {
  }

  /** The number of newlines in s[lo..hi]. */
  function Newlines(s: seq<char>, lo: nat, hi: nat): nat
    requires lo <= hi <= |s|
    decreases hi - lo
  {
    if hi == lo then 0 else Newlines(s, lo, hi - 1) + if s[hi - 1] == '\n' then 1 else 0
  }

  /** k calls of getNextChar. */
  function Reads(st: ScanState, k: nat): ScanState {
    if k == 0 then st else GetNextChar(Reads(st, k - 1))
  }

  /** lineno counts the newlines read; a read at the end of input is no
      newline. */
  lemma {:induction false} LinesCounted(st: ScanState, k: nat)
    requires st.pos + k <= |st.input|
    ensures Reads(st, k).pos == st.pos + k && Reads(st, k).input == st.input
    ensures Reads(st, k).lineno == st.lineno + Newlines(st.input, st.pos, st.pos + k)
  {
    if k > 0 {
      LinesCounted(st, k - 1);
      var prev := Reads(st, k - 1);
      var c := st.input[st.pos + k - 1];
      assert prev.pos < |prev.input| && prev.input[prev.pos] == c;
      assert Reads(st, k).lineno == prev.lineno + if c == '\n' then 1 else 0;
    }
  }

  /** Reads without a newline stay on the line and move the column on by
      one each. */
  lemma {:induction false} ColumnsCounted(st: ScanState, k: nat)
    requires st.pos + k <= |st.input|
    requires forall i :: st.pos <= i < st.pos + k ==> st.input[i] != '\n'
    ensures Reads(st, k).colno == st.colno + k && Reads(st, k).lineno == st.lineno
  {
    if k > 0 {
      ColumnsCounted(st, k - 1);
      LinesCounted(st, k - 1);
    }
  }

  /** A scanner built from a String reads the same first character as one
      built from a stream, one line and one column lower down (the column
      agrees when the first character is a newline, which resets it). */
  lemma StringScannerCountsFromZero(input: seq<char>)
    ensures InitString(input).(lineno := Init(input).lineno, colno := Init(input).colno) == Init(input)
    ensures InitString(input).lineno == Init(input).lineno - 1
    ensures InitString(input).colno == if |input| > 0 && input[0] == '\n' then Init(input).colno else Init(input).colno - 1
  {
  }
}
