/** Worked turns of the main loop on short inputs, for a cursor on any line
    n: the token each call of nextToken returns, the diagnostics it adds and
    where it leaves the cursor. They show the lookahead reading two
    characters ahead, the number, string, comment and newline rules, and the
    keyword table's exact spellings. */
module Examples {
  import opened Tokens
  import opened Keywords
  import opened LexSpec

  /** `x = 10`, turn by turn: first the identifier, ... */
  lemma AssignmentFirstTurn(n: int)
    ensures NextStep("x = 10", Cursor(0, n, 1)) == Step(Some(Token(IDENTIFIER, "x", n, 1)), [], Cursor(1, n, 2))
  {
    var s := "x = 10";
    KeywordKindSpec("x");
    assert !IsKeyword("x");
    assert IdentEnd(s, 0) == 1 && s[0..1] == "x";
  }

  /** ... then the assignment after a blank, and the integer. */
  lemma AssignmentLaterTurns(n: int)
    ensures NextStep("x = 10", Cursor(1, n, 2)) == Step(Some(Token(ASSIGN, "=", n, 3)), [], Cursor(3, n, 4))
    ensures NextStep("x = 10", Cursor(3, n, 4)) == Step(Some(Token(INTEGER, "10", n, 5)), [], Cursor(6, n, 7))
  {
    var s := "x = 10";
    assert SkipBlanks(s, Cursor(1, n, 2)) == Cursor(2, n, 3);
    assert SkipBlanks(s, Cursor(3, n, 4)) == Cursor(4, n, 5);
    assert NumberEnd(s, 4, false) == 6 && s[4..6] == "10";
  }

  /** The last two turns: the main loop reaches the end of the input. */
  lemma AssignmentTail(n: int)
    ensures Lex("x = 10", Cursor(1, n, 2)) ==
      LexOut([Token(ASSIGN, "=", n, 3), Token(INTEGER, "10", n, 5)], [], Cursor(6, n, 7))
  {
    var s := "x = 10";
    AssignmentLaterTurns(n);
    assert Lex(s, Cursor(6, n, 7)) == LexOut([], [], Cursor(6, n, 7));
    assert Lex(s, Cursor(3, n, 4)) == LexOut([Token(INTEGER, "10", n, 5)], [], Cursor(6, n, 7));
  }

  /** The main loop strings the three turns together. */
  lemma AssignmentLex(n: int)
    ensures Lex("x = 10", Cursor(0, n, 1)) ==
      LexOut([Token(IDENTIFIER, "x", n, 1), Token(ASSIGN, "=", n, 3), Token(INTEGER, "10", n, 5)], [], Cursor(6, n, 7))
  {
    AssignmentFirstTurn(n);
    AssignmentTail(n);
  }

  /** `x = 10` is an identifier, an assignment and an integer, each at the
      column where it starts, then EOF one column past the end; nothing is
      reported. */
  lemma AssignmentExample(n: int)
    ensures Lex("x = 10", Cursor(0, n, 1)).diags == []
    ensures TokenStream("x = 10", Cursor(0, n, 1)) ==
      [Token(IDENTIFIER, "x", n, 1), Token(ASSIGN, "=", n, 3), Token(INTEGER, "10", n, 5), Token(EOF, "", n, 7)]
  {
    AssignmentLex(n);
  }

  /** `x += 1`: the '+' looks at the blank after the '=', so it is a plus
      and the '=' an assignment, not one compound assignment. */
  lemma PlusAssignTurns(n: int)
    ensures NextStep("x += 1", Cursor(1, n, 2)) == Step(Some(Token(PLUS, "+", n, 3)), [], Cursor(3, n, 4))
    ensures NextStep("x += 1", Cursor(3, n, 4)) == Step(Some(Token(ASSIGN, "=", n, 4)), [], Cursor(4, n, 5))
  {
    var s := "x += 1";
    assert SkipBlanks(s, Cursor(1, n, 2)) == Cursor(2, n, 3);
    assert PeekAt(s, 3) == ' ' && PeekAt(s, 4) == '1';
  }

  /** `x==1`: each '=' looks past its neighbour, so the equality test is two
      assignments. */
  lemma AdjacentEqualTurns(n: int)
    ensures NextStep("x==1", Cursor(1, n, 2)) == Step(Some(Token(ASSIGN, "=", n, 2)), [], Cursor(2, n, 3))
    ensures NextStep("x==1", Cursor(2, n, 3)) == Step(Some(Token(ASSIGN, "=", n, 3)), [], Cursor(3, n, 4))
  {
    var s := "x==1";
    assert PeekAt(s, 2) == '1' && PeekAt(s, 3) == NUL;
  }

  /** `= =`: the first '=' finds a '=' two places on, so it makes an
      equality token spelled "==" and moves over the blank; the second '='
      is then read again as an assignment. */
  lemma SpacedEqualTurns(n: int)
    ensures NextStep("= =", Cursor(0, n, 1)) == Step(Some(Token(EQUAL, "==", n, 1)), [], Cursor(2, n, 3))
    ensures NextStep("= =", Cursor(2, n, 3)) == Step(Some(Token(ASSIGN, "=", n, 3)), [], Cursor(3, n, 4))
  {
    var s := "= =";
    assert PeekAt(s, 1) == '=' && PeekAt(s, 3) == NUL;
  }

  /** `3.14.5`: a number takes one dot only; the second dot is a DOT token
      and the digits after it a new integer. */
  lemma NumberTurns(n: int)
    ensures NextStep("3.14.5", Cursor(0, n, 1)) == Step(Some(Token(FLOAT, "3.14", n, 1)), [], Cursor(4, n, 5))
    ensures NextStep("3.14.5", Cursor(4, n, 5)) == Step(Some(Token(DOT, ".", n, 5)), [], Cursor(5, n, 6))
    ensures NextStep("3.14.5", Cursor(5, n, 6)) == Step(Some(Token(INTEGER, "5", n, 6)), [], Cursor(6, n, 7))
  {
    var s := "3.14.5";
    assert NumberEnd(s, 0, false) == 4 && s[0..4] == "3.14";
    assert PeekAt(s, 5) == NUL;
    assert NumberEnd(s, 5, false) == 6 && s[5..6] == "5";
  }

  /** `3.` is a FLOAT: the dot is taken even with no digit after it. */
  lemma TrailingDotTurn(n: int)
    ensures NextStep("3.", Cursor(0, n, 1)) == Step(Some(Token(FLOAT, "3.", n, 1)), [], Cursor(2, n, 3))
  {
    assert NumberEnd("3.", 0, false) == 2 && "3."[0..2] == "3.";
  }

  /** A string without its closing quote runs to the end of the input, is
      still a STRING token, and adds an Unterminated diagnostic at the
      opening quote. */
  lemma UnterminatedTurn(n: int)
    ensures NextStep("\"hello", Cursor(0, n, 1)) ==
      Step(Some(Token(STRING, "hello", n, 1)), [Unterminated(n, 1)], Cursor(6, n, 7))
  {
    var s := "\"hello";
    assert StringBody(s, 1, '"', "") == Body("hello", 6);
  }

  /** `'a\'b'`: the backslash is dropped and the quote after it kept; the
      token's column counts every character of the literal. */
  lemma EscapedQuoteTurn(n: int)
    ensures NextStep("'a\\'b'", Cursor(0, n, 1)) == Step(Some(Token(STRING, "a'b", n, 1)), [], Cursor(6, n, 7))
  {
    var s := "'a\\'b'";
    assert StringBody(s, 1, '\'', "") == Body("a'b", 5);
  }

  /** `@` is an ERROR token, which the main loop reports as an invalid
      character. */
  lemma InvalidCharTurn(n: int)
    ensures NextStep("@", Cursor(0, n, 1)) == Step(Some(Token(ERROR, "@", n, 1)), [], Cursor(1, n, 2))
    ensures Reported(NextStep("@", Cursor(0, n, 1)).tok) == [InvalidChar(n, 1, "@")]
  {
  }

  /** A '!' not followed two places on by '=' is an ERROR token as well. */
  lemma LoneBangTurn(n: int)
    ensures NextStep("!x", Cursor(0, n, 1)) == Step(Some(Token(ERROR, "!", n, 1)), [], Cursor(1, n, 2))
  {
  }

  /** A backslash that is the last character of an unclosed string is kept
      as it is. */
  lemma LoneBackslashTurn(n: int)
    ensures NextStep("'a\\", Cursor(0, n, 1)) ==
      Step(Some(Token(STRING, "a\\", n, 1)), [Unterminated(n, 1)], Cursor(3, n, 4))
  {
    assert StringBody("'a\\", 1, '\'', "") == Body("a\\", 3);
  }

  /** `+\n=`: the '+' finds '=' two places on, so the compound assignment
      swallows the newline; the line does not move and the column counts the
      newline as one character. */
  lemma SwallowedNewlineTurn(n: int)
    ensures NextStep("+\n=", Cursor(0, n, 1)) == Step(Some(Token(PLUS_ASSIGN, "+=", n, 1)), [], Cursor(2, n, 3))
  {
    assert PeekAt("+\n=", 1) == '=';
  }

  /** `+x=`: the '+' finds '=' two places on, so it makes a compound
      assignment spelled "+=" that consumes the '+' and the 'x'; the '=' is
      then read again as an assignment. The texts "+=" and "=" do not spell
      the input back. */
  lemma SwallowedLetterTurns(n: int)
    ensures NextStep("+x=", Cursor(0, n, 1)) == Step(Some(Token(PLUS_ASSIGN, "+=", n, 1)), [], Cursor(2, n, 3))
    ensures NextStep("+x=", Cursor(2, n, 3)) == Step(Some(Token(ASSIGN, "=", n, 3)), [], Cursor(3, n, 4))
    ensures "+=" + "=" != "+x="
  {
    var s := "+x=";
    assert PeekAt(s, 1) == '=' && PeekAt(s, 3) == NUL;
    assert s[1] == 'x';
  }

  /** `a\nb`: the newline is a token of its own, and the next token starts at
      column 1 of the next line. */
  lemma NewlineTurns(n: int)
    ensures NextStep("a\nb", Cursor(1, n, 2)) == Step(Some(Token(NEWLINE, "\\n", n, 2)), [], Cursor(2, n + 1, 1))
    ensures NextStep("a\nb", Cursor(2, n + 1, 1)) == Step(Some(Token(IDENTIFIER, "b", n + 1, 1)), [], Cursor(3, n + 1, 2))
  {
    var s := "a\nb";
    KeywordKindSpec("b");
    assert !IsKeyword("b");
    assert IdentEnd(s, 2) == 3 && s[2..3] == "b";
  }

  /** A comment runs up to the newline and is dropped from the output; the
      newline after it is still a token. */
  lemma CommentTurn(n: int)
    ensures NextStep("# note\nx", Cursor(0, n, 1)) == Step(Some(Token(COMMENT, "# note", n, 1)), [], Cursor(6, n, 7))
    ensures Emitted(NextStep("# note\nx", Cursor(0, n, 1)).tok) == []
  {
    var s := "# note\nx";
    assert CommentEnd(s, 0) == 6 && s[0..6] == "# note";
  }

  /** Trailing blanks: the turn skips them and returns no token. */
  lemma TrailingBlanksTurn(n: int)
    ensures NextStep("x \t", Cursor(1, n, 2)) == Step(None, [], Cursor(3, n, 4))
  {
    assert SkipBlanks("x \t", Cursor(1, n, 2)) == Cursor(3, n, 4);
  }

  /** The boolean literals and the two custom-name keywords have the kinds
      their puts name. */
  lemma ReservedSpellings()
    ensures KeywordKind("True") == BOOLEAN && KeywordKind("False") == BOOLEAN
    ensures KeywordKind("BENOUADFEL") == CUSTOM_NAME && KeywordKind("Yacine") == CUSTOM_FIRSTNAME
  {
    KeywordKindOfPut(19);
    KeywordKindOfPut(20);
    KeywordKindOfPut(21);
    KeywordKindOfPut(22);
  }

  /** The table is case-sensitive: `true` is no keyword. */
  lemma CaseSensitiveSpelling()
    ensures KeywordKind("true") == IDENTIFIER
  {
    KeywordKindSpec("true");
  }

  /** The table matches whole words: `switcher` is no keyword although it
      starts with one. */
  lemma WholeWordSpelling()
    ensures KeywordKind("switch") == SWITCH && KeywordKind("switcher") == IDENTIFIER
  {
    KeywordKindOfPut(0);
    KeywordKindSpec("switcher");
  }

  /** A whole identifier-shaped run is looked up: `True` is a boolean, and
      `switcher` is one identifier, not the keyword `switch` followed by
      letters. */
  lemma KeywordTurns(n: int)
    ensures NextStep("True", Cursor(0, n, 1)) == Step(Some(Token(BOOLEAN, "True", n, 1)), [], Cursor(4, n, 5))
    ensures NextStep("switcher", Cursor(0, n, 1)) == Step(Some(Token(IDENTIFIER, "switcher", n, 1)), [], Cursor(8, n, 9))
  {
    ReservedSpellings();
    WholeWordSpelling();
    assert IdentEnd("True", 0) == 4 && "True"[0..4] == "True";
    assert IdentEnd("switcher", 0) == 8 && "switcher"[0..8] == "switcher";
  }
}
