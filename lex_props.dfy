/** What the lexer promises, proved about the reference functions of
    LexSpec (and so, through the methods' postconditions, about the class
    Lexer): the shape of every token it emits, the single EOF token, the
    pairing of ERROR tokens with diagnostics, line bookkeeping, maximal
    munch, the string escape round trip and the two-character lookahead. */
module LexProps {
  import opened Tokens
  import opened Chars
  import opened Keywords
  import opened LexSpec

  // ---------------------------------------------------------------------
  // Token shapes

  predicate IdentShaped(t: string) {
    |t| > 0 && IsIdentStart(t[0]) && forall i :: 0 <= i < |t| ==> IsIdentChar(t[i])
  }

  /** Digits with at most one dot, starting with a digit. */
  predicate NumberShaped(t: string) {
    && |t| > 0 && IsDigit(t[0])
    && (forall i :: 0 <= i < |t| ==> IsDigit(t[i]) || t[i] == '.')
    && (forall i, j :: 0 <= i < j < |t| ==> t[i] != '.' || t[j] != '.')
  }

  /** The one-character symbols. */
  predicate IsSymbol(ch: char) {
    || ch == '+' || ch == '-' || ch == '*' || ch == '/' || ch == '%' || ch == '='
    || ch == '<' || ch == '>' || ch == '(' || ch == ')' || ch == '{' || ch == '}'
    || ch == '[' || ch == ']' || ch == ',' || ch == ':' || ch == ';' || ch == '.'
  }

  /** A character that begins some token other than ERROR or is skipped. */
  predicate StartsOtherToken(ch: char) {
    IsSymbol(ch) || ch == '#' || ch == '"' || ch == '\'' || ch == '\n'
    || IsIdentStart(ch) || IsDigit(ch) || IsBlank(ch)
  }

  /** The fixed text of the operator, delimiter and marker kinds. */
  function Spelling(k: TokenType): Option<string> {
    match k
    case PLUS => Some("+")
    case MINUS => Some("-")
    case MULTIPLY => Some("*")
    case DIVIDE => Some("/")
    case MODULO => Some("%")
    case ASSIGN => Some("=")
    case PLUS_ASSIGN => Some("+=")
    case MINUS_ASSIGN => Some("-=")
    case INCREMENT => Some("++")
    case DECREMENT => Some("--")
    case EQUAL => Some("==")
    case NOT_EQUAL => Some("!=")
    case LESS => Some("<")
    case LESS_EQUAL => Some("<=")
    case GREATER => Some(">")
    case GREATER_EQUAL => Some(">=")
    case LPAREN => Some("(")
    case RPAREN => Some(")")
    case LBRACE => Some("{")
    case RBRACE => Some("}")
    case LBRACKET => Some("[")
    case RBRACKET => Some("]")
    case COMMA => Some(",")
    case COLON => Some(":")
    case SEMICOLON => Some(";")
    case DOT => Some(".")
    case NEWLINE => Some("\\n")
    case EOF => Some("")
    case _ => None
  }

  /** What the text of a token of each kind looks like. */
  predicate WellFormed(t: Token) {
    if t.kind == IDENTIFIER then IdentShaped(t.text) && !IsKeyword(t.text)
    else if t.kind == INTEGER then NumberShaped(t.text) && '.' !in t.text
    else if t.kind == FLOAT then NumberShaped(t.text) && '.' in t.text
    else if t.kind == STRING then true
    else if t.kind == COMMENT then |t.text| > 0 && t.text[0] == '#' && '\n' !in t.text
    else if t.kind == ERROR then |t.text| == 1 && (t.text[0] == '!' || !StartsOtherToken(t.text[0]))
    else if Spelling(t.kind).Some? then Spelling(t.kind) == Some(t.text)
    else IdentShaped(t.text) && exists i :: 0 <= i < |KeywordPuts| && KeywordPuts[i] == (t.text, t.kind)
  }

  // ---------------------------------------------------------------------
  // Maximal runs

  /** The blanks skipped before a token are exactly the maximal run of space,
      tab and carriage return. */
  lemma {:induction false} SkipBlanksIsMaximal(s: string, c: Cursor)
    requires c.pos <= |s|
    ensures forall i :: c.pos <= i < SkipBlanks(s, c).pos ==> IsBlank(s[i])
    ensures SkipBlanks(s, c).pos == |s| || !IsBlank(s[SkipBlanks(s, c).pos])
    decreases |s| - c.pos
  {
    if c.pos < |s| && IsBlank(s[c.pos]) {
      SkipBlanksIsMaximal(s, Advance(c, 1));
    }
  }

  /** Maximal munch for identifiers. */
  lemma {:induction false} IdentEndIsMaximal(s: string, p: nat)
    requires p <= |s|
    ensures forall i :: p <= i < IdentEnd(s, p) ==> IsIdentChar(s[i])
    ensures IdentEnd(s, p) == |s| || !IsIdentChar(s[IdentEnd(s, p)])
    decreases |s| - p
  {
    if p < |s| && IsIdentChar(s[p]) {
      IdentEndIsMaximal(s, p + 1);
    }
  }

  /** A comment stops at the first newline, or at the end of the input. */
  lemma {:induction false} CommentEndIsFirstNewline(s: string, p: nat)
    requires p <= |s|
    ensures forall i :: p <= i < CommentEnd(s, p) ==> s[i] != '\n'
    ensures CommentEnd(s, p) == |s| || s[CommentEnd(s, p)] == '\n'
    decreases |s| - p
  {
    if p < |s| && s[p] != '\n' {
      CommentEndIsFirstNewline(s, p + 1);
    }
  }

  /** A number's run holds digits and at most one dot (none if one was taken
      before p), and stops at a non-digit that is not a dot it could take. */
  lemma {:induction false} NumberEndIsMaximal(s: string, p: nat, dotSeen: bool)
    requires p <= |s|
    ensures var e := NumberEnd(s, p, dotSeen);
      && (forall i :: p <= i < e ==> IsDigit(s[i]) || s[i] == '.')
      && (forall i, j :: p <= i < j < e ==> s[i] != '.' || s[j] != '.')
      && (dotSeen ==> forall i :: p <= i < e ==> s[i] != '.')
      && (e < |s| ==> !IsDigit(s[e]))
      && (e < |s| && s[e] == '.' ==> dotSeen || exists i :: p <= i < e && s[i] == '.')
    decreases |s| - p
  {
    if p < |s| && IsDigit(s[p]) {
      NumberEndIsMaximal(s, p + 1, dotSeen);
    } else if p < |s| && s[p] == '.' && !dotSeen {
      NumberEndIsMaximal(s, p + 1, true);
    }
  }

  /** The body of a string literal ends at its closing quote or at the end of
      the input, and the decoded text extends what was gathered before,
      one character per escape or plain character. */
  lemma {:induction false} StringBodyEnds(s: string, p: nat, quote: char, acc: string)
    requires p <= |s|
    ensures var b := StringBody(s, p, quote, acc);
      && (b.end == |s| || s[b.end] == quote)
      && |acc| <= |b.text| <= |acc| + (b.end - p)
      && b.text[..|acc|] == acc
    decreases |s| - p
  {
    if p == |s| || s[p] == quote {
    } else if s[p] == '\\' && p + 1 < |s| {
      StringBodyEnds(s, p + 2, quote, acc + [s[p + 1]]);
      var b := StringBody(s, p + 2, quote, acc + [s[p + 1]]);
      assert b.text[..|acc|] == (b.text[..|acc| + 1])[..|acc|];
    } else {
      StringBodyEnds(s, p + 1, quote, acc + [s[p]]);
      var b := StringBody(s, p + 1, quote, acc + [s[p]]);
      assert b.text[..|acc|] == (b.text[..|acc| + 1])[..|acc|];
    }
  }

  // ---------------------------------------------------------------------
  // The scanners

  lemma CommentScanFacts(s: string, c: Cursor)
    requires c.pos < |s| && s[c.pos] == '#'
    ensures var r := CommentScan(s, c);
      var t := r.tok;
      && t.kind == COMMENT && t.line == c.line && t.column == c.col && r.diags == []
      && t.text == s[c.pos..r.next.pos] && t.text[0] == '#' && '\n' !in t.text
      && (r.next.pos == |s| || s[r.next.pos] == '\n')
      && r.next == Advance(c, |t.text|)
  {
    CommentEndIsFirstNewline(s, c.pos);
    var r := CommentScan(s, c);
    assert forall i :: 0 <= i < |r.tok.text| ==> r.tok.text[i] == s[c.pos + i];
  }

  /** An identifier is the longest run of identifier characters at the
      cursor, classified by the keyword table. */
  lemma IdentifierScanFacts(s: string, c: Cursor)
    requires c.pos < |s| && IsIdentStart(s[c.pos])
    ensures var r := IdentifierScan(s, c);
      var t := r.tok;
      && t.text == s[c.pos..r.next.pos] && IdentShaped(t.text)
      && (r.next.pos == |s| || !IsIdentChar(s[r.next.pos]))
      && t.kind == KeywordKind(t.text) && (t.kind == IDENTIFIER || IsReservedKind(t.kind))
      && t.line == c.line && t.column == c.col && r.diags == []
      && r.next == Advance(c, |t.text|)
  {
    IdentEndIsMaximal(s, c.pos);
    var r := IdentifierScan(s, c);
    KeywordKindSpec(r.tok.text);
    assert forall i :: 0 <= i < |r.tok.text| ==> r.tok.text[i] == s[c.pos + i];
  }

  /** A number is digits with at most one dot, FLOAT exactly when it holds
      the dot, and it stops before a second dot. */
  lemma NumberScanFacts(s: string, c: Cursor)
    requires c.pos < |s| && IsDigit(s[c.pos])
    ensures var r := NumberScan(s, c);
      var t := r.tok;
      && t.text == s[c.pos..r.next.pos] && NumberShaped(t.text)
      && (t.kind == FLOAT <==> '.' in t.text)
      && (t.kind == INTEGER <==> '.' !in t.text)
      && (r.next.pos < |s| ==> !IsDigit(s[r.next.pos]))
      && (r.next.pos < |s| && s[r.next.pos] == '.' ==> '.' in t.text)
      && t.line == c.line && t.column == c.col && r.diags == []
      && r.next == Advance(c, |t.text|)
  {
    NumberEndIsMaximal(s, c.pos, false);
    var r := NumberScan(s, c);
    var text := r.tok.text;
    assert forall i :: 0 <= i < |text| ==> text[i] == s[c.pos + i];
    var e := r.next.pos;
    if e < |s| && s[e] == '.' {
      var i :| c.pos <= i < e && s[i] == '.';
      assert text[i - c.pos] == '.';
    }
  }

  /** A string token is always a STRING; an Unterminated diagnostic at the
      opening quote is added exactly when the input ends before a closing
      quote, and the cursor is then at the end of the input. */
  lemma StringScanFacts(s: string, c: Cursor)
    requires c.pos < |s| && (s[c.pos] == '"' || s[c.pos] == '\'')
    ensures var r := StringScan(s, c);
      var t := r.tok;
      && t.kind == STRING && t.line == c.line && t.column == c.col
      && c.pos < r.next.pos && r.next == Advance(c, r.next.pos - c.pos)
      && |t.text| < r.next.pos - c.pos
      && (r.diags == [] ==> c.pos + 2 <= r.next.pos && s[r.next.pos - 1] == s[c.pos])
      && (r.diags != [] ==> r.diags == [Unterminated(c.line, c.col)] && r.next.pos == |s|)
      && (r.diags != [] <==> OpenString(s, c))
  {
    StringBodyEnds(s, c.pos + 1, s[c.pos], "");
  }

  /** A literal opened at w is left open: its body runs to the end of the
      input without meeting the closing quote. */
  predicate OpenString(s: string, w: Cursor)
    requires w.pos < |s|
  {
    && (s[w.pos] == '"' || s[w.pos] == '\'')
    && StringBody(s, w.pos + 1, s[w.pos], "").end == |s|
  }

  /** When the opening quote character does not occur again, the literal is
      reported as unterminated. */
  lemma UnclosedStringReported(s: string, c: Cursor)
    requires c.pos < |s| && (s[c.pos] == '"' || s[c.pos] == '\'')
    requires forall i :: c.pos < i < |s| ==> s[i] != s[c.pos]
    ensures OpenString(s, c)
    ensures StringScan(s, c).diags == [Unterminated(c.line, c.col)]
  {
    StringBodyEnds(s, c.pos + 1, s[c.pos], "");
  }

  /** An escaping the string scanner undoes: a backslash before the quote
      character, before a backslash, and before every character of extra
      (any character may be escaped, since the scanner drops the backslash
      and keeps the character after it, whatever it is). */
  function EscapeChar(c: char, quote: char, extra: set<char>): (e: string)
    ensures 1 <= |e| <= 2 && e[|e| - 1] == c
    ensures |e| == 1 ==> c != quote && c != '\\'
  {
    if c == quote || c == '\\' || c in extra then ['\\', c] else [c]
  }

  function Escape(t: string, quote: char, extra: set<char>): (e: string)
    ensures |t| <= |e| <= 2 * |t|
  {
    if t == [] then [] else EscapeChar(t[0], quote, extra) + Escape(t[1..], quote, extra)
  }

  /** One escaped character of the body decodes to that character. */
  lemma StringBodyStep(s: string, p: nat, quote: char, extra: set<char>, acc: string, c: char)
    requires quote == '"' || quote == '\''
    requires p + |EscapeChar(c, quote, extra)| <= |s|
    requires s[p] == EscapeChar(c, quote, extra)[0]
    requires |EscapeChar(c, quote, extra)| == 2 ==> s[p + 1] == c
    ensures StringBody(s, p, quote, acc) == StringBody(s, p + |EscapeChar(c, quote, extra)|, quote, acc + [c])
  {
  }

  lemma AppendHead(acc: string, t: string)
    requires t != []
    ensures acc + [t[0]] + t[1..] == acc + t
  {
    assert t == [t[0]] + t[1..];
    AppendAssoc(acc, [t[0]], t[1..]);
  }

  /** Decoding the escape of c at the front of an input that spells it
      followed by rest: the body takes c and goes on where rest starts. */
  lemma EscapeHead(s: string, p: nat, quote: char, extra: set<char>, acc: string, c: char, rest: string)
    requires quote == '"' || quote == '\''
    requires p + |EscapeChar(c, quote, extra) + rest| <= |s|
    requires forall i :: 0 <= i < |EscapeChar(c, quote, extra) + rest| ==> s[p + i] == (EscapeChar(c, quote, extra) + rest)[i]
    ensures var q := p + |EscapeChar(c, quote, extra)|;
      && (forall i :: 0 <= i < |rest| ==> s[q + i] == rest[i])
      && StringBody(s, p, quote, acc) == StringBody(s, q, quote, acc + [c])
  {
    var e0 := EscapeChar(c, quote, extra);
    var q := p + |e0|;
    forall i | 0 <= i < |rest|
      ensures s[q + i] == rest[i]
    {
      assert s[p + (|e0| + i)] == (e0 + rest)[|e0| + i];
    }
    assert s[p + 0] == (e0 + rest)[0];
    if |e0| == 2 {
      assert s[p + 1] == (e0 + rest)[1];
    }
    StringBodyStep(s, p, quote, extra, acc, c);
  }

  /** The body decodes an escaped text back to the text, and goes on right
      after it. */
  lemma {:induction false} StringBodyOfEscape(s: string, p: nat, quote: char, extra: set<char>, acc: string, t: string)
    requires quote == '"' || quote == '\''
    requires p + |Escape(t, quote, extra)| <= |s|
    requires forall i :: 0 <= i < |Escape(t, quote, extra)| ==> s[p + i] == Escape(t, quote, extra)[i]
    ensures StringBody(s, p, quote, acc) == StringBody(s, p + |Escape(t, quote, extra)|, quote, acc + t)
    decreases |t|
  {
    if t == [] {
      assert acc + t == acc;
    } else {
      var e0, rest := EscapeChar(t[0], quote, extra), Escape(t[1..], quote, extra);
      assert Escape(t, quote, extra) == e0 + rest;
      EscapeHead(s, p, quote, extra, acc, t[0], rest);
      StringBodyOfEscape(s, p + |e0|, quote, extra, acc + [t[0]], t[1..]);
      AppendHead(acc, t);
    }
  }

  /** Round trip: a quoted, escaped text scans back to that text, the closing
      quote is consumed and nothing is reported. */
  lemma StringRoundTrip(t: string, quote: char, extra: set<char>, rest: string, line: int, col: int)
    requires quote == '"' || quote == '\''
    ensures var s := [quote] + Escape(t, quote, extra) + [quote] + rest;
      var c := Cursor(0, line, col);
      StringScan(s, c) == Scan(Token(STRING, t, line, col), [], Advance(c, |Escape(t, quote, extra)| + 2))
  {
    var e := Escape(t, quote, extra);
    var s := [quote] + e + [quote] + rest;
    assert forall i :: 0 <= i < |e| ==> s[1 + i] == e[i];
    assert s[1 + |e|] == quote;
    StringBodyOfEscape(s, 1, quote, extra, "", t);
    assert "" + t == t;
  }

  /** An unclosed literal whose last character is a lone backslash: the
      backslash is kept, the whole input is consumed, and the literal is
      reported as unterminated. */
  lemma LoneBackslashRoundTrip(t: string, quote: char, extra: set<char>, line: int, col: int)
    requires quote == '"' || quote == '\''
    ensures var s := [quote] + Escape(t, quote, extra) + ['\\'];
      var c := Cursor(0, line, col);
      StringScan(s, c) == Scan(Token(STRING, t + ['\\'], line, col), [Unterminated(line, col)], Advance(c, |s|))
  {
    var e := Escape(t, quote, extra);
    var s := [quote] + e + ['\\'];
    assert forall i :: 0 <= i < |e| ==> s[1 + i] == e[i];
    assert s[1 + |e|] == '\\';
    StringBodyOfEscape(s, 1, quote, extra, "", t);
    assert "" + t == t;
  }

  /** The lookahead reads the character two places after the operator's
      start: a two-character operator is recognised exactly when that
      character completes it, and the scanner then moves over the operator
      and the character right after it, whatever that is. */
  lemma OperatorScanFacts(s: string, c: Cursor, startLine: int, startCol: int)
    requires c.pos < |s|
    ensures var r := OperatorScan(s, c, startLine, startCol);
      var t := r.tok;
      var ch := s[c.pos];
      && t.line == startLine && t.column == startCol && r.diags == []
      && (ch == '\n' ==> t.kind == NEWLINE && t.text == "\\n" && r.next == Cursor(c.pos + 1, c.line + 1, 1))
      && (ch != '\n' ==>
            && t.kind != NEWLINE && r.next == Advance(c, |t.text|)
            && (if c.pos + 2 < |s| && TwoCharKind(ch, s[c.pos + 2]).Some?
                then t.kind == TwoCharKind(ch, s[c.pos + 2]).value && t.text == [ch, s[c.pos + 2]]
                else t.kind == OneCharKind(ch) && t.text == [ch]))
      && t.kind != EOF && t.kind != COMMENT && t.kind != STRING && t.kind != IDENTIFIER
  {
    assert TwoCharKind(s[c.pos], NUL).None?;
  }

  /** Every two-character kind is spelled by its two characters. */
  lemma TwoCharSpelling(first: char, la: char)
    requires TwoCharKind(first, la).Some?
    ensures Spelling(TwoCharKind(first, la).value) == Some([first, la])
    ensures first in "+-=!<>" && la in "=+-"
  {
  }

  /** The one-character symbols map one-to-one to their kinds: spelling the
      kind gives the symbol back. Every other character is an ERROR. */
  lemma OneCharSpelling(ch: char)
    ensures IsSymbol(ch) ==> Spelling(OneCharKind(ch)) == Some([ch])
    ensures !IsSymbol(ch) <==> OneCharKind(ch) == ERROR
  {
  }

  /** The kinds of the two-character operators. */
  predicate IsTwoCharOp(k: TokenType) {
    k in {PLUS_ASSIGN, INCREMENT, MINUS_ASSIGN, DECREMENT, EQUAL, NOT_EQUAL, LESS_EQUAL, GREATER_EQUAL}
  }

  /** The two tables keep the two kinds of operator apart. */
  lemma OperatorKindsApart(first: char, la: char)
    ensures !IsTwoCharOp(OneCharKind(first))
    ensures TwoCharKind(first, la).Some? ==> IsTwoCharOp(TwoCharKind(first, la).value)
  {
  }

  /** An operator's text is the consumed slice unless it is a two-character
      operator whose two later characters differ. */
  lemma OperatorTextSlice(s: string, c: Cursor)
    requires c.pos < |s| && s[c.pos] != '\n'
    ensures var r := OperatorScan(s, c, c.line, c.col);
      r.tok.text == s[c.pos..r.next.pos] <==>
        !(IsTwoCharOp(r.tok.kind) && c.pos + 2 < |s| && s[c.pos + 1] != s[c.pos + 2])
  {
    var ch := s[c.pos];
    var r := OperatorScan(s, c, c.line, c.col);
    OperatorScanFacts(s, c, c.line, c.col);
    if c.pos + 2 < |s| && TwoCharKind(ch, s[c.pos + 2]).Some? {
      OperatorKindsApart(ch, s[c.pos + 2]);
      assert s[c.pos..r.next.pos] == [ch, s[c.pos + 1]];
    } else {
      OperatorKindsApart(ch, NUL);
      assert s[c.pos..r.next.pos] == [ch];
    }
  }

  /** Comments, identifiers, keywords and numbers are spelled by the input
      their scanner consumed, and none is a two-character operator. */
  lemma CommentTextSlice(s: string, c: Cursor)
    requires c.pos < |s| && s[c.pos] == '#'
    ensures var r := CommentScan(s, c);
      r.tok.text == s[c.pos..r.next.pos] && !IsTwoCharOp(r.tok.kind)
  {
    CommentScanFacts(s, c);
  }

  lemma IdentifierTextSlice(s: string, c: Cursor)
    requires c.pos < |s| && IsIdentStart(s[c.pos])
    ensures var r := IdentifierScan(s, c);
      r.tok.text == s[c.pos..r.next.pos] && !IsTwoCharOp(r.tok.kind)
  {
    IdentifierScanFacts(s, c);
  }

  lemma NumberTextSlice(s: string, c: Cursor)
    requires c.pos < |s| && IsDigit(s[c.pos])
    ensures var r := NumberScan(s, c);
      r.tok.text == s[c.pos..r.next.pos] && !IsTwoCharOp(r.tok.kind)
  {
    NumberScanFacts(s, c);
  }

  /** The text of a token is the slice of input its scanner consumed, except
      for a STRING (escapes are decoded and quotes dropped), a NEWLINE
      (spelled "\\n") and a two-character operator: its text is its first
      character and the one two places on, while it consumes its first
      character and the one right after, so the two differ exactly when
      those two later characters differ. */
  lemma TextIsConsumedSlice(s: string, w: Cursor)
    requires w.pos < |s|
    ensures var r := Dispatch(s, w);
      r.tok.kind != STRING && r.tok.kind != NEWLINE ==>
        (r.tok.text == s[w.pos..r.next.pos] <==>
         !(IsTwoCharOp(r.tok.kind) && w.pos + 2 < |s| && s[w.pos + 1] != s[w.pos + 2]))
  {
    var ch := s[w.pos];
    if ch == '#' {
      CommentTextSlice(s, w);
    } else if IsIdentStart(ch) {
      IdentifierTextSlice(s, w);
    } else if IsDigit(ch) {
      NumberTextSlice(s, w);
    } else if ch == '\n' {
      OperatorScanFacts(s, w, w.line, w.col);
    } else if ch != '"' && ch != '\'' {
      OperatorTextSlice(s, w);
    }
  }

  // ---------------------------------------------------------------------
  // One turn of the main loop

  /** The token of the scanner that the character at the cursor picks starts
      there, is never EOF, and at least one character is consumed. */
  lemma DispatchToken(s: string, w: Cursor)
    requires w.pos < |s|
    ensures var r := Dispatch(s, w);
      w.pos < r.next.pos && r.tok.kind != EOF && r.tok.line == w.line && r.tok.column == w.col
  {
    var ch := s[w.pos];
    if ch == '#' {
      CommentScanFacts(s, w);
    } else if IsLetter(ch) || ch == '_' {
      IdentifierScanFacts(s, w);
    } else if IsDigit(ch) {
      NumberScanFacts(s, w);
    } else if ch == '"' || ch == '\'' {
      StringScanFacts(s, w);
    } else {
      OperatorScanFacts(s, w, w.line, w.col);
    }
  }

  /** A NEWLINE token moves the cursor to column 1 of the next line; every
      other token moves the column by the characters it consumed. */
  lemma DispatchCursor(s: string, w: Cursor)
    requires w.pos < |s|
    ensures var r := Dispatch(s, w);
      && (r.tok.kind == NEWLINE ==> r.next == Cursor(w.pos + 1, w.line + 1, 1))
      && (r.tok.kind != NEWLINE ==> r.next == Advance(w, r.next.pos - w.pos))
  {
    var ch := s[w.pos];
    if ch == '#' {
      CommentScanFacts(s, w);
    } else if IsLetter(ch) || ch == '_' {
      IdentifierScanFacts(s, w);
    } else if IsDigit(ch) {
      NumberScanFacts(s, w);
    } else if ch == '"' || ch == '\'' {
      StringScanFacts(s, w);
    } else {
      OperatorScanFacts(s, w, w.line, w.col);
    }
  }

  /** The only diagnostic a scanner reports is an unterminated string, and
      then the string has run to the end of the input. */
  lemma DispatchDiags(s: string, w: Cursor)
    requires w.pos < |s|
    ensures var r := Dispatch(s, w);
      && (r.diags == [] || (r.tok.kind == STRING && r.next.pos == |s| && r.diags == [Unterminated(r.tok.line, r.tok.column)]))
      && (r.diags != [] <==> OpenString(s, w))
  {
    var ch := s[w.pos];
    if ch == '"' || ch == '\'' {
      StringScanFacts(s, w);
    }
  }

  /** nextToken returns nothing exactly when blanks run to the end of the
      input, and then reports nothing and leaves the cursor at the end. */
  lemma NextStepEnd(s: string, c: Cursor)
    requires c.pos <= |s|
    ensures var r := NextStep(s, c);
      && (r.tok.None? <==> SkipBlanks(s, c).pos == |s|)
      && (r.tok.None? ==> r.diags == [] && r.next == Advance(c, |s| - c.pos))
  {
  }

  /** Otherwise the token starts at the first character after the blanks,
      it is not EOF, and the cursor moves past it. */
  lemma NextStepToken(s: string, c: Cursor)
    requires c.pos <= |s|
    ensures var r := NextStep(s, c);
      var w := SkipBlanks(s, c).pos;
      r.tok.Some? ==>
        && w < r.next.pos && r.tok.value.kind != EOF
        && r.tok.value.line == c.line && r.tok.value.column == c.col + (w - c.pos)
  {
    var w := SkipBlanks(s, c).pos;
    if w < |s| {
      DispatchToken(s, SkipBlanks(s, c));
    }
  }

  /** The line and column stay in step with the characters one turn consumes,
      blanks included. */
  lemma NextStepCursor(s: string, c: Cursor)
    requires c.pos <= |s|
    ensures var r := NextStep(s, c);
      && (r.tok.Some? && r.tok.value.kind == NEWLINE ==> r.next == Cursor(r.next.pos, c.line + 1, 1))
      && (r.tok.None? || r.tok.value.kind != NEWLINE ==> r.next == Advance(c, r.next.pos - c.pos))
  {
    var w := SkipBlanks(s, c).pos;
    if w < |s| {
      DispatchCursor(s, SkipBlanks(s, c));
    }
  }

  lemma NextStepDiags(s: string, c: Cursor)
    requires c.pos <= |s|
    ensures var r := NextStep(s, c);
      var w := SkipBlanks(s, c);
      && (r.diags == [] || (r.tok.Some? && r.tok.value.kind == STRING && r.next.pos == |s|
                           && r.diags == [Unterminated(r.tok.value.line, r.tok.value.column)]))
      && (r.diags != [] <==> w.pos < |s| && OpenString(s, w))
  {
    var w := SkipBlanks(s, c).pos;
    if w < |s| {
      DispatchDiags(s, SkipBlanks(s, c));
    }
  }

  /** A token of the operator scanner is well formed, given that the
      character under the cursor starts no other kind of token. */
  lemma OperatorWellFormed(s: string, c: Cursor, startLine: int, startCol: int)
    requires c.pos < |s|
    requires var ch := s[c.pos];
      ch != '#' && ch != '"' && ch != '\'' && !IsIdentStart(ch) && !IsDigit(ch) && !IsBlank(ch)
    ensures WellFormed(OperatorScan(s, c, startLine, startCol).tok)
  {
    var ch := s[c.pos];
    OperatorScanFacts(s, c, startLine, startCol);
    if ch != '\n' {
      if c.pos + 2 < |s| && TwoCharKind(ch, s[c.pos + 2]).Some? {
        TwoCharTokenWellFormed(ch, s[c.pos + 2], startLine, startCol);
      } else {
        OneCharTokenWellFormed(ch, startLine, startCol);
      }
    }
  }

  lemma TwoCharTokenWellFormed(first: char, la: char, line: int, col: int)
    requires TwoCharKind(first, la).Some?
    ensures WellFormed(Token(TwoCharKind(first, la).value, [first, la], line, col))
  {
    TwoCharSpelling(first, la);
  }

  lemma OneCharTokenWellFormed(ch: char, line: int, col: int)
    requires ch != '#' && ch != '"' && ch != '\'' && ch != '\n' && !IsIdentStart(ch) && !IsDigit(ch) && !IsBlank(ch)
    ensures WellFormed(Token(OneCharKind(ch), [ch], line, col))
  {
    OneCharSpelling(ch);
  }

  /** The keyword kinds have no fixed spelling and are none of the kinds
      tested before them in WellFormed. */
  lemma ReservedKindIsKeywordOnly(k: TokenType)
    requires IsReservedKind(k)
    ensures Spelling(k).None?
    ensures k != IDENTIFIER && k != INTEGER && k != FLOAT && k != STRING && k != COMMENT && k != ERROR
  {
  }

  /** An identifier token is not a keyword; a keyword token is spelled as
      the put that gives its kind. */
  lemma IdentifierWellFormed(s: string, c: Cursor)
    requires c.pos < |s| && IsIdentStart(s[c.pos])
    ensures WellFormed(IdentifierScan(s, c).tok)
  {
    IdentifierScanFacts(s, c);
    var t := IdentifierScan(s, c).tok;
    KeywordKindSpec(t.text);
    if t.kind != IDENTIFIER {
      ReservedKindIsKeywordOnly(t.kind);
      var i :| 0 <= i < |KeywordPuts| && KeywordPuts[i].0 == t.text;
      assert KeywordPuts[i] == (t.text, t.kind);
    }
  }

  lemma DispatchWellFormed(s: string, w: Cursor)
    requires w.pos < |s| && !IsBlank(s[w.pos])
    ensures WellFormed(Dispatch(s, w).tok)
  {
    var ch := s[w.pos];
    if ch == '#' {
      CommentScanFacts(s, w);
    } else if IsLetter(ch) || ch == '_' {
      IdentifierWellFormed(s, w);
    } else if IsDigit(ch) {
      NumberScanFacts(s, w);
    } else if ch == '"' || ch == '\'' {
    } else {
      OperatorWellFormed(s, w, w.line, w.col);
    }
  }

  /** Every token one turn produces is well formed. */
  lemma NextStepWellFormed(s: string, c: Cursor)
    requires c.pos <= |s|
    ensures NextStep(s, c).tok.Some? ==> WellFormed(NextStep(s, c).tok.value)
  {
    var w := SkipBlanks(s, c).pos;
    SkipBlanksIsMaximal(s, c);
    if w < |s| {
      DispatchWellFormed(s, SkipBlanks(s, c));
    }
  }

  // ---------------------------------------------------------------------
  // The whole pass

  function CountKind(ts: seq<Token>, k: TokenType): nat {
    if ts == [] then 0 else (if ts[0].kind == k then 1 else 0) + CountKind(ts[1..], k)
  }

  /** The invalid-character diagnostics that the ERROR tokens of ts call for,
      in order. */
  function InvalidChars(ts: seq<Token>): seq<Diagnostic> {
    if ts == [] then [] else Reported(Some(ts[0])) + InvalidChars(ts[1..])
  }

  lemma {:induction false} CountKindAppend(a: seq<Token>, b: seq<Token>, k: TokenType)
    ensures CountKind(a + b, k) == CountKind(a, k) + CountKind(b, k)
    decreases |a|
  {
    if a == [] {
      assert a + b == b;
    } else {
      assert (a + b)[1..] == a[1..] + b;
      CountKindAppend(a[1..], b, k);
    }
  }

  lemma {:induction false} InvalidCharsAppend(a: seq<Token>, b: seq<Token>)
    ensures InvalidChars(a + b) == InvalidChars(a) + InvalidChars(b)
    decreases |a|
  {
    if a == [] {
      assert a + b == b;
    } else {
      assert (a + b)[1..] == a[1..] + b;
      InvalidCharsAppend(a[1..], b);
      AppendAssoc(Reported(Some(a[0])), InvalidChars(a[1..]), InvalidChars(b));
    }
  }

  lemma {:induction false} InvalidCharsCount(ts: seq<Token>)
    ensures |InvalidChars(ts)| == CountKind(ts, ERROR)
    decreases |ts|
  {
    if ts != [] {
      InvalidCharsCount(ts[1..]);
    }
  }

  /** No token Lex emits is a COMMENT or an EOF, and every one is well
      formed. */
  lemma {:induction false} LexTokensWellFormed(s: string, c: Cursor)
    requires c.pos <= |s|
    ensures forall t :: t in Lex(s, c).tokens ==> WellFormed(t) && t.kind != COMMENT && t.kind != EOF
    decreases |s| - c.pos
  {
    if c.pos < |s| {
      var st := NextStep(s, c);
      NextStepWellFormed(s, c);
      NextStepToken(s, c);
      LexTokensWellFormed(s, st.next);
    }
  }

  /** tokenize's result holds exactly one EOF token: the last one, with empty
      text and the final line and column. No COMMENT token is in it. */
  lemma TokenStreamEndsWithEof(s: string, c: Cursor)
    requires c.pos <= |s|
    ensures var ts := TokenStream(s, c);
      var o := Lex(s, c);
      && ts[|ts| - 1] == Token(EOF, "", o.final.line, o.final.col)
      && (forall i :: 0 <= i < |ts| - 1 ==> ts[i].kind != EOF)
      && CountKind(ts, EOF) == 1
      && (forall t :: t in ts ==> t.kind != COMMENT)
  {
    var o := Lex(s, c);
    var eof := Token(EOF, "", o.final.line, o.final.col);
    LexTokensWellFormed(s, c);
    NoKindNoCount(o.tokens, EOF);
    CountKindAppend(o.tokens, [eof], EOF);
  }

  lemma {:induction false} NoKindNoCount(ts: seq<Token>, k: TokenType)
    requires forall t :: t in ts ==> t.kind != k
    ensures CountKind(ts, k) == 0
    decreases |ts|
  {
    if ts != [] {
      NoKindNoCount(ts[1..], k);
    }
  }

  /** The pass ends in a literal left open: some turn from c on opens a
      string whose body runs to the end of the input. */
  predicate EndsInOpenString(s: string, c: Cursor)
    requires c.pos <= |s|
    decreases |s| - c.pos
  {
    var w := SkipBlanks(s, c);
    w.pos < |s| && (OpenString(s, w) || EndsInOpenString(s, Dispatch(s, w).next))
  }

  /** The diagnostics are, in order, one InvalidChar per ERROR token with the
      same line, column and text and, exactly when open holds, one
      Unterminated diagnostic last, for the last token, a STRING. */
  predicate DiagnosticsOf(ts: seq<Token>, ds: seq<Diagnostic>, open: bool) {
    if open then
      && ts != []
      && ts[|ts| - 1].kind == STRING
      && ds == InvalidChars(ts) + [Unterminated(ts[|ts| - 1].line, ts[|ts| - 1].column)]
    else
      ds == InvalidChars(ts)
  }

  /** A turn that reports nothing itself keeps the pairing. */
  lemma DiagnosticsStep(t: Option<Token>, ts: seq<Token>, ds: seq<Diagnostic>, open: bool)
    requires DiagnosticsOf(ts, ds, open)
    ensures DiagnosticsOf(Emitted(t) + ts, Reported(t) + ds, open)
  {
    InvalidCharsAppend(Emitted(t), ts);
    assert InvalidChars(Emitted(t)) == Reported(t);
    if open {
      var last := ts[|ts| - 1];
      assert (Emitted(t) + ts)[|Emitted(t) + ts| - 1] == last;
      AppendAssoc(Reported(t), InvalidChars(ts), [Unterminated(last.line, last.column)]);
    }
  }

  /** A turn that reports nothing contributes its token and its ERROR
      diagnostic in front of the rest of the pass, and leaves open whether
      the pass ends in an open literal. */
  lemma LexQuietStep(s: string, c: Cursor)
    requires c.pos < |s| && NextStep(s, c).diags == []
    ensures var st := NextStep(s, c);
      && Lex(s, c).tokens == Emitted(st.tok) + Lex(s, st.next).tokens
      && Lex(s, c).diags == Reported(st.tok) + Lex(s, st.next).diags
      && EndsInOpenString(s, c) == EndsInOpenString(s, st.next)
  {
    var st := NextStep(s, c);
    assert st.diags + Reported(st.tok) == Reported(st.tok);
    NextStepDiags(s, c);
    var w := SkipBlanks(s, c);
    if w.pos == |s| {
      assert st.next == w && SkipBlanks(s, w) == w;
    }
  }

  /** A turn that reports an unterminated string ends the pass with that
      string as the last token. */
  lemma LexUnterminatedStep(s: string, c: Cursor)
    requires c.pos < |s| && NextStep(s, c).diags != []
    ensures var st := NextStep(s, c);
      && st.tok.Some? && st.tok.value.kind == STRING
      && Lex(s, c).tokens == [st.tok.value]
      && Lex(s, c).diags == [Unterminated(st.tok.value.line, st.tok.value.column)]
      && EndsInOpenString(s, c)
  {
    NextStepDiags(s, c);
    var st := NextStep(s, c);
    assert Lex(s, st.next) == LexOut([], [], st.next);
  }

  lemma {:induction false} LexDiagnostics(s: string, c: Cursor)
    requires c.pos <= |s|
    ensures DiagnosticsOf(Lex(s, c).tokens, Lex(s, c).diags, EndsInOpenString(s, c))
    decreases |s| - c.pos
  {
    if c.pos < |s| {
      var st := NextStep(s, c);
      if st.diags == [] {
        LexQuietStep(s, c);
        LexDiagnostics(s, st.next);
        DiagnosticsStep(st.tok, Lex(s, st.next).tokens, Lex(s, st.next).diags, EndsInOpenString(s, st.next));
      } else {
        LexUnterminatedStep(s, c);
        assert InvalidChars([st.tok.value]) == [];
      }
    }
  }

  /** So the number of diagnostics is the number of ERROR tokens, plus one
      exactly when the pass ends in a literal left open. */
  lemma DiagnosticCount(s: string, c: Cursor)
    requires c.pos <= |s|
    ensures var o := Lex(s, c);
      |o.diags| == CountKind(o.tokens, ERROR) + (if EndsInOpenString(s, c) then 1 else 0)
  {
    LexDiagnostics(s, c);
    InvalidCharsCount(Lex(s, c).tokens);
  }

  /** The line only moves at NEWLINE tokens, one line each. */
  lemma {:induction false} LexLines(s: string, c: Cursor)
    requires c.pos <= |s|
    ensures Lex(s, c).final.line == c.line + CountKind(Lex(s, c).tokens, NEWLINE)
    decreases |s| - c.pos
  {
    if c.pos < |s| {
      var st := NextStep(s, c);
      NextStepCursor(s, c);
      LexLines(s, st.next);
      CountKindAppend(Emitted(st.tok), Lex(s, st.next).tokens, NEWLINE);
    }
  }

  /** On input without NEWLINE tokens every character consumed, inside a
      string or swallowed by an operator included, moves the column by one. */
  lemma {:induction false} LexColumnsWithoutNewline(s: string, c: Cursor)
    requires c.pos <= |s|
    requires CountKind(Lex(s, c).tokens, NEWLINE) == 0
    ensures Lex(s, c).final == Cursor(|s|, c.line, c.col + (|s| - c.pos))
    decreases |s| - c.pos
  {
    if c.pos < |s| {
      var st := NextStep(s, c);
      NextStepCursor(s, c);
      CountKindAppend(Emitted(st.tok), Lex(s, st.next).tokens, NEWLINE);
      LexColumnsWithoutNewline(s, st.next);
    }
  }
}
