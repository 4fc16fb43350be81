/** A pure, value-level reference for every step of src/Lexer.java. Each
    scanner is a function from the input and a cursor to the token it builds,
    the diagnostics it adds and the cursor it leaves; Lex strings the steps of
    the main loop together. The class in lexer.dfy is proved to compute
    exactly these values. */
module LexSpec {
  import opened Tokens
  import opened Chars
  import opened Keywords

  /** Where the scanner stands: offset into the input, and the 1-based line and
      column reported for the character at that offset. */
  datatype Cursor = Cursor(pos: nat, line: int, col: int)

  /** The two lexical error conditions, kept apart as structured records. */
  datatype Diagnostic =
    | InvalidChar(line: int, column: int, text: string)
    | Unterminated(line: int, column: int)

  /** What one scanner produces. */
  datatype Scan = Scan(tok: Token, diags: seq<Diagnostic>, next: Cursor)

  /** What one turn of the main loop produces: no token when only blanks were
      left. */
  datatype Step = Step(tok: Option<Token>, diags: seq<Diagnostic>, next: Cursor)

  /** The result of scanning to the end: tokens (comments dropped, no EOF
      yet), diagnostics in the order they were added, and the final cursor. */
  datatype LexOut = LexOut(tokens: seq<Token>, diags: seq<Diagnostic>, final: Cursor)

  /** The sentinel the lookahead returns past the end of the input. */
  const NUL: char := '\0'

  predicate IsIdentStart(c: char) {
    IsLetter(c) || c == '_'
  }

  predicate IsIdentChar(c: char) {
    IsLetterOrDigit(c) || c == '_'
  }

  /** Moving over k characters that are not a newline token: same line, one
      column per character. */
  function Advance(c: Cursor, k: nat): Cursor {
    Cursor(c.pos + k, c.line, c.col + k)
  }

  /** The character one place after offset q, or NUL when there is none. */
  function PeekAt(s: string, q: nat): char {
    if q + 1 < |s| then s[q + 1] else NUL
  }

  // ---------------------------------------------------------------------
  // Maximal runs

  /** The cursor after the run of blanks at c; skipping moves the column
      only. */
  function SkipBlanks(s: string, c: Cursor): (w: Cursor)
    requires c.pos <= |s|
    ensures c.pos <= w.pos <= |s|
    ensures w.line == c.line && w.col == c.col + (w.pos - c.pos)
    decreases |s| - c.pos
  {
    if c.pos < |s| && IsBlank(s[c.pos]) then SkipBlanks(s, Advance(c, 1)) else c
  }

  /** End of the run of letters, digits and underscores that starts at p. */
  function IdentEnd(s: string, p: nat): (e: nat)
    requires p <= |s|
    ensures p <= e <= |s|
    decreases |s| - p
  {
    if p < |s| && IsIdentChar(s[p]) then IdentEnd(s, p + 1) else p
  }

  /** End of a numeric literal's run starting at p: digits, and one dot unless
      a dot has been taken already (dotSeen). */
  function NumberEnd(s: string, p: nat, dotSeen: bool): (e: nat)
    requires p <= |s|
    ensures p <= e <= |s|
    decreases |s| - p
  {
    if p < |s| && IsDigit(s[p]) then NumberEnd(s, p + 1, dotSeen)
    else if p < |s| && s[p] == '.' && !dotSeen then NumberEnd(s, p + 1, true)
    else p
  }

  /** End of a comment's run starting at p: up to the next newline, which is
      left in place. */
  function CommentEnd(s: string, p: nat): (e: nat)
    requires p <= |s|
    ensures p <= e <= |s|
    decreases |s| - p
  {
    if p < |s| && s[p] != '\n' then CommentEnd(s, p + 1) else p
  }

  /** The decoded content of a string literal: the text acc gathered so far
      followed by the characters from p up to (not including) the first
      unescaped quote, and the offset where that quote stands (|s| when there
      is none). A backslash is dropped and the character after it kept; a
      backslash that is the last character of the input is kept. */
  datatype Body = Body(text: string, end: nat)

  function StringBody(s: string, p: nat, quote: char, acc: string): (b: Body)
    requires p <= |s|
    ensures p <= b.end <= |s|
    decreases |s| - p
  {
    if p == |s| || s[p] == quote then Body(acc, p)
    else if s[p] == '\\' && p + 1 < |s| then StringBody(s, p + 2, quote, acc + [s[p + 1]])
    else StringBody(s, p + 1, quote, acc + [s[p]])
  }

  // ---------------------------------------------------------------------
  // The five scanners

  /** A comment: its text runs from the '#' to the end of the line. */
  function CommentScan(s: string, c: Cursor): (r: Scan)
    requires c.pos < |s| && s[c.pos] == '#'
    ensures c.pos < r.next.pos <= |s|
  {
    var e := CommentEnd(s, c.pos);
    Scan(Token(COMMENT, s[c.pos..e], c.line, c.col), [], Advance(c, e - c.pos))
  }

  /** An identifier or keyword: the longest run of letters, digits and
      underscores, classified by the keyword table. */
  function IdentifierScan(s: string, c: Cursor): (r: Scan)
    requires c.pos < |s| && IsIdentStart(s[c.pos])
    ensures c.pos < r.next.pos <= |s|
  {
    var e := IdentEnd(s, c.pos);
    var text := s[c.pos..e];
    Scan(Token(KeywordKind(text), text, c.line, c.col), [], Advance(c, e - c.pos))
  }

  /** A number: digits with at most one dot; FLOAT when a dot was taken. */
  function NumberScan(s: string, c: Cursor): (r: Scan)
    requires c.pos < |s| && IsDigit(s[c.pos])
    ensures c.pos < r.next.pos <= |s|
  {
    var e := NumberEnd(s, c.pos, false);
    var text := s[c.pos..e];
    Scan(Token(if '.' in text then FLOAT else INTEGER, text, c.line, c.col), [], Advance(c, e - c.pos))
  }

  /** A string literal opened by the quote at c.pos. Without a closing quote
      the token is still a STRING, and an Unterminated diagnostic at the
      opening quote is added. */
  function StringScan(s: string, c: Cursor): (r: Scan)
    requires c.pos < |s| && (s[c.pos] == '"' || s[c.pos] == '\'')
    ensures c.pos < r.next.pos <= |s|
  {
    var b := StringBody(s, c.pos + 1, s[c.pos], "");
    var closed := b.end < |s|;
    var e := if closed then b.end + 1 else b.end;
    Scan(Token(STRING, b.text, c.line, c.col),
         if closed then [] else [Unterminated(c.line, c.col)],
         Advance(c, e - c.pos))
  }

  /** The kind of a two-character operator whose first character is first
      and whose lookahead character is la, if there is one. */
  function TwoCharKind(first: char, la: char): Option<TokenType> {
    match first
    case '+' => if la == '=' then Some(PLUS_ASSIGN) else if la == '+' then Some(INCREMENT) else None
    case '-' => if la == '=' then Some(MINUS_ASSIGN) else if la == '-' then Some(DECREMENT) else None
    case '=' => if la == '=' then Some(EQUAL) else None
    case '!' => if la == '=' then Some(NOT_EQUAL) else None
    case '<' => if la == '=' then Some(LESS_EQUAL) else None
    case '>' => if la == '=' then Some(GREATER_EQUAL) else None
    case _ => None
  }

  /** The kind of a one-character token; ERROR for a bare '!' and for every
      character no rule matches. */
  function OneCharKind(ch: char): TokenType {
    match ch
    case '+' => PLUS
    case '-' => MINUS
    case '*' => MULTIPLY
    case '/' => DIVIDE
    case '%' => MODULO
    case '=' => ASSIGN
    case '<' => LESS
    case '>' => GREATER
    case '(' => LPAREN
    case ')' => RPAREN
    case '{' => LBRACE
    case '}' => RBRACE
    case '[' => LBRACKET
    case ']' => RBRACKET
    case ',' => COMMA
    case ':' => COLON
    case ';' => SEMICOLON
    case '.' => DOT
    case _ => ERROR
  }

  /** Operators, delimiters, the newline and invalid characters. The lookahead
      is taken after the first character has been consumed, so it reads the
      character two places after the operator's start; a two-character
      operator then moves the cursor over its first character and the one
      right after it. */
  function OperatorScan(s: string, c: Cursor, startLine: int, startCol: int): (r: Scan)
    requires c.pos < |s|
    ensures c.pos < r.next.pos <= |s|
  {
    var ch := s[c.pos];
    var la := PeekAt(s, c.pos + 1);
    if ch == '\n' then
      Scan(Token(NEWLINE, "\\n", startLine, startCol), [], Cursor(c.pos + 1, c.line + 1, 1))
    else match TwoCharKind(ch, la)
      case Some(k) => Scan(Token(k, [ch, la], startLine, startCol), [], Advance(c, 2))
      case None => Scan(Token(OneCharKind(ch), [ch], startLine, startCol), [], Advance(c, 1))
  }

  // ---------------------------------------------------------------------
  // The main loop

  /** One call of nextToken: skip blanks, stop at the end of the input, or
      dispatch on the current character. */
  function NextStep(s: string, c: Cursor): (r: Step)
    requires c.pos <= |s|
    ensures c.pos <= r.next.pos <= |s|
    ensures c.pos < |s| ==> c.pos < r.next.pos
  {
    var w := SkipBlanks(s, c);
    if w.pos == |s| then Step(None, [], w)
    else
      var sc := Dispatch(s, w);
      Step(Some(sc.tok), sc.diags, sc.next)
  }

  /** The scanner the character under the cursor selects, in the source's
      priority order. */
  function Dispatch(s: string, w: Cursor): (r: Scan)
    requires w.pos < |s|
    ensures w.pos < r.next.pos <= |s|
  {
    var ch := s[w.pos];
    if ch == '#' then CommentScan(s, w)
    else if IsLetter(ch) || ch == '_' then IdentifierScan(s, w)
    else if IsDigit(ch) then NumberScan(s, w)
    else if ch == '"' || ch == '\'' then StringScan(s, w)
    else OperatorScan(s, w, w.line, w.col)
  }

  /** The token a step hands to the output: comments are dropped. */
  function Emitted(t: Option<Token>): seq<Token> {
    if t.Some? && t.value.kind != COMMENT then [t.value] else []
  }

  /** The diagnostic the main loop adds for an ERROR token. */
  function Reported(t: Option<Token>): seq<Diagnostic> {
    if t.Some? && t.value.kind == ERROR then [InvalidChar(t.value.line, t.value.column, t.value.text)] else []
  }

  /** The main loop of tokenize, from cursor c to the end of the input. */
  function Lex(s: string, c: Cursor): (r: LexOut)
    requires c.pos <= |s|
    ensures r.final.pos == |s|
    decreases |s| - c.pos
  {
    if c.pos == |s| then LexOut([], [], c)
    else
      var st := NextStep(s, c);
      var rest := Lex(s, st.next);
      LexOut(Emitted(st.tok) + rest.tokens, st.diags + Reported(st.tok) + rest.diags, rest.final)
  }

  /** The main loop as the source runs it: tokens and diagnostics are
      appended to what earlier turns produced. */
  function LexFrom(s: string, c: Cursor, tokens: seq<Token>, errors: seq<Diagnostic>): (r: LexOut)
    requires c.pos <= |s|
    decreases |s| - c.pos
  {
    if c.pos == |s| then LexOut(tokens, errors, c)
    else
      var st := NextStep(s, c);
      LexFrom(s, st.next, tokens + Emitted(st.tok), errors + st.diags + Reported(st.tok))
  }

  /** One turn of the loop as the source runs it. */
  lemma LexFromStep(s: string, c: Cursor, tokens: seq<Token>, errors: seq<Diagnostic>)
    requires c.pos < |s|
    ensures var st := NextStep(s, c);
      LexFrom(s, c, tokens, errors) == LexFrom(s, st.next, tokens + Emitted(st.tok), errors + st.diags + Reported(st.tok))
  {
  }

  /** Running the loop after some output has been produced appends Lex's
      output to it. */
  lemma {:induction false} LexFromAppends(s: string, c: Cursor, tokens: seq<Token>, errors: seq<Diagnostic>)
    requires c.pos <= |s|
    ensures var o := Lex(s, c);
      LexFrom(s, c, tokens, errors) == LexOut(tokens + o.tokens, errors + o.diags, o.final)
    decreases |s| - c.pos
  {
    if c.pos < |s| {
      var st := NextStep(s, c);
      var rest := Lex(s, st.next);
      LexFromAppends(s, st.next, tokens + Emitted(st.tok), errors + st.diags + Reported(st.tok));
      AppendAssoc(tokens, Emitted(st.tok), rest.tokens);
      AppendAssoc(errors, st.diags, Reported(st.tok));
      AppendAssoc(errors, st.diags + Reported(st.tok), rest.diags);
    } else {
      assert tokens + [] == tokens && errors + [] == errors;
    }
  }

  lemma AppendAssoc<T>(a: seq<T>, b: seq<T>, c: seq<T>)
    ensures (a + b) + c == a + (b + c)
  {
  }

  /** What tokenize returns: the scanned tokens and one EOF token carrying the
      final line and column. */
  function TokenStream(s: string, c: Cursor): seq<Token>
    requires c.pos <= |s|
  {
    var o := Lex(s, c);
    o.tokens + [Token(EOF, "", o.final.line, o.final.col)]
  }
}
