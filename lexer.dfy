/** The scanner object of src/Lexer.java: a cursor (position, line, column)
    and a diagnostics list that its methods advance in place. Every method is
    proved to produce what the matching function of LexSpec describes. */
module Lexing {
  import opened Tokens
  import opened Chars
  import opened Keywords
  import opened LexSpec

  class Lexer {
    const input: string
    var position: nat
    var line: int
    var column: int
    var errors: seq<Diagnostic>

    ghost predicate Valid()
      reads this
    {
      position <= |input|
    }

    /** The cursor as a value. */
    function Here(): Cursor
      reads this
    {
      Cursor(position, line, column)
    }

    constructor (input: string)
      ensures Valid()
      ensures this.input == input && Here() == Cursor(0, 1, 1) && errors == []
    {
      this.input := input;
      position := 0;
      line := 1;
      column := 1;
      errors := [];
    }

    /** Scans the whole input: the tokens of every step except comments, then
        one EOF token at the final line and column. */
    method Tokenize() returns (tokens: seq<Token>)
      requires Valid()
      modifies this
      ensures Valid()
      ensures tokens == TokenStream(input, old(Here()))
      ensures Here() == Lex(input, old(Here())).final
      ensures errors == old(errors) + Lex(input, old(Here())).diags
    {
      ghost var start := Here();
      tokens := [];
      while position < |input|
        invariant position <= |input|
        invariant LexFrom(input, Cursor(position, line, column), tokens, errors) == LexFrom(input, start, [], old(errors))
        decreases |input| - position
      {
        ghost var here, tokensBefore, errorsBefore := Here(), tokens, errors;
        var token := NextToken();
        ghost var errorsHere := errors;
        if token.Some? {
          if token.value.kind == ERROR {
            errors := errors + [InvalidChar(token.value.line, token.value.column, token.value.text)];
          }
          if token.value.kind != COMMENT {
            tokens := tokens + [token.value];
          }
        }
        assert tokens == tokensBefore + Emitted(token);
        assert errors == errorsHere + Reported(token);
        LexFromStep(input, here, tokensBefore, errorsBefore);
      }
      LexFromAppends(input, start, [], old(errors));
      tokens := tokens + [Token(EOF, "", line, column)];
    }

    /** One turn of the main loop: skip blanks, then no token at the end of
        the input, or the token of the scanner the current character picks. */
    method NextToken() returns (tok: Option<Token>)
      requires Valid()
      modifies this
      ensures Valid()
      ensures tok == NextStep(input, old(Here())).tok
      ensures Here() == NextStep(input, old(Here())).next
      ensures errors == old(errors) + NextStep(input, old(Here())).diags
    {
      SkipWhitespace();
      if position >= |input| {
        return None;
      }
      ghost var w, errorsHere := Here(), errors;
      var current := input[position];
      var startLine, startColumn := line, column;
      var t;
      if current == '#' {
        t := ScanComment();
      } else if IsLetter(current) || current == '_' {
        t := ScanIdentifier();
      } else if IsDigit(current) {
        t := ScanNumber();
      } else if current == '"' || current == '\'' {
        t := ScanString(current);
      } else {
        t := ScanOperator(startLine, startColumn);
      }
      assert t == Dispatch(input, w).tok && Here() == Dispatch(input, w).next;
      assert errors == errorsHere + Dispatch(input, w).diags;
      return Some(t);
    }

    method ScanIdentifier() returns (tok: Token)
      requires Valid() && position < |input| && IsIdentStart(input[position])
      modifies this
      ensures Valid() && errors == old(errors)
      ensures tok == IdentifierScan(input, old(Here())).tok
      ensures Here() == IdentifierScan(input, old(Here())).next
    {
      var startLine, startColumn := line, column;
      ghost var start, end := position, IdentEnd(input, position);
      var sb := "";
      while position < |input| && (IsLetterOrDigit(input[position]) || input[position] == '_')
        invariant start <= position <= end
        invariant IdentEnd(input, position) == end
        invariant sb == input[start..position]
        invariant line == startLine && column == startColumn + (position - start)
        invariant errors == old(errors)
        decreases |input| - position
      {
        sb := sb + [input[position]];
        position := position + 1;
        column := column + 1;
      }
      assert position == end;
      var value := sb;
      tok := Token(KeywordKind(value), value, startLine, startColumn);
    }

    method ScanNumber() returns (tok: Token)
      requires Valid() && position < |input| && IsDigit(input[position])
      modifies this
      ensures Valid() && errors == old(errors)
      ensures tok == NumberScan(input, old(Here())).tok
      ensures Here() == NumberScan(input, old(Here())).next
    {
      var startLine, startColumn := line, column;
      ghost var start := position;
      var sb := "";
      var isFloat := false;
      while position < |input|
        invariant start <= position <= |input|
        invariant NumberEnd(input, position, isFloat) == NumberEnd(input, start, false)
        invariant sb == input[start..position]
        invariant isFloat <==> '.' in sb
        invariant line == startLine && column == startColumn + (position - start)
        invariant errors == old(errors)
        decreases |input| - position
      {
        var c := input[position];
        if IsDigit(c) {
          sb := sb + [c];
          position := position + 1;
          column := column + 1;
        } else if c == '.' && !isFloat {
          isFloat := true;
          sb := sb + [c];
          position := position + 1;
          column := column + 1;
        } else {
          break;
        }
      }
      var kind := if isFloat then FLOAT else INTEGER;
      tok := Token(kind, sb, startLine, startColumn);
    }

    method ScanString(quote: char) returns (tok: Token)
      requires Valid() && position < |input| && quote == input[position]
      requires quote == '"' || quote == '\''
      modifies this
      ensures Valid()
      ensures tok == StringScan(input, old(Here())).tok
      ensures Here() == StringScan(input, old(Here())).next
      ensures errors == old(errors) + StringScan(input, old(Here())).diags
    {
      var startLine, startColumn := line, column;
      ghost var start := position;
      var sb := "";
      position, column := position + 1, column + 1;
      while position < |input| && input[position] != quote
        invariant start < position <= |input|
        invariant StringBody(input, position, quote, sb) == StringBody(input, start + 1, quote, "")
        invariant line == startLine && column == startColumn + (position - start)
        invariant errors == old(errors)
        decreases |input| - position
      {
        if input[position] == '\\' && position + 1 < |input| {
          position, column := position + 1, column + 1;
          sb := sb + [input[position]];
        } else {
          sb := sb + [input[position]];
        }
        position := position + 1;
        column := column + 1;
      }
      if position < |input| {
        position, column := position + 1, column + 1;
      } else {
        errors := errors + [Unterminated(startLine, startColumn)];
      }
      tok := Token(STRING, sb, startLine, startColumn);
    }

    /** The lookahead: the character after the cursor, or NUL past the end. */
    function Peek(): char
      reads this
    {
      PeekAt(input, position)
    }

    method ScanOperator(startLine: int, startColumn: int) returns (tok: Token)
      requires Valid() && position < |input|
      modifies this
      ensures Valid() && errors == old(errors)
      ensures tok == OperatorScan(input, old(Here()), startLine, startColumn).tok
      ensures Here() == OperatorScan(input, old(Here()), startLine, startColumn).next
    {
      var current := input[position];
      match current
      case '+' =>
        position, column := position + 1, column + 1;
        if Peek() == '=' {
          position, column := position + 1, column + 1;
          return Token(PLUS_ASSIGN, "+=", startLine, startColumn);
        } else if Peek() == '+' {
          position, column := position + 1, column + 1;
          return Token(INCREMENT, "++", startLine, startColumn);
        }
        return Token(PLUS, "+", startLine, startColumn);
      case '-' =>
        position, column := position + 1, column + 1;
        if Peek() == '=' {
          position, column := position + 1, column + 1;
          return Token(MINUS_ASSIGN, "-=", startLine, startColumn);
        } else if Peek() == '-' {
          position, column := position + 1, column + 1;
          return Token(DECREMENT, "--", startLine, startColumn);
        }
        return Token(MINUS, "-", startLine, startColumn);
      case '*' =>
        position, column := position + 1, column + 1;
        return Token(MULTIPLY, "*", startLine, startColumn);
      case '/' =>
        position, column := position + 1, column + 1;
        return Token(DIVIDE, "/", startLine, startColumn);
      case '%' =>
        position, column := position + 1, column + 1;
        return Token(MODULO, "%", startLine, startColumn);
      case '=' =>
        position, column := position + 1, column + 1;
        if Peek() == '=' {
          position, column := position + 1, column + 1;
          return Token(EQUAL, "==", startLine, startColumn);
        }
        return Token(ASSIGN, "=", startLine, startColumn);
      case '!' =>
        position, column := position + 1, column + 1;
        if Peek() == '=' {
          position, column := position + 1, column + 1;
          return Token(NOT_EQUAL, "!=", startLine, startColumn);
        }
        return Token(ERROR, "!", startLine, startColumn);
      case '<' =>
        position, column := position + 1, column + 1;
        if Peek() == '=' {
          position, column := position + 1, column + 1;
          return Token(LESS_EQUAL, "<=", startLine, startColumn);
        }
        return Token(LESS, "<", startLine, startColumn);
      case '>' =>
        position, column := position + 1, column + 1;
        if Peek() == '=' {
          position, column := position + 1, column + 1;
          return Token(GREATER_EQUAL, ">=", startLine, startColumn);
        }
        return Token(GREATER, ">", startLine, startColumn);
      case '(' =>
        position, column := position + 1, column + 1;
        return Token(LPAREN, "(", startLine, startColumn);
      case ')' =>
        position, column := position + 1, column + 1;
        return Token(RPAREN, ")", startLine, startColumn);
      case '{' =>
        position, column := position + 1, column + 1;
        return Token(LBRACE, "{", startLine, startColumn);
      case '}' =>
        position, column := position + 1, column + 1;
        return Token(RBRACE, "}", startLine, startColumn);
      case '[' =>
        position, column := position + 1, column + 1;
        return Token(LBRACKET, "[", startLine, startColumn);
      case ']' =>
        position, column := position + 1, column + 1;
        return Token(RBRACKET, "]", startLine, startColumn);
      case ',' =>
        position, column := position + 1, column + 1;
        return Token(COMMA, ",", startLine, startColumn);
      case ':' =>
        position, column := position + 1, column + 1;
        return Token(COLON, ":", startLine, startColumn);
      case ';' =>
        position, column := position + 1, column + 1;
        return Token(SEMICOLON, ";", startLine, startColumn);
      case '.' =>
        position, column := position + 1, column + 1;
        return Token(DOT, ".", startLine, startColumn);
      case '\n' =>
        position, line, column := position + 1, line + 1, 1;
        return Token(NEWLINE, "\\n", startLine, startColumn);
      case _ =>
        position, column := position + 1, column + 1;
        return Token(ERROR, [current], startLine, startColumn);
    }

    method ScanComment() returns (tok: Token)
      requires Valid() && position < |input| && input[position] == '#'
      modifies this
      ensures Valid() && errors == old(errors)
      ensures tok == CommentScan(input, old(Here())).tok
      ensures Here() == CommentScan(input, old(Here())).next
    {
      var startLine, startColumn := line, column;
      ghost var start := position;
      var sb := "";
      while position < |input| && input[position] != '\n'
        invariant start <= position <= |input|
        invariant CommentEnd(input, position) == CommentEnd(input, start)
        invariant sb == input[start..position]
        invariant line == startLine && column == startColumn + (position - start)
        invariant errors == old(errors)
        decreases |input| - position
      {
        sb := sb + [input[position]];
        position := position + 1;
        column := column + 1;
      }
      tok := Token(COMMENT, sb, startLine, startColumn);
    }

    method SkipWhitespace()
      requires Valid()
      modifies this
      ensures Valid() && errors == old(errors)
      ensures Here() == SkipBlanks(input, old(Here()))
    {
      while position < |input|
        invariant old(position) <= position <= |input|
        invariant SkipBlanks(input, Here()) == SkipBlanks(input, old(Here()))
        invariant line == old(line) && column == old(column) + (position - old(position))
        invariant errors == old(errors)
        decreases |input| - position
      {
        var c := input[position];
        if c == ' ' || c == '\t' || c == '\r' {
          position := position + 1;
          column := column + 1;
        } else {
          break;
        }
      }
    }
  }
}
