/** The lexer's output vocabulary: the closed set of token kinds and the
    immutable token record (src/Token.java). */
module Tokens {

  datatype Option<T> = None | Some(value: T)

  /** Every lexical category the scanner can produce. The constructors carry
      the names of the source's enumeration constants; COMMENT is internal to
      the scanner and ERROR marks an invalid character. */
  datatype TokenType =
    // switch/case keywords
    | SWITCH | CASE | DEFAULT | BREAK
    // other control-flow keywords
    | IF | ELIF | ELSE | WHILE | FOR | IN | RANGE
    | DEF | CLASS | RETURN | CONTINUE | PASS
    // arithmetic operators
    | PLUS | MINUS | MULTIPLY | DIVIDE | MODULO
    // assignment operators
    | ASSIGN | PLUS_ASSIGN | MINUS_ASSIGN | INCREMENT | DECREMENT
    // comparison operators
    | EQUAL | NOT_EQUAL | LESS | LESS_EQUAL | GREATER | GREATER_EQUAL
    // logical keywords
    | AND | OR | NOT
    // delimiters
    | LPAREN | RPAREN | LBRACE | RBRACE | LBRACKET | RBRACKET
    | COMMA | COLON | SEMICOLON | DOT
    // literals
    | IDENTIFIER | INTEGER | FLOAT | STRING | BOOLEAN
    // structural markers
    | NEWLINE | EOF | COMMENT
    // the two custom-name keywords
    | CUSTOM_NAME | CUSTOM_FIRSTNAME
    // invalid character
    | ERROR

  /** A classified lexeme with the 1-based line and column of its first
      character. Being a datatype value, a token cannot change after it is
      built: its four fields are the source's four getters. */
  datatype Token = Token(kind: TokenType, text: string, line: int, column: int)

  /** The getters give back exactly what the constructor was given. */
  lemma TokenAccessors(k: TokenType, v: string, l: int, c: int)
    ensures var t := Token(k, v, l, c);
      t.kind == k && t.text == v && t.line == l && t.column == c
  {
  }
}
