# Lexical analyser of the mini Python/switch-case compiler, in Dafny

This project models the lexer of a small compiler for a Python-like language
with `switch`/`case`. The source is `src/Lexer.java` and `src/Token.java`.

The lexer takes the whole source text. It moves a cursor (position, line,
column) over the text and returns a list of tokens that ends with one `EOF`
token. Each turn of its main loop does three things:

- skips spaces, tabs and carriage returns;
- picks a scanner by the current character: comment, identifier/keyword,
  number, string, or operator/symbol;
- collects lexical errors in a list and never aborts.

The model is split into seven modules, one per file.

- `tokens.dfy` (module `Tokens`) holds the `TokenType` enumeration and the
  immutable `Token` record.
- `chars.dfy` (`Chars`) holds the character classes.
- `keywords.dfy` (`Keywords`) holds the keyword table: the puts of the static
  initialiser, in order, read as a map in which a later put replaces an
  earlier one.
- `lex_spec.dfy` (`LexSpec`) is a pure reference lexer. Each scanner is a
  function from the input and a cursor to a `Scan`, which holds the token,
  the diagnostics and the next cursor. `NextStep` is one call of
  `nextToken`. `Lex` is the main loop. `TokenStream` is what `tokenize`
  returns.
- `lexer.dfy` (`Lexing`) holds the class `Lexer`. It has the source's fields
  and a method for `tokenize`, `nextToken`, `skipWhitespace` and each
  scanner, with the source's `while` loops. `peek` is the function `Peek`,
  and `getErrors` is read as the field `errors`. Each method is proved to leave exactly the state, and return exactly the
  token, that the matching `LexSpec` function describes.
- `lex_props.dfy` (`LexProps`) proves what the lexer promises about those
  functions:
  - token shapes and maximal munch;
  - a single EOF token, last;
  - no comments in the output;
  - one diagnostic per ERROR token, plus one unterminated-string
    diagnostic, last, exactly when a literal is left open;
  - line and column bookkeeping;
  - the string escape round trip;
  - the exact lookahead rule.
- `examples.dfy` (`Examples`) holds worked inputs for a cursor on any line
  `n`.

The operator scanner looks two characters ahead of the operator's start, not
one:

- `peek()` reads `input[position + 1]` after the operator's first character
  has already been consumed. A two-character operator is therefore
  recognised when the character two places after its start completes it, and
  the scanner then consumes the operator and whichever character follows it.
- So `x += 1` lexes as IDENTIFIER, PLUS, ASSIGN, INTEGER, not as
  PLUS_ASSIGN (`Examples.PlusAssignTurns`).
- `x==1` gives two ASSIGN tokens, and `= =` gives EQUAL "==" and then
  ASSIGN.
- A two-character operator's text is therefore not always the two
  characters it consumed. `+x=` gives PLUS_ASSIGN "+=" over `+x` and then
  ASSIGN "=", so the token texts do not spell the input back
  (`Examples.SwallowedLetterTurns`). For every other token except STRING
  and NEWLINE the text is exactly the consumed input
  (`LexProps.TextIsConsumedSlice`).

The keyword table names two enumeration constants that the enumeration does
not declare (`BENOUADFEL` and `Yacine`). The model maps the spelling
"BENOUADFEL" to `CUSTOM_NAME` and "Yacine" to `CUSTOM_FIRSTNAME`, the two
custom-name kinds the enumeration does declare.

Diagnostics are structured records rather than formatted French messages:
`InvalidChar(line, column, text)` and `Unterminated(line, column)`. The
token's `value` field is called `text`.

## Model

| member | source | states |
|---|---|---|
| Tokens.TokenAccessors | src/Token.java:98-121 | getType, getValue, getLine and getColumn give back exactly the four constructor arguments |
| Chars.PunctuationIsNotAlphanumeric | src/Lexer.java:116-137 | '#', the quotes, '_', '.', the blanks, the newline and every operator character are neither letters nor digits, so the dispatch order never hides one scanner behind another |
| Keywords.GetFindsLastPut | src/Lexer.java:21-58 | a lookup in the map the puts build succeeds exactly when some put names the text, and then returns the value of the last such put |
| Keywords.KeywordPutsWellFormed | src/Lexer.java:21-58 | no spelling is put twice, and every put names a reserved keyword kind |
| Keywords.KeywordKindSpec | src/Lexer.java:158-163 | `KeywordKind`, the getOrDefault(text, IDENTIFIER) lookup, is IDENTIFIER exactly when text is not a keyword; otherwise it is the kind of the keyword's put, a reserved kind |
| Keywords.KeywordKindOfPut | src/Lexer.java:21-58 | looking up the spelling of any put gives the kind that put names |
| LexSpec.SkipBlanks | src/Lexer.java:375-385 | bounds only: skipping blanks stays within the input, keeps the line and moves the column by the characters skipped (maximality is LexProps.SkipBlanksIsMaximal) |
| LexSpec.IdentEnd | src/Lexer.java:150-156 | bounds only: the identifier run ends between its start and the end of the input (maximality is LexProps.IdentEndIsMaximal) |
| LexSpec.NumberEnd | src/Lexer.java:176-191 | bounds only: the number run ends between its start and the end of the input (its content is LexProps.NumberEndIsMaximal) |
| LexSpec.CommentEnd | src/Lexer.java:363-367 | bounds only: the comment run ends between its start and the end of the input (where it stops is LexProps.CommentEndIsFirstNewline) |
| LexSpec.StringBody | src/Lexer.java:208-218 | bounds only: the closing-quote search ends between its start and the end of the input (its result is LexProps.StringBodyEnds) |
| LexSpec.CommentScan | src/Lexer.java:358-370 | a comment consumes at least its '#' and stays within the input |
| LexSpec.IdentifierScan | src/Lexer.java:144-164 | an identifier consumes at least its first character and stays within the input |
| LexSpec.NumberScan | src/Lexer.java:170-195 | a number consumes at least its first digit and stays within the input |
| LexSpec.StringScan | src/Lexer.java:201-230 | a string consumes at least its opening quote and stays within the input |
| LexSpec.OperatorScan | src/Lexer.java:235-353 | every operator case consumes at least one character and stays within the input |
| LexSpec.Dispatch | src/Lexer.java:112-137 | the scanner the current character picks consumes at least one character |
| LexSpec.NextStep | src/Lexer.java:103-138 | one turn never moves the cursor back or past the end, and consumes at least one character whenever input is left, so the main loop terminates |
| LexSpec.Lex | src/Lexer.java:72-93 | the main loop stops exactly at the end of the input |
| LexSpec.LexFromAppends | src/Lexer.java:73-96 | the loop that appends to the token list and to the errors field appends exactly Lex's tokens and diagnostics to what was there before |
| Lexing.Lexer.constructor | src/Lexer.java:61-67 | a new lexer holds the input, stands at offset 0, line 1, column 1, and has no errors |
| Lexing.Lexer.Tokenize | src/Lexer.java:72-98 | tokenize returns TokenStream of the input from the current cursor, leaves the cursor where Lex ends, and appends Lex's diagnostics to errors |
| Lexing.Lexer.NextToken | src/Lexer.java:103-138 | nextToken returns NextStep's token, or none at the end; it moves the cursor to NextStep's cursor and appends NextStep's diagnostics |
| Lexing.Lexer.SkipWhitespace | src/Lexer.java:375-385 | the loop leaves the cursor at SkipBlanks of where it started and does not touch errors |
| Lexing.Lexer.ScanIdentifier | src/Lexer.java:144-164 | the StringBuilder loop returns IdentifierScan's token, classified by the keyword table, and leaves IdentifierScan's cursor |
| Lexing.Lexer.ScanNumber | src/Lexer.java:170-195 | the digit-and-one-dot loop returns NumberScan's token and leaves NumberScan's cursor |
| Lexing.Lexer.ScanString | src/Lexer.java:201-230 | the escape-handling loop returns StringScan's token, leaves its cursor, and appends its Unterminated diagnostic when no closing quote is found |
| Lexing.Lexer.ScanOperator | src/Lexer.java:235-353 | every case of the switch, including the lookahead through peek, returns OperatorScan's token and leaves OperatorScan's cursor |
| Lexing.Lexer.ScanComment | src/Lexer.java:358-370 | the loop returns CommentScan's token and leaves CommentScan's cursor |
| LexProps.SkipBlanksIsMaximal | src/Lexer.java:375-385 | every skipped character is a space, tab or CR, and the character where skipping stops is none of them |
| LexProps.IdentEndIsMaximal | src/Lexer.java:150-156 | maximal munch: the run holds only letters, digits and '_', and the character after it is none of those |
| LexProps.CommentEndIsFirstNewline | src/Lexer.java:363-367 | a comment stops at the first newline, which is left in place, or at the end of the input |
| LexProps.NumberEndIsMaximal | src/Lexer.java:176-191 | the run holds digits and at most one dot; it stops at a non-digit, and stops at a dot only when a dot was already taken |
| LexProps.StringBodyEnds | src/Lexer.java:208-218 | the body search stops at the closing quote or at the end of the input; the decoded text extends what was gathered, with at most one character per input character |
| LexProps.CommentScanFacts | src/Lexer.java:358-370 | a COMMENT token's text is the input from the '#' up to, not including, the next newline or the end; the column moves by its length |
| LexProps.IdentifierScanFacts | src/Lexer.java:144-164 | an identifier token's text is the maximal identifier-shaped run at the cursor, and its kind is the keyword table's kind for that text, IDENTIFIER or a reserved kind |
| LexProps.NumberScanFacts | src/Lexer.java:170-195 | a number token is digits with at most one dot; it is FLOAT exactly when it holds the dot and INTEGER exactly when not; a second dot is not consumed |
| LexProps.StringScanFacts | src/Lexer.java:201-230 | a string token is always STRING; an Unterminated diagnostic at the opening quote is added if and only if the body runs to the end of the input (`OpenString`), and otherwise the closing quote of the same kind is consumed |
| LexProps.UnclosedStringReported | src/Lexer.java:220-226 | a literal whose opening quote character does not occur again is left open and reported as unterminated at the opening quote |
| LexProps.StringBodyOfEscape | src/Lexer.java:208-218 | the body loop decodes an escaped text back to the text and stops right after it, for any set of escaped characters: every backslash pair gives the character after the backslash |
| LexProps.StringRoundTrip | src/Lexer.java:201-230 | round trip: scanning a quote, the text with the quote, the backslash and any other chosen characters escaped, and the quote gives a STRING token holding exactly the text, reports nothing, and consumes the whole literal |
| LexProps.LoneBackslashRoundTrip | src/Lexer.java:208-226 | a quote, any escaped text and a final lone backslash scans to a STRING holding the text followed by the backslash, consumes the whole input and is reported as unterminated |
| LexProps.OperatorScanFacts | src/Lexer.java:235-353 | a two-character operator is produced exactly when the character two places after the start completes it, and then two characters are consumed; otherwise one; a newline moves to column 1 of the next line |
| LexProps.TwoCharSpelling | src/Lexer.java:239-303 | `TwoCharKind`, the table of two-character operators, is spelled by its two characters: the text of every two-character operator is its first character followed by the lookahead character that completes it |
| LexProps.TextIsConsumedSlice | src/Lexer.java:112-137 | a COMMENT, identifier, keyword, number, symbol or ERROR token's text is exactly the input the scanner consumed; a two-character operator's text is that input if and only if the character after its first equals the one two places on |
| LexProps.OperatorTextSlice | src/Lexer.java:239-303 | a symbol or operator token (not a newline) is spelled by the characters it consumed, except a two-character operator whose second consumed character differs from the lookahead character that completed it |
| LexProps.OneCharSpelling | src/Lexer.java:261-351 | `OneCharKind`, the table of single symbols, maps them one-to-one to their kinds; every other character, a bare '!' included, is an ERROR |
| LexProps.DispatchToken | src/Lexer.java:112-137 | the picked scanner's token starts at the cursor, is never EOF, and consumes at least one character |
| LexProps.DispatchCursor | src/Lexer.java:112-137 | only a NEWLINE token changes the line, by one, with the column reset to 1; every other token moves the column by the characters consumed |
| LexProps.DispatchDiags | src/Lexer.java:112-137 | the only diagnostic a scanner adds is an Unterminated one for a STRING that ran to the end of the input, and it adds one if and only if the character under the cursor opens a literal left open |
| LexProps.NextStepEnd | src/Lexer.java:103-110 | nextToken returns null exactly when only blanks are left, and then adds nothing |
| LexProps.NextStepToken | src/Lexer.java:103-138 | a returned token starts at the first character after the blanks, at the matching column, is not EOF and is consumed |
| LexProps.NextStepCursor | src/Lexer.java:103-138 | the line moves only at a NEWLINE token; otherwise the column moves by every character consumed, blanks included |
| LexProps.NextStepDiags | src/Lexer.java:103-138 | a turn adds no diagnostic, or one Unterminated diagnostic for a STRING token that reached the end of the input; the latter if and only if the first character after the blanks opens a literal left open |
| LexProps.OperatorWellFormed | src/Lexer.java:235-353 | every operator, symbol, newline and error token has the text its kind calls for |
| LexProps.TwoCharTokenWellFormed | src/Lexer.java:239-303 | a two-character operator token is well formed |
| LexProps.OneCharTokenWellFormed | src/Lexer.java:261-351 | a one-character symbol or error token is well formed |
| LexProps.ReservedKindIsKeywordOnly | src/Lexer.java:21-58 | the keyword kinds have no fixed operator spelling and are none of the literal, comment or error kinds |
| LexProps.IdentifierWellFormed | src/Lexer.java:144-164 | an IDENTIFIER token is identifier-shaped and no keyword; a keyword token is spelled as the put that gives its kind |
| LexProps.DispatchWellFormed | src/Lexer.java:112-137 | every token a scanner builds is well formed for its kind |
| LexProps.NextStepWellFormed | src/Lexer.java:103-138 | every token nextToken returns is well formed |
| LexProps.LexTokensWellFormed | src/Lexer.java:72-93 | every token the main loop collects is well formed, and none is COMMENT or EOF |
| LexProps.TokenStreamEndsWithEof | src/Lexer.java:88-97 | `TokenStream`, the result of tokenize, holds exactly one EOF token: the last one, with empty text and the final line and column; no COMMENT token is in it |
| LexProps.LexQuietStep | src/Lexer.java:76-92 | a turn that adds no diagnostic contributes its token (`Emitted`: none for a COMMENT) and, for an ERROR token, its invalid-character diagnostic (`Reported`) in front of the rest of the pass, and does not change whether the pass ends in an open literal |
| LexProps.LexUnterminatedStep | src/Lexer.java:220-226 | a turn that reports an unterminated string ends the pass, with that string as the last token, and the pass then ends in an open literal |
| LexProps.LexDiagnostics | src/Lexer.java:79-86 | the errors are, in order, one InvalidChar per ERROR token with the same line, column and text, then one Unterminated diagnostic for the last token, a STRING, if and only if some turn opens a literal left open (`EndsInOpenString`) |
| LexProps.DiagnosticCount | src/Lexer.java:79-86 | the number of errors is the number of ERROR tokens, plus one if and only if the pass ends in a literal left open |
| LexProps.LexLines | src/Lexer.java:345-347 | the final line is the starting line plus the number of NEWLINE tokens |
| LexProps.LexColumnsWithoutNewline | src/Lexer.java:72-93 | without NEWLINE tokens every consumed character moves the column by one, including a newline inside a string or one swallowed by an operator |
| Examples.AssignmentFirstTurn | src/Token.java:4-7 | on `x = 10` the first turn gives IDENTIFIER "x" at column 1 |
| Examples.AssignmentLaterTurns | src/Token.java:4-7 | on `x = 10` the next turns give ASSIGN "=" at column 3 and INTEGER "10" at column 5 |
| Examples.AssignmentTail | src/Lexer.java:9-10 | on `x = 10` the main loop from column 2 collects ASSIGN and INTEGER and ends at column 7 |
| Examples.AssignmentLex | src/Lexer.java:9-10 | on `x = 10` the main loop collects IDENTIFIER, ASSIGN and INTEGER and reports nothing |
| Examples.AssignmentExample | src/Token.java:4-7 | `x = 10` gives IDENTIFIER "x" (column 1), ASSIGN "=" (3), INTEGER "10" (5), then EOF at column 7, with no errors |
| Examples.PlusAssignTurns | src/Lexer.java:239-248 | on `x += 1` the '+' looks at the blank after the '=', so it gives PLUS and then ASSIGN |
| Examples.AdjacentEqualTurns | src/Lexer.java:273-279 | on `x==1` each '=' gives ASSIGN |
| Examples.SpacedEqualTurns | src/Lexer.java:273-279 | on `= =` the first '=' gives EQUAL "==" and skips the blank; the second '=' gives ASSIGN |
| Examples.NumberTurns | src/Lexer.java:170-195 | `3.14.5` gives FLOAT "3.14", DOT ".", INTEGER "5" |
| Examples.TrailingDotTurn | src/Lexer.java:183-187 | `3.` gives FLOAT "3." |
| Examples.UnterminatedTurn | src/Lexer.java:220-229 | `"hello` gives STRING "hello" and an Unterminated diagnostic at the opening quote |
| Examples.EscapedQuoteTurn | src/Lexer.java:208-218 | `'a\'b'` gives STRING "a'b" and consumes the whole literal |
| Examples.InvalidCharTurn | src/Lexer.java:349-351 | `@` gives an ERROR token "@", which the main loop reports as an invalid character at its line and column |
| Examples.LoneBangTurn | src/Lexer.java:281-287 | a '!' that is not completed two places on gives ERROR "!" |
| Examples.LoneBackslashTurn | src/Lexer.java:210-215 | a backslash that is the last character of an unclosed string is kept |
| Examples.SwallowedLetterTurns | src/Lexer.java:239-243 | on `+x=` the '+' gives PLUS_ASSIGN "+=" over `+x`, then the '=' gives ASSIGN, so the texts do not spell the input |
| Examples.SwallowedNewlineTurn | src/Lexer.java:239-243 | on `+`, newline, `=` the compound assignment swallows the newline and the line does not move |
| Examples.NewlineTurns | src/Lexer.java:345-347 | on `a`, newline, `b` the newline is a token at column 2, and `b` is at column 1 of the next line |
| Examples.CommentTurn | src/Lexer.java:358-370 | `# note` followed by a newline gives a COMMENT that stops before the newline and is not emitted |
| Examples.TrailingBlanksTurn | src/Lexer.java:105-110 | a turn over trailing blanks returns no token and ends at the end of the input |
| Examples.ReservedSpellings | src/Lexer.java:52-57 | True and False are BOOLEAN; BENOUADFEL and Yacine are the two custom-name kinds |
| Examples.CaseSensitiveSpelling | src/Lexer.java:161 | `true` is no keyword: the lookup is case-sensitive |
| Examples.WholeWordSpelling | src/Lexer.java:161 | `switch` is SWITCH but `switcher` is IDENTIFIER: the whole run is looked up |
| Examples.KeywordTurns | src/Lexer.java:144-164 | the identifier scanner gives BOOLEAN for `True` and one IDENTIFIER for `switcher` |

## Left out

- Character classes: `Character.isLetter`, `isDigit` and `isLetterOrDigit`
  are narrowed to ASCII letters and digits. Non-ASCII letters and digits
  become ERROR tokens here, whereas the source scans them as identifiers or
  numbers.
- Java `int` overflow of `line` and `column` is not modelled; they are
  unbounded integers. Java `char` is UTF-16, so characters outside the basic
  plane are surrogate pairs; this is not modelled either.
- Diagnostic text: the `String.format` messages, in French, are replaced by
  the two structured records.
- `Token.toString` is debug output and is left out.
- `getErrors` returns the live list. The model reads the `errors` field
  directly and does not model aliasing of that list.
- The keyword table's `HashMap` and static initialiser are modelled as the
  ordered list of puts, read so that the last put of a spelling wins. No
  spelling is put twice, so the order does not matter.
- `peek` is the function `Lexing.Lexer.Peek` and `LexSpec.PeekAt`, which have
  no contract of their own. The lookahead rule they give is stated in
  `LexProps.OperatorScanFacts`.
- Calling `tokenize` twice on one lexer is allowed by the model: its
  contract holds from whatever cursor the lexer stands at. The properties in
  `LexProps` are stated for any starting cursor.
- Worked examples: the module `Examples` states single turns of the main
  loop for a cursor on any line n. Only `x = 10` is stated as a whole token
  stream; the whole pass is covered by the general lemmas of `LexProps`.
