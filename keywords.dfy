/** The static keyword table of src/Lexer.java: a hash map filled by one put
    per keyword, read with getOrDefault(text, IDENTIFIER). Spellings are
    exact and case-sensitive. */
module Keywords {
  import opened Tokens

  /** The put calls of the static initializer, in order. The source names two
      enumeration constants that do not exist (BENOUADFEL and Yacine); they
      are mapped here to the two custom-name kinds that the enumeration does
      declare. */
  const KeywordPuts: seq<(string, TokenType)> := [
    ("switch", SWITCH), ("case", CASE), ("default", DEFAULT), ("break", BREAK),
    ("if", IF), ("elif", ELIF), ("else", ELSE), ("while", WHILE),
    ("for", FOR), ("in", IN), ("range", RANGE),
    ("def", DEF), ("class", CLASS), ("return", RETURN),
    ("continue", CONTINUE), ("pass", PASS),
    ("and", AND), ("or", OR), ("not", NOT),
    ("True", BOOLEAN), ("False", BOOLEAN),
    ("BENOUADFEL", CUSTOM_NAME), ("Yacine", CUSTOM_FIRSTNAME)
  ]

  /** The kinds the keyword table can give. */
  predicate IsReservedKind(k: TokenType) {
    k in {SWITCH, CASE, DEFAULT, BREAK, IF, ELIF, ELSE, WHILE, FOR, IN, RANGE,
          DEF, CLASS, RETURN, CONTINUE, PASS, AND, OR, NOT, BOOLEAN,
          CUSTOM_NAME, CUSTOM_FIRSTNAME}
  }

  /** text is the key of some put. */
  predicate IsKeyword(text: string) {
    exists i :: 0 <= i < |KeywordPuts| && KeywordPuts[i].0 == text
  }

  /** get on the map the puts build: the value of the last put of text, as a
      later put replaces an earlier one. */
  function Get(puts: seq<(string, TokenType)>, text: string): Option<TokenType>
    decreases |puts|
  {
    if puts == [] then None
    else if puts[|puts| - 1].0 == text then Some(puts[|puts| - 1].1)
    else Get(puts[..|puts| - 1], text)
  }

  /** KEYWORDS.getOrDefault(text, IDENTIFIER): the classification of an
      identifier-shaped lexeme. */
  function KeywordKind(text: string): TokenType {
    match Get(KeywordPuts, text)
    case Some(k) => k
    case None => IDENTIFIER
  }

  /** get finds text exactly when some put names it, and then returns the
      value of the last such put. */
  lemma {:induction false} GetFindsLastPut(puts: seq<(string, TokenType)>, text: string)
    ensures Get(puts, text).Some? <==> exists i :: 0 <= i < |puts| && puts[i].0 == text
    ensures Get(puts, text).Some? ==>
      exists i :: 0 <= i < |puts| && puts[i] == (text, Get(puts, text).value)
              && forall j :: i < j < |puts| ==> puts[j].0 != text
    decreases |puts|
  {
    if puts != [] && puts[|puts| - 1].0 != text {
      var init := puts[..|puts| - 1];
      GetFindsLastPut(init, text);
      if exists i :: 0 <= i < |puts| && puts[i].0 == text {
        var i :| 0 <= i < |puts| && puts[i].0 == text;
        assert init[i].0 == text;
      }
      if Get(puts, text).Some? {
        var i :| 0 <= i < |init| && init[i] == (text, Get(init, text).value)
                 && forall j :: i < j < |init| ==> init[j].0 != text;
        assert puts[i] == init[i];
        assert forall j :: i < j < |puts| ==> puts[j].0 != text by {
          forall j | i < j < |puts|
            ensures puts[j].0 != text
          {
            if j < |init| {
              assert puts[j] == init[j];
            }
          }
        }
      }
    }
  }

  /** No spelling is put twice, and every put names a reserved kind. */
  lemma KeywordPutsWellFormed()
    ensures forall a, b :: 0 <= a < b < |KeywordPuts| ==> KeywordPuts[a].0 != KeywordPuts[b].0
    ensures forall i :: 0 <= i < |KeywordPuts| ==> IsReservedKind(KeywordPuts[i].1)
  {
  }

  /** getOrDefault gives IDENTIFIER exactly for the non-keywords, and for a
      keyword the kind its put names, a reserved kind. */
  lemma KeywordKindSpec(text: string)
    ensures KeywordKind(text) == IDENTIFIER <==> !IsKeyword(text)
    ensures KeywordKind(text) == IDENTIFIER || IsReservedKind(KeywordKind(text))
    ensures forall i :: 0 <= i < |KeywordPuts| && KeywordPuts[i].0 == text ==> KeywordKind(text) == KeywordPuts[i].1
  {
    GetFindsLastPut(KeywordPuts, text);
    KeywordPutsWellFormed();
  }

  /** Looking up the spelling of any put gives the kind that put names. */
  lemma KeywordKindOfPut(i: nat)
    requires i < |KeywordPuts|
    ensures KeywordKind(KeywordPuts[i].0) == KeywordPuts[i].1
  {
    KeywordKindSpec(KeywordPuts[i].0);
  }
}
