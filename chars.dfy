/** Character classes the scanner dispatches on. The source asks the Java
    library (Character.isLetter, isDigit, isLetterOrDigit); this model narrows
    them to ASCII letters and digits. */
module Chars {

  predicate IsLetter(c: char) {
    'a' <= c <= 'z' || 'A' <= c <= 'Z'
  }

  predicate IsDigit(c: char) {
    '0' <= c <= '9'
  }

  predicate IsLetterOrDigit(c: char) {
    IsLetter(c) || IsDigit(c)
  }

  /** The characters skipped between tokens: space, tab and carriage return
      (a newline is a token of its own). */
  predicate IsBlank(c: char) {
    c == ' ' || c == '\t' || c == '\r'
  }

  /** The characters the scanner treats specially: comment, quotes, the
      underscore, the dot, blanks, the newline and the operator characters. */
  const Punctuation: string := "#\"'_. \t\r\n+-*/%=!<>(){}[],:;"

  /** None of them is a letter or a digit, so the dispatch order never hides
      one rule behind another. */
  lemma PunctuationIsNotAlphanumeric()
    ensures forall i :: 0 <= i < |Punctuation| ==>
      !IsLetter(Punctuation[i]) && !IsDigit(Punctuation[i]) && !IsLetterOrDigit(Punctuation[i])
  {
  }
}
