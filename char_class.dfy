/**
  The byte classes both lexers dispatch on (`isLetter`, `isDigit`,
  `isOperator`, `isPunctuation`, `isUnderscore`, `isWhitespace` and
  `isAlphanumericOrUnderscore`); the two lexer files carry identical copies.
 */
module CharClass {
  import opened Strings

  predicate IsLetter(ch: char) {
    ('a' <= ch <= 'z') || ('A' <= ch <= 'Z')
  }

  predicate IsDigit(ch: char) {
    '0' <= ch <= '9'
  }

  /** `+ - * / % = < > ! & | ^` */
  predicate IsOperator(ch: char) {
    ch == '+' || ch == '-' || ch == '*' || ch == '/' || ch == '%' || ch == '=' ||
    ch == '<' || ch == '>' || ch == '!' || ch == '&' || ch == '|' || ch == '^'
  }

  /** `. , ; : ( ) { } [ ]` */
  predicate IsPunctuation(ch: char) {
    ch == '.' || ch == ',' || ch == ';' || ch == ':' || ch == '(' || ch == ')' ||
    ch == '{' || ch == '}' || ch == '[' || ch == ']'
  }

  predicate IsUnderscore(ch: char) {
    ch == '_'
  }

  /** Space, tab, line feed and carriage return; vertical tab and form feed
      are not in this set, although `TrimSpace` removes them. */
  predicate IsWhitespace(ch: char) {
    ch == ' ' || ch == '\t' || ch == '\n' || ch == '\r'
  }

  predicate IsAlphanumericOrUnderscore(ch: char) {
    IsLetter(ch) || IsDigit(ch) || IsUnderscore(ch)
  }

  /** The classes are pairwise disjoint, and the lexers' white space is the
      trimmed set minus vertical tab and form feed. */
  lemma ClassesDisjoint(ch: char)
    ensures IsAlphanumericOrUnderscore(ch) ==> !IsOperator(ch) && !IsPunctuation(ch) && !IsSpaceByte(ch)
    ensures IsOperator(ch) ==> !IsPunctuation(ch) && !IsSpaceByte(ch)
    ensures IsPunctuation(ch) ==> !IsSpaceByte(ch)
    ensures IsSpaceByte(ch) <==> IsWhitespace(ch) || ch == VerticalTab || ch == FormFeed
  {
  }
}
