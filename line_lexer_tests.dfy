/**
  Worked inputs for the earlier lexer: what `generateLineTokens` and
  `GenerateTokens` give on small lines, including the cases where it
  differs from the later lexer (dropped bytes inside a literal, a comment
  byte in the middle of a line, prefixes longer than one byte). Each line is
  taken one literal at a time, and for any line index `l`.
 */
module LineLexerTests {
  import opened Strings
  import opened CharClass
  import opened Tokens
  import opened LineLexer

  /** A literal that starts with a byte that is not white space makes one
      token, followed by the tokens from where the cursor moved to. */
  lemma TokenAt(line: string, prefixes: seq<string>, l: nat, c: nat, literal: string, next: nat)
    requires c < |line| && !IsWhitespace(line[c])
    requires LiteralAt(line, prefixes, c).literal == literal && LiteralAt(line, prefixes, c).next == next
    requires literal != "" && !IsSpaceByte(literal[0])
    ensures LineTokensFrom(line, prefixes, l, c)
      == [GenerateNewToken(literal, c, next, l)] + LineTokensFrom(line, prefixes, l, next)
  {
    LineTokensStep(line, prefixes, l, c);
    TrimSpaceSpec(literal);
  }

  // The `Kind*` lemmas below classify one literal each. They are steps for
  // the examples that follow, kept apart so that each example's proof does
  // not have to unfold `Classify` itself.

  lemma KindAb()
    ensures Classify("ab") == IDENT
  {
  }

  lemma KindDigitsThenLetters()
    ensures Classify("12ab") == INT
  {
  }

  lemma KindOne()
    ensures Classify("1") == INT
  {
  }

  lemma KindDot()
    ensures Classify(".") == DOT
  {
  }

  lemma KindFive()
    ensures Classify("5") == INT
  {
  }

  lemma KindX()
    ensures Classify("x") == IDENT
  {
  }

  lemma KindEqEq()
    ensures Classify("==") == EQ
  {
  }

  lemma KindY()
    ensures Classify("y") == IDENT
  {
  }

  lemma KindA()
    ensures Classify("a") == IDENT
  {
  }

  lemma KindSlash()
    ensures Classify("/") == SLASH
  {
  }

  lemma KindAssign()
    ensures Classify("=") == ASSIGN
  {
  }

  lemma KindBc()
    ensures Classify("bc") == IDENT
  {
  }

  lemma DroppedByteInsideLiteralRun0()
    ensures LiteralAt("a@b", [], 0) == Run("ab", 3, 3)
  {
  }

  lemma DroppedByteInsideLiteralAt0(l: nat)
    ensures LineTokensFrom("a@b", [], l, 0) == [Token(IDENT, "ab", 0, 3, l)] + LineTokensFrom("a@b", [], l, 3)
  {
    DroppedByteInsideLiteralRun0();
    TokenAt("a@b", [], l, 0, "ab", 3);
    KindAb();
  }

  /** A byte of no class inside a run is dropped, but the token's span
      still covers it. */
  lemma DroppedByteInsideLiteral(l: nat)
    ensures LineTokensFrom("a@b", [], l, 0) == [Token(IDENT, "ab", 0, 3, l)]
  {
    DroppedByteInsideLiteralAt0(l);
    assert LineTokensFrom("a@b", [], l, 3) == [];
  }

  lemma RunOfDigitsAndLettersRun0()
    ensures LiteralAt("12ab", [], 0) == Run("12ab", 4, 4)
  {
  }

  lemma RunOfDigitsAndLettersAt0(l: nat)
    ensures LineTokensFrom("12ab", [], l, 0) == [Token(INT, "12ab", 0, 4, l)] + LineTokensFrom("12ab", [], l, 4)
  {
    RunOfDigitsAndLettersRun0();
    TokenAt("12ab", [], l, 0, "12ab", 4);
    KindDigitsThenLetters();
  }

  /** Digits and letters run together into one literal, classified by its
      first byte. */
  lemma RunOfDigitsAndLetters(l: nat)
    ensures LineTokensFrom("12ab", [], l, 0) == [Token(INT, "12ab", 0, 4, l)]
  {
    RunOfDigitsAndLettersAt0(l);
    assert LineTokensFrom("12ab", [], l, 4) == [];
  }

  lemma DecimalIsThreeTokensRun0()
    ensures LiteralAt("1.5", [], 0) == Run("1", 1, 1)
  {
  }

  lemma DecimalIsThreeTokensAt0(l: nat)
    ensures LineTokensFrom("1.5", [], l, 0) == [Token(INT, "1", 0, 1, l)] + LineTokensFrom("1.5", [], l, 1)
  {
    DecimalIsThreeTokensRun0();
    TokenAt("1.5", [], l, 0, "1", 1);
    KindOne();
  }

  lemma DecimalIsThreeTokensRun1()
    ensures LiteralAt("1.5", [], 1) == Run(".", 2, 2)
  {
  }

  lemma DecimalIsThreeTokensAt1(l: nat)
    ensures LineTokensFrom("1.5", [], l, 1) == [Token(DOT, ".", 1, 2, l)] + LineTokensFrom("1.5", [], l, 2)
  {
    DecimalIsThreeTokensRun1();
    TokenAt("1.5", [], l, 1, ".", 2);
    KindDot();
  }

  lemma DecimalIsThreeTokensRun2()
    ensures LiteralAt("1.5", [], 2) == Run("5", 3, 3)
  {
  }

  lemma DecimalIsThreeTokensAt2(l: nat)
    ensures LineTokensFrom("1.5", [], l, 2) == [Token(INT, "5", 2, 3, l)] + LineTokensFrom("1.5", [], l, 3)
  {
    DecimalIsThreeTokensRun2();
    TokenAt("1.5", [], l, 2, "5", 3);
    KindFive();
  }

  /** A decimal point is punctuation: `1.5` is three tokens. */
  lemma DecimalIsThreeTokens(l: nat)
    ensures LineTokensFrom("1.5", [], l, 0) == [Token(INT, "1", 0, 1, l), Token(DOT, ".", 1, 2, l), Token(INT, "5", 2, 3, l)]
  {
    DecimalIsThreeTokensAt0(l);
    DecimalIsThreeTokensAt1(l);
    DecimalIsThreeTokensAt2(l);
    assert LineTokensFrom("1.5", [], l, 3) == [];
  }

  lemma EqualityBetweenIdentifiersRun0()
    ensures LiteralAt("x==y", [], 0) == Run("x", 1, 1)
  {
  }

  lemma EqualityBetweenIdentifiersAt0(l: nat)
    ensures LineTokensFrom("x==y", [], l, 0) == [Token(IDENT, "x", 0, 1, l)] + LineTokensFrom("x==y", [], l, 1)
  {
    EqualityBetweenIdentifiersRun0();
    TokenAt("x==y", [], l, 0, "x", 1);
    KindX();
  }

  lemma EqualityBetweenIdentifiersRun1()
    ensures LiteralAt("x==y", [], 1) == Run("==", 3, 3)
  {
  }

  lemma EqualityBetweenIdentifiersAt1(l: nat)
    ensures LineTokensFrom("x==y", [], l, 1) == [Token(EQ, "==", 1, 3, l)] + LineTokensFrom("x==y", [], l, 3)
  {
    EqualityBetweenIdentifiersRun1();
    TokenAt("x==y", [], l, 1, "==", 3);
    KindEqEq();
  }

  lemma EqualityBetweenIdentifiersRun3()
    ensures LiteralAt("x==y", [], 3) == Run("y", 4, 4)
  {
  }

  lemma EqualityBetweenIdentifiersAt3(l: nat)
    ensures LineTokensFrom("x==y", [], l, 3) == [Token(IDENT, "y", 3, 4, l)] + LineTokensFrom("x==y", [], l, 4)
  {
    EqualityBetweenIdentifiersRun3();
    TokenAt("x==y", [], l, 3, "y", 4);
    KindY();
  }

  /** `==` is taken whole, between two identifiers. */
  lemma EqualityBetweenIdentifiers(l: nat)
    ensures LineTokensFrom("x==y", [], l, 0) == [Token(IDENT, "x", 0, 1, l), Token(EQ, "==", 1, 3, l), Token(IDENT, "y", 3, 4, l)]
  {
    EqualityBetweenIdentifiersAt0(l);
    EqualityBetweenIdentifiersAt1(l);
    EqualityBetweenIdentifiersAt3(l);
    assert LineTokensFrom("x==y", [], l, 4) == [];
  }

  lemma CommentByteEndsLineRun0()
    ensures LiteralAt("a#b c", ["#"], 0) == Run("a", 5, 1)
  {
  }

  lemma CommentByteEndsLineAt0(l: nat)
    ensures LineTokensFrom("a#b c", ["#"], l, 0) == [Token(IDENT, "a", 0, 5, l)] + LineTokensFrom("a#b c", ["#"], l, 5)
  {
    CommentByteEndsLineRun0();
    TokenAt("a#b c", ["#"], l, 0, "a", 5);
    KindA();
  }

  /** A one-byte comment prefix in the middle of a run ends the line: the
      run's token keeps what was gathered and ends at the end of the line. */
  lemma CommentByteEndsLine(l: nat)
    ensures LineTokensFrom("a#b c", ["#"], l, 0) == [Token(IDENT, "a", 0, 5, l)]
  {
    CommentByteEndsLineAt0(l);
    assert LineTokensFrom("a#b c", ["#"], l, 5) == [];
  }

  lemma SlashSlashIsTwoOperatorsRun0()
    ensures LiteralAt("//", ["//"], 0) == Run("/", 1, 1)
  {
  }

  lemma SlashSlashIsTwoOperatorsAt0(l: nat)
    ensures LineTokensFrom("//", ["//"], l, 0) == [Token(SLASH, "/", 0, 1, l)] + LineTokensFrom("//", ["//"], l, 1)
  {
    SlashSlashIsTwoOperatorsRun0();
    TokenAt("//", ["//"], l, 0, "/", 1);
    KindSlash();
  }

  lemma SlashSlashIsTwoOperatorsRun1()
    ensures LiteralAt("//", ["//"], 1) == Run("/", 2, 2)
  {
  }

  lemma SlashSlashIsTwoOperatorsAt1(l: nat)
    ensures LineTokensFrom("//", ["//"], l, 1) == [Token(SLASH, "/", 1, 2, l)] + LineTokensFrom("//", ["//"], l, 2)
  {
    SlashSlashIsTwoOperatorsRun1();
    TokenAt("//", ["//"], l, 1, "/", 2);
    KindSlash();
  }

  /** `//` as a comment prefix never matches, so a `//` line is lexed like
      any other. */
  lemma SlashSlashIsTwoOperators(l: nat)
    ensures LineTokensFrom("//", ["//"], l, 0) == [Token(SLASH, "/", 0, 1, l), Token(SLASH, "/", 1, 2, l)]
  {
    SlashSlashIsTwoOperatorsAt0(l);
    SlashSlashIsTwoOperatorsAt1(l);
    assert LineTokensFrom("//", ["//"], l, 2) == [];
  }

  lemma AssignmentLineRun0()
    ensures LiteralAt("x = 1", [], 0) == Run("x", 1, 1)
  {
  }

  lemma AssignmentLineAt0(l: nat)
    ensures LineTokensFrom("x = 1", [], l, 0) == [Token(IDENT, "x", 0, 1, l)] + LineTokensFrom("x = 1", [], l, 1)
  {
    AssignmentLineRun0();
    TokenAt("x = 1", [], l, 0, "x", 1);
    KindX();
  }

  lemma AssignmentLineRun2()
    ensures LiteralAt("x = 1", [], 2) == Run("=", 3, 3)
  {
  }

  lemma AssignmentLineAt2(l: nat)
    ensures LineTokensFrom("x = 1", [], l, 2) == [Token(ASSIGN, "=", 2, 3, l)] + LineTokensFrom("x = 1", [], l, 3)
  {
    AssignmentLineRun2();
    TokenAt("x = 1", [], l, 2, "=", 3);
    KindAssign();
  }

  lemma AssignmentLineRun4()
    ensures LiteralAt("x = 1", [], 4) == Run("1", 5, 5)
  {
  }

  lemma AssignmentLineAt4(l: nat)
    ensures LineTokensFrom("x = 1", [], l, 4) == [Token(INT, "1", 4, 5, l)] + LineTokensFrom("x = 1", [], l, 5)
  {
    AssignmentLineRun4();
    TokenAt("x = 1", [], l, 4, "1", 5);
    KindOne();
  }

  /** White space between literals is skipped. */
  lemma AssignmentLine(l: nat)
    ensures LineTokensFrom("x = 1", [], l, 0) == [Token(IDENT, "x", 0, 1, l), Token(ASSIGN, "=", 2, 3, l), Token(INT, "1", 4, 5, l)]
  {
    AssignmentLineAt0(l);
    AssignmentLineAt2(l);
    AssignmentLineAt4(l);
    assert LineTokensFrom("x = 1", [], l, 1) == LineTokensFrom("x = 1", [], l, 2);
    assert LineTokensFrom("x = 1", [], l, 3) == LineTokensFrom("x = 1", [], l, 4);
    assert LineTokensFrom("x = 1", [], l, 5) == [];
  }

  lemma FirstOfTwoLinesRun0()
    ensures LiteralAt("a", [], 0) == Run("a", 1, 1)
  {
  }

  lemma FirstOfTwoLinesAt0(l: nat)
    ensures LineTokensFrom("a", [], l, 0) == [Token(IDENT, "a", 0, 1, l)] + LineTokensFrom("a", [], l, 1)
  {
    FirstOfTwoLinesRun0();
    TokenAt("a", [], l, 0, "a", 1);
    KindA();
  }

  /** The lines of the two-line input below. */
  lemma FirstOfTwoLines(l: nat)
    ensures LineTokensFrom("a", [], l, 0) == [Token(IDENT, "a", 0, 1, l)]
  {
    FirstOfTwoLinesAt0(l);
    assert LineTokensFrom("a", [], l, 1) == [];
  }

  lemma SecondOfTwoLinesRun0()
    ensures LiteralAt("bc", [], 0) == Run("bc", 2, 2)
  {
  }

  lemma SecondOfTwoLinesAt0(l: nat)
    ensures LineTokensFrom("bc", [], l, 0) == [Token(IDENT, "bc", 0, 2, l)] + LineTokensFrom("bc", [], l, 2)
  {
    SecondOfTwoLinesRun0();
    TokenAt("bc", [], l, 0, "bc", 2);
    KindBc();
  }


  lemma SecondOfTwoLines(l: nat)
    ensures LineTokensFrom("bc", [], l, 0) == [Token(IDENT, "bc", 0, 2, l)]
  {
    SecondOfTwoLinesAt0(l);
    assert LineTokensFrom("bc", [], l, 2) == [];
  }

  /** A line of bytes of no class gives no token at all. */
  lemma OnlyDroppedBytes(l: nat)
    ensures LineTokensFrom("@", [], l, 0) == []
  {
    assert LiteralAt("@", [], 0) == Run("", 1, 1);
    assert TrimSpace("") == "";
  }

  /** The empty input has no line at all: only `EOF` at column 0, line 0. */
  lemma EmptyInputIsEof(prefixes: seq<string>)
    ensures TokensOf(ScanLines(""), prefixes, 0, 0) == [Token(EOF, "", 0, 0, 0)]
  {
  }

  /** CR LF ends a line like LF, and the last line needs no line feed. */
  lemma CrLfLines()
    ensures ScanLines("a\r\nbc") == ["a", "bc"]
  {
    var s := "a\r\nbc";
    assert LineEnd(s, 0) == 2;
    assert DropCR(s[..2]) == "a";
    assert s[3..] == "bc";
    assert LineEnd("bc", 0) == 2;
  }

  /** Two lines, the first ended by CR LF: each token carries its line, and
      `EOF` sits on the line after the last one, at that line's length. */
  lemma TwoLines()
    ensures TokensOf(ScanLines("a\r\nbc"), [], 0, 0)
      == [Token(IDENT, "a", 0, 1, 0), Token(IDENT, "bc", 0, 2, 1), Token(EOF, "", 2, 2, 2)]
  {
    CrLfLines();
    FirstOfTwoLines(0);
    SecondOfTwoLines(1);
    assert LinesTokens(["bc"], [], 1) == [Token(IDENT, "bc", 0, 2, 1)];
    assert LinesTokens(["a", "bc"], [], 0) == [Token(IDENT, "a", 0, 1, 0), Token(IDENT, "bc", 0, 2, 1)];
  }

  lemma OneLine()
    ensures ScanLines("x = 1") == ["x = 1"]
  {
    assert LineEnd("x = 1", 0) == 5;
  }

  /** The lexer object runs the same way: a fresh lexer over `x = 1` gives
      the three tokens and `EOF` on the line after. */
  method LexOneLine() returns (tokens: seq<Token>)
    ensures tokens == [Token(IDENT, "x", 0, 1, 0), Token(ASSIGN, "=", 2, 3, 0), Token(INT, "1", 4, 5, 0), Token(EOF, "", 5, 5, 1)]
  {
    var lexer := new DraskenLexer("x = 1", []);
    tokens := lexer.GenerateTokens();
    OneLine();
    AssignmentLine(0);
    assert LinesTokens(["x = 1"], [], 0) == LineTokensFrom("x = 1", [], 0, 0);
  }
}
