/**
  The line-splitting scanner: `DraskenLexer` with its two cursors
  (`columnPosition`, `linePosition`), `GenerateTokens`, `generateLiteral` and
  `shouldSkipLine`.

  The functions below are the specification the methods are proved against;
  they follow the scanner's loops step by step. `ScanFrom` is the loop over
  lines and `ScanLine` the loop over the columns of one line's text. After a
  backtick raw string that crosses lines, `ScanLine` goes on reading the text
  of the line where the raw string opened, at the column where it closed,
  while `RawFrom` reads the line the line cursor points at. Tokens made there
  carry the closing line's index.
 */
module Lexer {
  import opened Strings
  import opened CharClass
  import opened Tokens

  // ---------------------------------------------------------------------
  // Comment lines

  /** `shouldSkipLine`: the trimmed line starts with one of the prefixes. */
  function ShouldSkipLine(prefixes: seq<string>, line: string): (r: bool)
    ensures r <==> exists p :: p in prefixes && p <= TrimSpace(line)
    ensures "" in prefixes ==> r
    ensures prefixes == [] ==> !r
  {
    HasAnyPrefix(TrimSpace(line), prefixes)
  }

  // ---------------------------------------------------------------------
  // Literal extraction (`generateLiteral`)

  /** The column just past a quoted string whose body starts at `i`. */
  function QuoteEnd(line: string, quote: char, i: nat): (e: nat)
    requires i <= |line|
    ensures i <= e <= |line|
    decreases |line| - i
  {
    if i == |line| then i
    else if line[i] == quote then i + 1
    else QuoteEnd(line, quote, i + 1)
  }

  /** A quoted string ends just past the first `quote` byte from `i` on, or
      at the end of the line when there is none; no other byte closes it. */
  lemma {:induction false} QuoteSpan(line: string, quote: char, i: nat)
    requires i <= |line|
    ensures var e := QuoteEnd(line, quote, i);
      && (forall j :: i <= j < e - 1 ==> line[j] != quote)
      && ((e == |line| && forall j :: i <= j < |line| ==> line[j] != quote) ||
          (i < e && line[e - 1] == quote))
    decreases |line| - i
  {
    if i < |line| && line[i] != quote {
      QuoteSpan(line, quote, i + 1);
    }
  }

  /** The column where a number starting at `i` stops (`hasDot` says
      whether a dot was taken already). */
  function NumberEnd(line: string, i: nat, hasDot: bool): (e: nat)
    requires i <= |line|
    ensures i <= e <= |line|
    decreases |line| - i
  {
    if i == |line| then i
    else if line[i] == '.' then
      if hasDot then i else NumberEnd(line, i + 1, true)
    else if !IsDigit(line[i]) then i
    else NumberEnd(line, i + 1, hasDot)
  }

  /** A number takes digits and at most one `.` in all, and stops at the
      first byte that is neither a digit nor an admissible dot. */
  lemma {:induction false} NumberSpan(line: string, i: nat, hasDot: bool)
    requires i <= |line|
    ensures var e := NumberEnd(line, i, hasDot);
      && (forall j :: i <= j < e ==> IsDigit(line[j]) || line[j] == '.')
      && (forall j, k :: i <= j < k < e ==> !(line[j] == '.' && line[k] == '.'))
      && (hasDot ==> forall j :: i <= j < e ==> line[j] != '.')
      && (e < |line| ==> !IsDigit(line[e]))
      && (e < |line| && line[e] == '.' ==> hasDot || exists j :: i <= j < e && line[j] == '.')
    decreases |line| - i
  {
    if i < |line| {
      if line[i] == '.' && !hasDot {
        NumberSpan(line, i + 1, true);
      } else if line[i] != '.' && IsDigit(line[i]) {
        NumberSpan(line, i + 1, hasDot);
      }
    }
  }

  /** The column where a run of letters, digits and underscores from `i`
      stops. */
  function IdentEnd(line: string, i: nat): (e: nat)
    requires i <= |line|
    ensures i <= e <= |line|
    decreases |line| - i
  {
    if i < |line| && IsAlphanumericOrUnderscore(line[i]) then IdentEnd(line, i + 1) else i
  }

  /** An identifier run is maximal: all its bytes are letters, digits or
      underscores, and so is not the byte after it. */
  lemma {:induction false} IdentSpan(line: string, i: nat)
    requires i <= |line|
    ensures var e := IdentEnd(line, i);
      && (forall j :: i <= j < e ==> IsAlphanumericOrUnderscore(line[j]))
      && (e < |line| ==> !IsAlphanumericOrUnderscore(line[e]))
    decreases |line| - i
  {
    if i < |line| && IsAlphanumericOrUnderscore(line[i]) {
      IdentSpan(line, i + 1);
    }
  }

  /** Where `generateLiteral` leaves the column when called at `start`; the
      literal it returns is always `line[start..LiteralEnd(line, start)]`. */
  function LiteralEnd(line: string, start: nat): (e: nat)
    requires start < |line|
    ensures start < e <= |line|
    ensures line[start] == '"' || line[start] == '\'' ==> e == QuoteEnd(line, line[start], start + 1)
    ensures IsDigit(line[start]) || (line[start] == '.' && start + 1 < |line| && IsDigit(line[start + 1]))
            ==> e == NumberEnd(line, start, false)
    ensures IsLetter(line[start]) || line[start] == '_' ==> e == IdentEnd(line, start)
    ensures line[start] == '=' && start + 1 < |line| && line[start + 1] == '=' ==> e == start + 2
    ensures IsOperator(line[start]) && !(line[start] == '=' && start + 1 < |line| && line[start + 1] == '=') ==> e == start + 1
    ensures IsPunctuation(line[start]) && !(line[start] == '.' && start + 1 < |line| && IsDigit(line[start + 1])) ==> e == start + 1
    ensures (&& line[start] != '"' && line[start] != '\'' && !IsDigit(line[start])
             && !(line[start] == '.' && start + 1 < |line| && IsDigit(line[start + 1]))
             && !IsLetter(line[start]) && line[start] != '_'
             && !(line[start] == '=' && start + 1 < |line| && line[start + 1] == '='))
            ==> e == start + 1
  {
    var ch := line[start];
    if ch == '"' || ch == '\'' then QuoteEnd(line, ch, start + 1)
    else if IsDigit(ch) || (ch == '.' && start + 1 < |line| && IsDigit(line[start + 1])) then
      NumberEnd(line, start, false)
    else if IsLetter(ch) || ch == '_' then IdentEnd(line, start)
    else if IsOperator(ch) then
      if ch == '=' && start + 1 < |line| && line[start + 1] == '=' then start + 2 else start + 1
    else start + 1
  }

  // ---------------------------------------------------------------------
  // Backtick raw strings

  /** What the raw-string loop has read when it stops: the text after the
      opening backtick (a line feed for each line break crossed, the closing
      backtick included when there is one), and the line and column cursors. */
  datatype Raw = Raw(body: string, line: nat, col: nat)

  /** The raw-string loop from line `l`, column `c`: it reads `lines[l]`
      byte by byte up to and including a backtick, and on reaching the end
      of that line appends a line feed and moves to column 0 of the next. */
  function RawFrom(lines: seq<string>, l: nat, c: nat): (r: Raw)
    requires l <= |lines|
    ensures l <= r.line <= |lines|
    ensures r.line == l ==> r.col >= c
    decreases |lines| - l, if l < |lines| && c < |lines[l]| then |lines[l]| - c else 0
  {
    if l == |lines| then Raw("", l, c)
    else if c < |lines[l]| then
      if lines[l][c] == '`' then Raw("`", l, c + 1)
      else
        var r := RawFrom(lines, l, c + 1);
        Raw([lines[l][c]] + r.body, r.line, r.col)
    else
      var r := RawFrom(lines, l + 1, 0);
      Raw("\n" + r.body, r.line, r.col)
  }

  /** What the raw-string loop reads: up to its stop it meets no backtick
      but the closing one. When it stops on a line of the input, the byte
      before the column cursor is that closing backtick, which ends the body;
      when it runs off the end of the input, the body holds no backtick. */
  lemma {:induction false} RawFromShape(lines: seq<string>, l: nat, c: nat)
    requires l <= |lines|
    ensures var r := RawFrom(lines, l, c);
      && (r.line < |lines| ==>
            && 1 <= r.col <= |lines[r.line]| && lines[r.line][r.col - 1] == '`'
            && r.body != [] && r.body[|r.body| - 1] == '`'
            && '`' !in r.body[..|r.body| - 1])
      && (r.line == |lines| ==> '`' !in r.body)
    decreases |lines| - l, if l < |lines| && c < |lines[l]| then |lines[l]| - c else 0
  {
    if l < |lines| {
      if c < |lines[l]| {
        if lines[l][c] != '`' {
          RawFromShape(lines, l, c + 1);
          var r := RawFrom(lines, l, c + 1);
          if r.line < |lines| {
            assert ([lines[l][c]] + r.body)[..|r.body|] == [lines[l][c]] + r.body[..|r.body| - 1];
          }
        }
      } else {
        RawFromShape(lines, l + 1, 0);
        var r := RawFrom(lines, l + 1, 0);
        if r.line < |lines| {
          assert ("\n" + r.body)[..|r.body|] == "\n" + r.body[..|r.body| - 1];
        }
      }
    }
  }

  /** A raw string closed on its own line: the loop stops on that line just
      past the first backtick from column `c`, and has read the bytes up to
      and including it. */
  lemma {:induction false} RawSameLine(lines: seq<string>, l: nat, c: nat, d: nat)
    requires l < |lines| && c <= d < |lines[l]| && lines[l][d] == '`'
    requires forall k :: c <= k < d ==> lines[l][k] != '`'
    ensures RawFrom(lines, l, c) == Raw(lines[l][c..d + 1], l, d + 1)
    decreases d - c
  {
    if c < d {
      RawSameLine(lines, l, c + 1, d);
      assert lines[l][c..d + 1] == [lines[l][c]] + lines[l][c + 1..d + 1];
    }
  }

  /** A line with no backtick after column `c`: the loop reads the rest of
      it, a line feed for the break, and goes on at column 0 of the next
      line. */
  lemma {:induction false} RawNextLine(lines: seq<string>, l: nat, c: nat)
    requires l < |lines| && c <= |lines[l]| && '`' !in lines[l][c..]
    ensures var r := RawFrom(lines, l + 1, 0);
      RawFrom(lines, l, c) == Raw(lines[l][c..] + "\n" + r.body, r.line, r.col)
    decreases |lines[l]| - c
  {
    if c < |lines[l]| {
      assert lines[l][c] in lines[l][c..];
      assert lines[l][c + 1..] == lines[l][c..][1..];
      RawNextLine(lines, l, c + 1);
      assert lines[l][c..] == [lines[l][c]] + lines[l][c + 1..];
    }
  }

  /** The lines from `l` on, each followed by a line feed. */
  function LinesAfter(lines: seq<string>, l: nat): string
    decreases |lines| - l
  {
    if l >= |lines| then "" else lines[l] + "\n" + LinesAfter(lines, l + 1)
  }

  /** A raw string never closed: the loop reads the rest of the opening
      line and every later line, a line feed after each, and stops at
      column 0 one past the last line. */
  lemma {:induction false} RawUnterminated(lines: seq<string>, l: nat, c: nat)
    requires l < |lines| && c <= |lines[l]| && '`' !in lines[l][c..]
    requires forall i :: l < i < |lines| ==> '`' !in lines[i]
    ensures RawFrom(lines, l, c) == Raw(lines[l][c..] + "\n" + LinesAfter(lines, l + 1), |lines|, 0)
    decreases |lines| - l
  {
    RawNextLine(lines, l, c);
    if l + 1 < |lines| {
      assert lines[l + 1][0..] == lines[l + 1];
      RawUnterminated(lines, l + 1, 0);
    }
  }

  // ---------------------------------------------------------------------
  // The scan as a whole (`GenerateTokens`)

  /** The scanner's state when the loop over lines is done: the tokens
      emitted and the two cursors. */
  datatype ScanState = ScanState(tokens: seq<Token>, line: nat, col: nat)

  /** The properties every emitted token has: it is never `EOF`; a raw
      string is a `STRING` token starting with a backtick; any other token
      spans a non-empty column range as long as its literal, and its kind is
      the classification of its literal. */
  predicate WellFormed(t: Token) {
    && t.tokenType != EOF
    && t.literal != ""
    && (t.tokenType == STRING ==> t.literal[0] == '`')
    && (t.tokenType != STRING ==>
          && 0 <= t.start < t.end
          && t.end - t.start == |t.literal|
          && t.tokenType == Classify(t.literal))
  }

  /** The loop over lines from line `l`, with the column cursor at `c` and
      the tokens `acc` emitted so far. A comment line is passed over without
      touching the column cursor; any other line is scanned from column 0. */
  function ScanFrom(lines: seq<string>, prefixes: seq<string>, l: nat, c: nat, acc: seq<Token>): ScanState
    decreases |lines| + 1 - l, 1, 0
  {
    if l >= |lines| then ScanState(acc, l, c)
    else if ShouldSkipLine(prefixes, lines[l]) then ScanFrom(lines, prefixes, l + 1, c, acc)
    else ScanLine(lines, prefixes, lines[l], l, 0, acc)
  }

  /** The loop over the columns of `text` from column `c`, with the line
      cursor at `l`; `text` is the line the loop was entered for, which the
      raw-string loop does not change. */
  function ScanLine(lines: seq<string>, prefixes: seq<string>, text: string, l: nat, c: nat, acc: seq<Token>): ScanState
    requires l <= |lines|
    decreases |lines| + 1 - l, 0, |text| - c
  {
    if c >= |text| then ScanFrom(lines, prefixes, l + 1, c, acc)
    else if IsWhitespace(text[c]) then ScanLine(lines, prefixes, text, l, c + 1, acc)
    else if text[c] == '`' then
      var r := RawFrom(lines, l, c + 1);
      ScanLine(lines, prefixes, text, r.line, r.col, acc + [Token(STRING, "`" + r.body, c, r.col, l)])
    else
      var e := LiteralEnd(text, c);
      var literal := text[c..e];
      var acc' := if TrimSpace(literal) != "" then acc + [GenerateNewToken(literal, c, e, l)] else acc;
      ScanLine(lines, prefixes, text, l, e, acc')
  }

  /** The end-of-input token at the final cursors. */
  function EofToken(s: ScanState): Token {
    Token(EOF, "", s.col, s.col, s.line)
  }

  /** What `GenerateTokens` returns for `input`, starting with the cursors at
      line `l` and column `c` (both 0 on a fresh lexer). */
  function Tokenize(input: string, prefixes: seq<string>, l: nat, c: nat): (ts: seq<Token>)
  {
    var s := ScanFrom(Split(input), prefixes, l, c, []);
    s.tokens + [EofToken(s)]
  }

  /** The line loop at a line that is not a comment line scans it from
      column 0. */
  lemma ScanFromLine(lines: seq<string>, prefixes: seq<string>, l: nat, c: nat, acc: seq<Token>)
    requires l < |lines| && !ShouldSkipLine(prefixes, lines[l])
    ensures ScanFrom(lines, prefixes, l, c, acc) == ScanLine(lines, prefixes, lines[l], l, 0, acc)
  {
  }

  /** The column loop ends at the end of the text; past the last line the
      scan is over, with the cursors where they are. */
  lemma ScanLineDone(lines: seq<string>, prefixes: seq<string>, text: string, l: nat, c: nat, acc: seq<Token>)
    requires |lines| <= l + 1 && l <= |lines| && c >= |text|
    ensures ScanLine(lines, prefixes, text, l, c, acc) == ScanState(acc, l + 1, c)
  {
  }

  /** One step of the column loop at a backtick: a `STRING` token from the
      backtick to where the raw-string loop stops, on the opening line. */
  lemma ScanLineRaw(lines: seq<string>, prefixes: seq<string>, text: string, l: nat, c: nat, acc: seq<Token>)
    requires l <= |lines| && c < |text| && text[c] == '`'
    ensures var r := RawFrom(lines, l, c + 1);
      ScanLine(lines, prefixes, text, l, c, acc)
        == ScanLine(lines, prefixes, text, r.line, r.col, acc + [Token(STRING, "`" + r.body, c, r.col, l)])
  {
  }

  /** One step of the column loop at a byte that starts a literal: the
      classified literal, unless it trims to nothing. */
  lemma ScanLineLiteral(lines: seq<string>, prefixes: seq<string>, text: string, l: nat, c: nat, acc: seq<Token>)
    requires l <= |lines| && c < |text| && !IsWhitespace(text[c]) && text[c] != '`'
    ensures var e := LiteralEnd(text, c);
      ScanLine(lines, prefixes, text, l, c, acc)
        == ScanLine(lines, prefixes, text, l, e,
             if TrimSpace(text[c..e]) != "" then acc + [GenerateNewToken(text[c..e], c, e, l)] else acc)
  {
  }

  /** A vertical tab or form feed is not white space for the column loop:
      `generateLiteral` consumes it alone, but it trims to nothing, so no
      token is emitted and the loop goes on at the next column. */
  lemma ScanLineTrimmedByte(lines: seq<string>, prefixes: seq<string>, text: string, l: nat, c: nat, acc: seq<Token>)
    requires l <= |lines| && c < |text| && (text[c] == VerticalTab || text[c] == FormFeed)
    ensures LiteralEnd(text, c) == c + 1
    ensures ScanLine(lines, prefixes, text, l, c, acc) == ScanLine(lines, prefixes, text, l, c + 1, acc)
  {
    assert text[c..c + 1] == [text[c]];
    TrimSpaceOfByte(text[c]);
  }

  /** The same step for a literal known to be a token `tok` ending at
      column `e`. */
  lemma ScanLineToken(lines: seq<string>, prefixes: seq<string>, text: string, l: nat, c: nat, e: nat, acc: seq<Token>, tok: Token)
    requires l <= |lines| && c < |text| && !IsWhitespace(text[c]) && text[c] != '`'
    requires e == LiteralEnd(text, c) && TrimSpace(text[c..e]) != "" && tok == GenerateNewToken(text[c..e], c, e, l)
    ensures ScanLine(lines, prefixes, text, l, c, acc) == ScanLine(lines, prefixes, text, l, e, acc + [tok])
  {
    ScanLineLiteral(lines, prefixes, text, l, c, acc);
  }

  /** The column loop ends at the end of the text, and the line loop goes on
      with the next line. */
  lemma ScanLineEnd(lines: seq<string>, prefixes: seq<string>, text: string, l: nat, c: nat, acc: seq<Token>)
    requires l <= |lines| && c >= |text|
    ensures ScanLine(lines, prefixes, text, l, c, acc) == ScanFrom(lines, prefixes, l + 1, c, acc)
  {
  }

  /** `ts` is `acc` followed by well-formed tokens only. */
  ghost predicate Extends(acc: seq<Token>, ts: seq<Token>) {
    acc <= ts && forall i :: |acc| <= i < |ts| ==> WellFormed(ts[i])
  }

  lemma ExtendsStep(acc: seq<Token>, t: Token, ts: seq<Token>)
    requires WellFormed(t) && Extends(acc + [t], ts)
    ensures Extends(acc, ts)
  {
    assert acc <= acc + [t];
  }

  /** Every scan keeps the tokens it was given as a prefix, adds only
      well-formed tokens, and stops with the line cursor at or past the last
      line: one past it only after a raw string left open at the end of the
      input. */
  lemma {:induction false} ScanFromWellFormed(lines: seq<string>, prefixes: seq<string>, l: nat, c: nat, acc: seq<Token>)
    ensures var s := ScanFrom(lines, prefixes, l, c, acc);
      && Extends(acc, s.tokens)
      && (l >= |lines| ==> s == ScanState(acc, l, c))
      && (l <= |lines| ==> |lines| <= s.line <= |lines| + 1)
    decreases |lines| + 1 - l, 1, 0
  {
    if l < |lines| {
      if ShouldSkipLine(prefixes, lines[l]) {
        ScanFromWellFormed(lines, prefixes, l + 1, c, acc);
      } else {
        ScanLineWellFormed(lines, prefixes, lines[l], l, 0, acc);
      }
    }
  }

  /** The same for the loop over the columns of one line. */
  lemma {:induction false} ScanLineWellFormed(lines: seq<string>, prefixes: seq<string>, text: string, l: nat, c: nat, acc: seq<Token>)
    requires l <= |lines|
    ensures var s := ScanLine(lines, prefixes, text, l, c, acc);
      && Extends(acc, s.tokens)
      && |lines| <= s.line <= |lines| + 1
    decreases |lines| + 1 - l, 0, |text| - c
  {
    if c >= |text| {
      ScanFromWellFormed(lines, prefixes, l + 1, c, acc);
    } else if IsWhitespace(text[c]) {
      ScanLineWellFormed(lines, prefixes, text, l, c + 1, acc);
    } else if text[c] == '`' {
      var r := RawFrom(lines, l, c + 1);
      var t := Token(STRING, "`" + r.body, c, r.col, l);
      assert WellFormed(t);
      ScanLineWellFormed(lines, prefixes, text, r.line, r.col, acc + [t]);
      ExtendsStep(acc, t, ScanLine(lines, prefixes, text, r.line, r.col, acc + [t]).tokens);
    } else {
      var e := LiteralEnd(text, c);
      var literal := text[c..e];
      if TrimSpace(literal) != "" {
        var t := GenerateNewToken(literal, c, e, l);
        ScanLineWellFormed(lines, prefixes, text, l, e, acc + [t]);
        ExtendsStep(acc, t, ScanLine(lines, prefixes, text, l, e, acc + [t]).tokens);
      } else {
        ScanLineWellFormed(lines, prefixes, text, l, e, acc);
      }
    }
  }

  /** The literal of `t` is the text between its columns of some line `j`
      of the input, at or before the line `t` is reported on. */
  ghost predicate FromLine(lines: seq<string>, t: Token) {
    exists j :: 0 <= j < |lines| && j <= t.line && 0 <= t.start <= t.end <= |lines[j]|
      && t.literal == lines[j][t.start..t.end]
  }

  /** `ts` is `acc` followed by tokens each of which, unless it is a
      `STRING`, is the text between its columns of a line of `lines`. */
  ghost predicate SpansFrom(lines: seq<string>, acc: seq<Token>, ts: seq<Token>) {
    acc <= ts && forall i :: |acc| <= i < |ts| && ts[i].tokenType != STRING ==> FromLine(lines, ts[i])
  }

  lemma SpansStep(lines: seq<string>, acc: seq<Token>, t: Token, ts: seq<Token>)
    requires t.tokenType != STRING ==> FromLine(lines, t)
    requires SpansFrom(lines, acc + [t], ts)
    ensures SpansFrom(lines, acc, ts)
  {
    assert acc <= acc + [t];
    forall i | |acc| <= i < |ts| && ts[i].tokenType != STRING
      ensures FromLine(lines, ts[i])
    {
      if i == |acc| {
        assert ts[i] == (acc + [t])[i] == t;
      }
    }
  }

  /** Every token the line loop adds, except a raw string, is the text
      between its columns of a line of the input: the line the column loop
      was entered for, which is the token's own line unless a raw string
      crossed lines before it on that loop. */
  lemma {:induction false} ScanFromSpans(lines: seq<string>, prefixes: seq<string>, l: nat, c: nat, acc: seq<Token>)
    ensures SpansFrom(lines, acc, ScanFrom(lines, prefixes, l, c, acc).tokens)
    decreases |lines| + 1 - l, 1, 0
  {
    if l < |lines| {
      if ShouldSkipLine(prefixes, lines[l]) {
        ScanFromSpans(lines, prefixes, l + 1, c, acc);
      } else {
        ScanLineSpans(lines, prefixes, lines[l], l, l, 0, acc);
      }
    }
  }

  /** The same for the column loop over `text`, which is line `j`, from
      line cursor `l`. */
  lemma {:induction false} ScanLineSpans(lines: seq<string>, prefixes: seq<string>, text: string, j: nat, l: nat, c: nat, acc: seq<Token>)
    requires j < |lines| && text == lines[j] && j <= l <= |lines|
    ensures SpansFrom(lines, acc, ScanLine(lines, prefixes, text, l, c, acc).tokens)
    decreases |lines| + 1 - l, 0, |text| - c
  {
    if c >= |text| {
      ScanFromSpans(lines, prefixes, l + 1, c, acc);
    } else if IsWhitespace(text[c]) {
      ScanLineSpans(lines, prefixes, text, j, l, c + 1, acc);
    } else if text[c] == '`' {
      var r := RawFrom(lines, l, c + 1);
      var t := Token(STRING, "`" + r.body, c, r.col, l);
      ScanLineSpans(lines, prefixes, text, j, r.line, r.col, acc + [t]);
      SpansStep(lines, acc, t, ScanLine(lines, prefixes, text, r.line, r.col, acc + [t]).tokens);
    } else {
      var e := LiteralEnd(text, c);
      var literal := text[c..e];
      if TrimSpace(literal) != "" {
        var t := GenerateNewToken(literal, c, e, l);
        assert t.literal == literal && t.start == c && t.end == e && t.line == l;
        assert FromLine(lines, t);
        ScanLineSpans(lines, prefixes, text, j, l, e, acc + [t]);
        SpansStep(lines, acc, t, ScanLine(lines, prefixes, text, l, e, acc + [t]).tokens);
      } else {
        ScanLineSpans(lines, prefixes, text, j, l, e, acc);
      }
    }
  }

  /** `GenerateTokens` returns exactly one `EOF` token, last, with an empty
      literal and an empty span at the final cursors; every token before it
      is well-formed. */
  lemma TokenizeEndsWithEof(input: string, prefixes: seq<string>)
    ensures EndsWithEof(Tokenize(input, prefixes, 0, 0), |Split(input)|)
  {
    var lines := Split(input);
    var s := ScanFrom(lines, prefixes, 0, 0, []);
    ScanFromWellFormed(lines, prefixes, 0, 0, []);
    EofAfter(s, |lines|);
  }

  /** Every token `Tokenize` returns, except a raw string and the final
      `EOF`, is the text between its columns of a line of the input. */
  lemma TokenizeSpans(input: string, prefixes: seq<string>)
    ensures forall t :: (t in Tokenize(input, prefixes, 0, 0) && t.tokenType != STRING && t.tokenType != EOF)
                        ==> FromLine(Split(input), t)
  {
    var lines := Split(input);
    var s := ScanFrom(lines, prefixes, 0, 0, []);
    ScanFromSpans(lines, prefixes, 0, 0, []);
    forall t | t in s.tokens + [EofToken(s)] && t.tokenType != STRING && t.tokenType != EOF
      ensures FromLine(lines, t)
    {
      var i :| 0 <= i < |s.tokens + [EofToken(s)]| && (s.tokens + [EofToken(s)])[i] == t;
      assert i < |s.tokens|;
      assert s.tokens[i] == t;
    }
  }

  /** `ts` is well-formed tokens followed by one `EOF` token with an empty
      literal and an empty span, on line `n` or `n + 1`. */
  ghost predicate EndsWithEof(ts: seq<Token>, n: nat) {
    && |ts| >= 1
    && ts[|ts| - 1].tokenType == EOF && ts[|ts| - 1].literal == ""
    && ts[|ts| - 1].start == ts[|ts| - 1].end
    && n <= ts[|ts| - 1].line <= n + 1
    && (forall i :: 0 <= i < |ts| - 1 ==> WellFormed(ts[i]) && ts[i].tokenType != EOF)
  }

  /** Appending the end-of-input token to a well-formed scan. */
  lemma EofAfter(s: ScanState, n: nat)
    requires Extends([], s.tokens) && n <= s.line <= n + 1
    ensures EndsWithEof(s.tokens + [EofToken(s)], n)
  {
  }

  /** With the empty string among the prefixes every line is a comment
      line: the loop passes over all of them and leaves the column cursor
      where it was. */
  lemma {:induction false} ScanFromAllSkipped(lines: seq<string>, prefixes: seq<string>, l: nat, c: nat, acc: seq<Token>)
    requires "" in prefixes
    ensures ScanFrom(lines, prefixes, l, c, acc) == ScanState(acc, if l < |lines| then |lines| else l, c)
    decreases |lines| - l
  {
    if l < |lines| {
      ScanFromAllSkipped(lines, prefixes, l + 1, c, acc);
    }
  }

  /** So the whole scan gives `EOF` alone, at column 0 of the line after
      the last. */
  lemma TokenizeAllSkipped(input: string, prefixes: seq<string>)
    requires "" in prefixes
    ensures Tokenize(input, prefixes, 0, 0) == [Token(EOF, "", 0, 0, |Split(input)|)]
  {
    ScanFromAllSkipped(Split(input), prefixes, 0, 0, []);
  }

  // ---------------------------------------------------------------------
  // Input without raw strings

  /** No line holds a backtick. */
  predicate NoRawString(lines: seq<string>) {
    forall i :: 0 <= i < |lines| ==> '`' !in lines[i]
  }

  /** The tokens of line `l`, whose text is `text`, from column `c` on,
      when it holds no backtick: each run `generateLiteral` extracts,
      classified, unless it trims to nothing. */
  function LineTokens(text: string, l: nat, c: nat): seq<Token>
    decreases |text| - c
  {
    if c >= |text| then []
    else if IsWhitespace(text[c]) then LineTokens(text, l, c + 1)
    else
      var e := LiteralEnd(text, c);
      var literal := text[c..e];
      (if TrimSpace(literal) != "" then [GenerateNewToken(literal, c, e, l)] else []) + LineTokens(text, l, e)
  }

  /** The tokens of every line from `l` on that is not a comment line. */
  function ProgramTokens(lines: seq<string>, prefixes: seq<string>, l: nat): seq<Token>
    decreases |lines| - l
  {
    if l >= |lines| then []
    else (if ShouldSkipLine(prefixes, lines[l]) then [] else LineTokens(lines[l], l, 0))
         + ProgramTokens(lines, prefixes, l + 1)
  }

  /** The column cursor at the end: the length of the last line from `l`
      on that is not a comment line, or `c` when there is none. */
  function FinalColumn(lines: seq<string>, prefixes: seq<string>, l: nat, c: nat): nat
    decreases |lines| - l
  {
    if l >= |lines| then c
    else if ShouldSkipLine(prefixes, lines[l]) then FinalColumn(lines, prefixes, l + 1, c)
    else FinalColumn(lines, prefixes, l + 1, |lines[l]|)
  }

  /** A comment line adds no tokens and leaves the final column alone. */
  lemma ProgramSkip(lines: seq<string>, prefixes: seq<string>, l: nat, c: nat)
    requires l < |lines| && ShouldSkipLine(prefixes, lines[l])
    ensures ProgramTokens(lines, prefixes, l) == ProgramTokens(lines, prefixes, l + 1)
    ensures FinalColumn(lines, prefixes, l, c) == FinalColumn(lines, prefixes, l + 1, c)
  {
    assert [] + ProgramTokens(lines, prefixes, l + 1) == ProgramTokens(lines, prefixes, l + 1);
  }

  /** Any other line adds its tokens and sets the final column to its
      length. */
  lemma ProgramScan(lines: seq<string>, prefixes: seq<string>, l: nat, c: nat)
    requires l < |lines| && !ShouldSkipLine(prefixes, lines[l])
    ensures ProgramTokens(lines, prefixes, l) == LineTokens(lines[l], l, 0) + ProgramTokens(lines, prefixes, l + 1)
    ensures FinalColumn(lines, prefixes, l, c) == FinalColumn(lines, prefixes, l + 1, |lines[l]|)
  {
  }

  /** Each token of a line lies on that line: its literal is the text
      between its start and end columns, which follow `c`, it is well-formed
      and not a run of white space. */
  lemma {:induction false} LineTokensAnchored(text: string, l: nat, c: nat)
    ensures forall t :: t in LineTokens(text, l, c) ==>
      && WellFormed(t) && t.tokenType != STRING
      && t.line == l && c <= t.start < t.end <= |text|
      && t.literal == text[t.start..t.end]
      && TrimSpace(t.literal) != ""
    decreases |text| - c
  {
    if c < |text| {
      if IsWhitespace(text[c]) {
        LineTokensSkip(text, l, c);
        LineTokensAnchored(text, l, c + 1);
      } else {
        var e := LiteralEnd(text, c);
        var tail := LineTokens(text, l, e);
        LineTokensAnchored(text, l, e);
        if TrimSpace(text[c..e]) != "" {
          HeadTokenAnchored(text, l, c);
          var h := GenerateNewToken(text[c..e], c, e, l);
          assert LineTokens(text, l, c) == [h] + tail;
          forall t | t in [h] + tail
            ensures && WellFormed(t) && t.tokenType != STRING
                    && t.line == l && c <= t.start < t.end <= |text|
                    && t.literal == text[t.start..t.end]
                    && TrimSpace(t.literal) != ""
          {
            if t != h {
              assert t in tail;
            }
          }
        } else {
          assert LineTokens(text, l, c) == tail;
        }
      }
    }
  }

  /** White space at column `c` gives no token. */
  lemma LineTokensSkip(text: string, l: nat, c: nat)
    requires c < |text| && IsWhitespace(text[c])
    ensures LineTokens(text, l, c) == LineTokens(text, l, c + 1)
  {
  }

  /** The token made from the literal at a byte that is not white space,
      when the literal is not blank, is well formed, lies in the line, and
      its literal is the text of its span. */
  lemma HeadTokenAnchored(text: string, l: nat, c: nat)
    requires c < |text| && !IsWhitespace(text[c])
    requires TrimSpace(text[c..LiteralEnd(text, c)]) != ""
    ensures var e := LiteralEnd(text, c);
      var h := GenerateNewToken(text[c..e], c, e, l);
      && WellFormed(h) && h.tokenType != STRING
      && h.line == l && c <= h.start < h.end <= |text|
      && h.literal == text[h.start..h.end]
      && TrimSpace(h.literal) != ""
  {
    var e := LiteralEnd(text, c);
    ClassifyFirstByte(text[c..e]);
  }

  /** The tokens of `ts` come in column order without overlapping. */
  ghost predicate Ordered(ts: seq<Token>) {
    forall i :: 0 <= i < |ts| - 1 ==> ts[i].end <= ts[i + 1].start
  }

  /** A token in front of ordered tokens that all start after it ends. */
  lemma OrderedCons(h: Token, tail: seq<Token>)
    requires h.start <= h.end && Ordered(tail)
    requires forall t :: t in tail ==> h.end <= t.start
    ensures Ordered([h] + tail)
    ensures forall t :: t in [h] + tail ==> h.start <= t.start
  {
    var ts := [h] + tail;
    forall i | 0 <= i < |ts| - 1
      ensures ts[i].end <= ts[i + 1].start
    {
      if i == 0 {
        assert tail[0] in tail;
      } else {
        assert ts[i] == tail[i - 1] && ts[i + 1] == tail[i];
      }
    }
    forall t | t in ts
      ensures h.start <= t.start
    {
      if t != h {
        assert t in tail;
      }
    }
  }

  /** The tokens of a line come in column order without overlapping, and
      none starts before `c`. */
  lemma {:induction false} LineTokensOrdered(text: string, l: nat, c: nat)
    ensures Ordered(LineTokens(text, l, c))
    ensures forall t :: t in LineTokens(text, l, c) ==> c <= t.start
    decreases |text| - c
  {
    if c < |text| {
      if IsWhitespace(text[c]) {
        LineTokensOrdered(text, l, c + 1);
        assert LineTokens(text, l, c) == LineTokens(text, l, c + 1);
      } else {
        var e := LiteralEnd(text, c);
        var tail := LineTokens(text, l, e);
        LineTokensOrdered(text, l, e);
        if TrimSpace(text[c..e]) != "" {
          var h := GenerateNewToken(text[c..e], c, e, l);
          assert h.start == c && h.end == e;
          OrderedCons(h, tail);
          assert [h] + tail == LineTokens(text, l, c);
        } else {
          assert LineTokens(text, l, c) == tail;
        }
      }
    }
  }

  /** No token of `ts` covers column `k`. */
  ghost predicate Uncovered(ts: seq<Token>, k: int) {
    forall t :: t in ts ==> !(t.start <= k < t.end)
  }

  /** Every byte of a line from `c` on that no token covers is white space,
      vertical tab or form feed: no other byte of the line is dropped. */
  lemma {:induction false} LineTokensCover(text: string, l: nat, c: nat)
    ensures forall k :: c <= k < |text| && Uncovered(LineTokens(text, l, c), k) ==> IsSpaceByte(text[k])
    decreases |text| - c
  {
    if c < |text| {
      if IsWhitespace(text[c]) {
        LineTokensCover(text, l, c + 1);
        assert LineTokens(text, l, c) == LineTokens(text, l, c + 1);
      } else {
        var e := LiteralEnd(text, c);
        var literal := text[c..e];
        var tail := LineTokens(text, l, e);
        LineTokensCover(text, l, e);
        if TrimSpace(literal) == "" {
          assert LineTokens(text, l, c) == tail;
          TrimSpaceSpec(literal);
          forall k | c <= k < e
            ensures IsSpaceByte(text[k])
          {
            assert text[k] == literal[k - c];
          }
        } else {
          var h := GenerateNewToken(literal, c, e, l);
          var ts := [h] + tail;
          assert ts == LineTokens(text, l, c);
          forall k | c <= k < |text| && Uncovered(ts, k)
            ensures IsSpaceByte(text[k])
          {
            assert h in ts;
            assert forall t :: t in tail ==> t in ts;
          }
        }
      }
    }
  }

  /** Each token of the program lies on one of its lines, as above. */
  lemma {:induction false} ProgramTokensAnchored(lines: seq<string>, prefixes: seq<string>, l: nat)
    ensures forall t :: t in ProgramTokens(lines, prefixes, l) ==>
      && WellFormed(t) && t.tokenType != STRING
      && l <= t.line < |lines| && !ShouldSkipLine(prefixes, lines[t.line])
      && 0 <= t.start < t.end <= |lines[t.line]|
      && t.literal == lines[t.line][t.start..t.end]
    decreases |lines| - l
  {
    if l < |lines| {
      ProgramTokensAnchored(lines, prefixes, l + 1);
      LineTokensAnchored(lines[l], l, 0);
    }
  }

  /** Without raw strings, the loop over columns of a line reads it to its
      end and adds that line's tokens. */
  lemma {:induction false} ScanLineNoRaw(lines: seq<string>, prefixes: seq<string>, l: nat, c: nat, acc: seq<Token>)
    requires NoRawString(lines) && l < |lines| && c <= |lines[l]|
    ensures ScanLine(lines, prefixes, lines[l], l, c, acc)
         == ScanFrom(lines, prefixes, l + 1, |lines[l]|, acc + LineTokens(lines[l], l, c))
    decreases |lines[l]| - c
  {
    var text := lines[l];
    if c == |text| {
      assert acc + [] == acc;
    } else if IsWhitespace(text[c]) {
      ScanLineNoRaw(lines, prefixes, l, c + 1, acc);
    } else {
      assert text[c] != '`';
      var e := LiteralEnd(text, c);
      var literal := text[c..e];
      var acc' := if TrimSpace(literal) != "" then acc + [GenerateNewToken(literal, c, e, l)] else acc;
      ScanLineNoRaw(lines, prefixes, l, e, acc');
      assert acc' + LineTokens(text, l, e) == acc + LineTokens(text, l, c);
    }
  }

  /** Without raw strings, the scan is the concatenation of the tokens of the
      lines that are not comment lines, and it stops past the last line with
      the column cursor at the length of the last line it scanned. */
  lemma {:induction false} ScanFromNoRaw(lines: seq<string>, prefixes: seq<string>, l: nat, c: nat, acc: seq<Token>)
    requires NoRawString(lines)
    ensures ScanFrom(lines, prefixes, l, c, acc)
         == ScanState(acc + ProgramTokens(lines, prefixes, l), if l < |lines| then |lines| else l,
                      FinalColumn(lines, prefixes, l, c))
    decreases |lines| - l
  {
    if l >= |lines| {
      assert acc + [] == acc;
    } else if ShouldSkipLine(prefixes, lines[l]) {
      ScanFromNoRaw(lines, prefixes, l + 1, c, acc);
      assert [] + ProgramTokens(lines, prefixes, l + 1) == ProgramTokens(lines, prefixes, l);
    } else {
      ScanLineNoRaw(lines, prefixes, l, 0, acc);
      ScanFromNoRaw(lines, prefixes, l + 1, |lines[l]|, acc + LineTokens(lines[l], l, 0));
      assert acc + LineTokens(lines[l], l, 0) + ProgramTokens(lines, prefixes, l + 1)
          == acc + ProgramTokens(lines, prefixes, l);
    }
  }

  /** The same for a program given as its lines: joined by line feeds,
      lines with no backtick give the tokens of the scanned lines, then
      `EOF` on the line after the last. */
  lemma TokenizeLines(lines: seq<string>, prefixes: seq<string>)
    requires |lines| >= 1 && NoRawString(lines)
    requires forall i :: 0 <= i < |lines| ==> '\n' !in lines[i]
    ensures
      var col := FinalColumn(lines, prefixes, 0, 0);
      Tokenize(Join(lines), prefixes, 0, 0) == ProgramTokens(lines, prefixes, 0) + [Token(EOF, "", col, col, |lines|)]
  {
    SplitJoin(lines);
    ScanProgram(lines, prefixes);
  }

  /** The line loop over a whole program without backticks. */
  lemma ScanProgram(lines: seq<string>, prefixes: seq<string>)
    requires |lines| >= 1 && NoRawString(lines)
    ensures ScanFrom(lines, prefixes, 0, 0, [])
      == ScanState(ProgramTokens(lines, prefixes, 0), |lines|, FinalColumn(lines, prefixes, 0, 0))
  {
    ScanFromNoRaw(lines, prefixes, 0, 0, []);
    assert [] + ProgramTokens(lines, prefixes, 0) == ProgramTokens(lines, prefixes, 0);
  }

  /** `GenerateTokens` on input without backticks: the tokens of its
      non-comment lines, then `EOF` on the line after the last one. */
  lemma TokenizeNoRaw(input: string, prefixes: seq<string>)
    requires '`' !in input
    ensures
      var lines := Split(input);
      var col := FinalColumn(lines, prefixes, 0, 0);
      Tokenize(input, prefixes, 0, 0) == ProgramTokens(lines, prefixes, 0) + [Token(EOF, "", col, col, |lines|)]
  {
    SplitNoRaw(input);
    ScanProgram(Split(input), prefixes);
  }

  /** A line of input without backticks holds none. */
  lemma SplitNoRaw(input: string)
    requires '`' !in input
    ensures NoRawString(Split(input))
  {
    var lines := Split(input);
    JoinSplit(input);
    forall i | 0 <= i < |lines|
      ensures '`' !in lines[i]
    {
      if '`' in lines[i] {
        JoinKeeps(lines, i, '`');
      }
    }
  }

  /** Columns `i` to `j` of `text` are white space for the lexer. */
  ghost predicate Blank(text: string, i: nat, j: nat) {
    j <= |text| && forall k :: i <= k < j ==> IsWhitespace(text[k])
  }

  /** From column `c` on, `text` is white space and the literals
      `generateLiteral` extracts at the column spans `spans`, in order, each
      starting at a byte `TrimSpace` keeps. */
  ghost predicate Tiles(text: string, c: nat, spans: seq<(nat, nat)>)
    decreases |spans|
  {
    if spans == [] then c <= |text| && Blank(text, c, |text|)
    else
      && c <= spans[0].0 < |text|
      && Blank(text, c, spans[0].0)
      && !IsSpaceByte(text[spans[0].0])
      && LiteralEnd(text, spans[0].0) == spans[0].1
      && Tiles(text, spans[0].1, spans[1..])
  }

  /** A white-space gap is passed over. */
  lemma {:induction false} LineTokensGap(text: string, l: nat, c: nat, a: nat)
    requires c <= a && Blank(text, c, a)
    ensures LineTokens(text, l, c) == LineTokens(text, l, a)
    decreases a - c
  {
    if c < a {
      LineTokensSkip(text, l, c);
      LineTokensGap(text, l, c + 1, a);
    }
  }

  /** The classified literals of column spans of `text`. */
  function SpanTokens(text: string, l: nat, spans: seq<(nat, nat)>): seq<Token>
    decreases |spans|
  {
    if spans == [] then []
    else
      var a := spans[0].0;
      var b := spans[0].1;
      (if a < b <= |text| then [GenerateNewToken(text[a..b], a, b, l)] else []) + SpanTokens(text, l, spans[1..])
  }

  /** Each span of `spans` lies in `text` and its literal classifies as the
      token at the same index of `tokens`. */
  ghost predicate SpansClassify(text: string, l: nat, spans: seq<(nat, nat)>, tokens: seq<Token>) {
    && |spans| == |tokens|
    && forall i :: 0 <= i < |spans| ==>
         && spans[i].0 < spans[i].1 <= |text|
         && GenerateNewToken(text[spans[i].0..spans[i].1], spans[i].0, spans[i].1, l) == tokens[i]
  }

  /** Spans whose literals classify one by one as `tokens` give exactly
      `tokens`. */
  lemma {:induction false} SpanTokensClassify(text: string, l: nat, spans: seq<(nat, nat)>, tokens: seq<Token>)
    requires SpansClassify(text, l, spans, tokens)
    ensures SpanTokens(text, l, spans) == tokens
    decreases |spans|
  {
    if spans != [] {
      assert SpansClassify(text, l, spans[1..], tokens[1..]) by {
        forall i | 0 <= i < |spans[1..]|
          ensures spans[1..][i].0 < spans[1..][i].1 <= |text|
          ensures GenerateNewToken(text[spans[1..][i].0..spans[1..][i].1], spans[1..][i].0, spans[1..][i].1, l) == tokens[1..][i]
        {
          assert spans[1..][i] == spans[i + 1];
        }
      }
      SpanTokensClassify(text, l, spans[1..], tokens[1..]);
      assert tokens == [tokens[0]] + tokens[1..];
    }
  }

  /** A line tiled by literal spans has one token per span, each the
      classified literal of its span. */
  lemma {:induction false} LineTokensTiles(text: string, l: nat, c: nat, spans: seq<(nat, nat)>)
    requires Tiles(text, c, spans)
    ensures LineTokens(text, l, c) == SpanTokens(text, l, spans)
    decreases |spans|
  {
    if spans == [] {
      LineTokensGap(text, l, c, |text|);
    } else {
      var a := spans[0].0;
      var b := spans[0].1;
      LineTokensGap(text, l, c, a);
      var literal := text[a..b];
      assert literal[0] == text[a];
      TrimSpaceSpec(literal);
      LineTokensTiles(text, l, b, spans[1..]);
    }
  }

  // ---------------------------------------------------------------------
  // The lexer object

  class DraskenLexer {
    const input: string
    const commentPrefixes: seq<string>
    var columnPosition: nat
    var linePosition: nat

    /** `NewLexer`: both cursors at 0; nothing is scanned yet. */
    constructor (input: string, commentPrefixes: seq<string>)
      ensures this.input == input && this.commentPrefixes == commentPrefixes
      ensures columnPosition == 0 && linePosition == 0
    {
      this.input := input;
      this.commentPrefixes := commentPrefixes;
      columnPosition := 0;
      linePosition := 0;
    }

    /** `generateLiteral`: consumes the literal at the column cursor and
        returns it. */
    method GenerateLiteral(line: string) returns (literal: string)
      requires columnPosition < |line|
      modifies this`columnPosition
      ensures columnPosition == LiteralEnd(line, old(columnPosition))
      ensures literal == line[old(columnPosition)..columnPosition]
    {
      var start := columnPosition;
      var ch := line[start];
      var i: nat;

      if ch == '"' || ch == '\'' {
        // quoted string, closed by the same quote on this line
        var quote := ch;
        i := start + 1;
        while i < |line|
          invariant start + 1 <= i <= |line|
          invariant QuoteEnd(line, quote, start + 1) == QuoteEnd(line, quote, i)
        {
          if line[i] == quote {
            i := i + 1;
            break;
          }
          i := i + 1;
        }
      } else if IsDigit(ch) || (ch == '.' && start + 1 < |line| && IsDigit(line[start + 1])) {
        // number: digits and at most one dot
        i := start;
        var hasDot := false;
        while i < |line|
          invariant start <= i <= |line|
          invariant NumberEnd(line, start, false) == NumberEnd(line, i, hasDot)
        {
          if line[i] == '.' {
            if hasDot {
              break;
            }
            hasDot := true;
          } else if !IsDigit(line[i]) {
            break;
          }
          i := i + 1;
        }
      } else if IsLetter(ch) || ch == '_' {
        // identifier
        i := start;
        while i < |line| && IsAlphanumericOrUnderscore(line[i])
          invariant start <= i <= |line|
          invariant IdentEnd(line, start) == IdentEnd(line, i)
        {
          i := i + 1;
        }
      } else if IsOperator(ch) && ch == '=' && start + 1 < |line| && line[start + 1] == '=' {
        // `==`, the one two-byte operator
        i := start + 2;
      } else {
        // any other operator, punctuation or unknown byte, alone
        i := start + 1;
      }

      // every branch returns the bytes it stepped over
      columnPosition := i;
      literal := line[start..i];
    }

    /** The raw-string block of `GenerateTokens`, entered just past an
        opening backtick: reads bytes from `lines[linePosition]` up to and
        including a closing backtick, turning each line break it crosses into
        a line feed, and returns the literal from the opening backtick on. */
    method ReadRawString(lines: seq<string>) returns (content: string)
      requires linePosition <= |lines|
      modifies this`columnPosition, this`linePosition
      ensures var raw := RawFrom(lines, old(linePosition), old(columnPosition));
              content == "`" + raw.body && linePosition == raw.line && columnPosition == raw.col
    {
      ghost var raw := RawFrom(lines, linePosition, columnPosition);
      content := "`";
      var terminated := false;
      while !terminated && linePosition < |lines|
        invariant old(linePosition) <= linePosition <= |lines|
        invariant terminated ==>
          "`" + raw.body == content && raw.line == linePosition && raw.col == columnPosition
        invariant !terminated ==>
          var rest := RawFrom(lines, linePosition, columnPosition);
          "`" + raw.body == content + rest.body && raw.line == rest.line && raw.col == rest.col
        decreases |lines| - linePosition, if terminated then 0 else 1
      {
        var current := lines[linePosition];
        ghost var l := linePosition;
        while columnPosition < |current|
          invariant linePosition == l < |lines| && current == lines[l] && !terminated
          invariant
            var rest := RawFrom(lines, linePosition, columnPosition);
            "`" + raw.body == content + rest.body && raw.line == rest.line && raw.col == rest.col
          decreases |current| - columnPosition
        {
          var ch := current[columnPosition];
          if ch == '`' {
            content := content + ['`'];
            columnPosition := columnPosition + 1;
            terminated := true;
            break;
          } else {
            content := content + [ch];
            columnPosition := columnPosition + 1;
          }
        }
        if !terminated {
          content := content + "\n";
          linePosition := linePosition + 1;
          columnPosition := 0;
        }
      }
    }

    /** The loop of `GenerateTokens` over the columns of `line`, the text
        of the line it was entered for: skips white space, reads raw strings
        and otherwise extracts and classifies one literal, until the column
        cursor reaches the end of `line`. */
    method ScanColumns(lines: seq<string>, line: string, tokens: seq<Token>) returns (tokens': seq<Token>)
      requires linePosition <= |lines|
      modifies this`columnPosition, this`linePosition
      ensures old(linePosition) <= linePosition <= |lines| && columnPosition >= |line|
      ensures ScanLine(lines, commentPrefixes, line, old(linePosition), old(columnPosition), tokens)
           == ScanLine(lines, commentPrefixes, line, linePosition, columnPosition, tokens')
    {
      tokens' := tokens;
      var lineLen := |line|;
      ghost var goal := ScanLine(lines, commentPrefixes, line, linePosition, columnPosition, tokens);

      while columnPosition < lineLen
        invariant old(linePosition) <= linePosition <= |lines|
        invariant goal == ScanLine(lines, commentPrefixes, line, linePosition, columnPosition, tokens')
        decreases |lines| - linePosition, lineLen - columnPosition
      {
        var ch := line[columnPosition];

        if IsWhitespace(ch) {
          columnPosition := columnPosition + 1;
          continue;
        }

        if ch == '`' {
          var startLine := linePosition;
          var startColumn := columnPosition;
          columnPosition := columnPosition + 1;
          var content := ReadRawString(lines);
          tokens' := tokens' + [Token(STRING, content, startColumn, columnPosition, startLine)];
          continue;
        }

        var literalStart := columnPosition;
        var literal := GenerateLiteral(line);
        if TrimSpace(literal) != "" {
          var token := GenerateNewToken(literal, literalStart, columnPosition, linePosition);
          tokens' := tokens' + [token];
        }
      }
    }

    /** `GenerateTokens`: scans the whole input from the current cursors and
        appends one `EOF` token at the cursors where the scan stops. */
    method GenerateTokens() returns (tokens: seq<Token>)
      modifies this
      ensures var s := ScanFrom(Split(input), commentPrefixes, old(linePosition), old(columnPosition), []);
              && tokens == s.tokens + [EofToken(s)]
              && linePosition == s.line && columnPosition == s.col
    {
      tokens := [];
      var lines := Split(input);
      ghost var goal := ScanFrom(lines, commentPrefixes, linePosition, columnPosition, []);

      while linePosition < |lines|
        invariant goal == ScanFrom(lines, commentPrefixes, linePosition, columnPosition, tokens)
        decreases |lines| - linePosition
      {
        var line := lines[linePosition];

        if ShouldSkipLine(commentPrefixes, line) {
          linePosition := linePosition + 1;
          continue;
        }

        columnPosition := 0;
        tokens := ScanColumns(lines, line, tokens);
        linePosition := linePosition + 1;
      }
      tokens := tokens + [Token(EOF, "", columnPosition, columnPosition, linePosition)];
    }
  }
}
