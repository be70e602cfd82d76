/**
  The earlier lexer, src/github.com/drasken-go-lexer/lexer/lexer.go. It reads
  the input line by line through a `bufio.Scanner` and has no comment-line
  skip and no strings: on each line `generateLineTokens` skips white space and
  calls `generateLiteral`, which gathers a run of letters, digits and
  underscores, silently drops bytes of no class, ends a run (without taking
  it) at an operator or punctuation byte, takes `==` or one operator or
  punctuation byte on its own, and throws the rest of the line away at a byte
  whose one-character string starts with a comment prefix.
 */
module LineLexer {
  import opened Strings
  import opened CharClass
  import opened Tokens

  // ---------------------------------------------------------------------
  // Specification of generateLiteral

  /** Whether the prefix search of `generateLiteral` matches a byte. The
      search asks whether the byte, as a trimmed one-character string,
      starts with one of the prefixes; that holds exactly when the empty
      prefix is listed, or the byte is not white space and is itself a
      listed one-byte prefix (`CommentByteIff`). */
  predicate IsCommentByte(ch: char, prefixes: seq<string>) {
    "" in prefixes || (!IsSpaceByte(ch) && [ch] in prefixes)
  }

  /** The prefix search as written, over the trimmed one-character string,
      decides `IsCommentByte`. */
  lemma CommentByteIff(ch: char, prefixes: seq<string>)
    ensures HasAnyPrefix(TrimSpace([ch]), prefixes) <==> IsCommentByte(ch, prefixes)
  {
    TrimSpaceOfByte(ch);
    if !IsSpaceByte(ch) && HasAnyPrefix(TrimSpace([ch]), prefixes) && "" !in prefixes {
      var p :| p in prefixes && p <= [ch];
      assert p == [ch];
    }
  }

  /** A prefix of two bytes or more, such as `//`, never matches a byte. */
  lemma LongPrefixNeverMatches(ch: char, prefixes: seq<string>)
    requires forall i :: 0 <= i < |prefixes| ==> |prefixes[i]| >= 2
    ensures !HasAnyPrefix(TrimSpace([ch]), prefixes)
  {
    CommentByteIff(ch, prefixes);
    assert forall p :: p in prefixes ==> |p| >= 2;
  }

  /** Concatenation is associative; stated apart so that proofs using it
      stay small. */
  lemma ConcatAssoc<T>(a: seq<T>, b: seq<T>, c: seq<T>)
    ensures a + (b + c) == (a + b) + c
  {
  }

  /** A byte `generateLiteral` keeps in a literal. */
  predicate IsKept(ch: char) {
    IsAlphanumericOrUnderscore(ch) || IsOperator(ch) || IsPunctuation(ch)
  }

  /** The kept bytes of `s`, in order. */
  function Kept(s: string): string {
    if s == [] then []
    else (if IsKept(s[0]) then [s[0]] else []) + Kept(s[1..])
  }

  lemma {:induction false} KeptAppend(a: string, b: string)
    ensures Kept(a + b) == Kept(a) + Kept(b)
  {
    if a != [] {
      var head := if IsKept(a[0]) then [a[0]] else [];
      assert (a + b)[0] == a[0] && (a + b)[1..] == a[1..] + b;
      KeptAppend(a[1..], b);
      assert Kept(a + b) == head + (Kept(a[1..]) + Kept(b));
    } else {
      assert a + b == b;
    }
  }

  /** What one call of `generateLiteral` does: the literal it returns, the
      column it leaves the cursor at (`next`), and the column where taking
      bytes stopped (`stop`), which is `next` except after a comment byte,
      where `next` jumps to the end of the line. */
  datatype Run = Run(literal: string, next: nat, stop: nat)

  /** The loop of `generateLiteral` from column `i` with `literal` gathered
      so far. The cursor never moves back nor past the end of the line, and
      a call at a byte that is not white space with nothing gathered moves
      it. */
  function RunFrom(line: string, prefixes: seq<string>, i: nat, literal: string): (r: Run)
    requires i <= |line|
    ensures i <= r.stop <= r.next <= |line|
    ensures i < |line| && literal == "" && !IsWhitespace(line[i]) ==> i < r.next
    decreases |line| - i
  {
    if i == |line| then Run(literal, i, i)
    else
      var ch := line[i];
      if IsCommentByte(ch, prefixes) then Run(literal, |line|, i)
      else if IsWhitespace(ch) then Run(literal, i, i)
      else if IsAlphanumericOrUnderscore(ch) then RunFrom(line, prefixes, i + 1, literal + [ch])
      else if literal != "" && (IsOperator(ch) || IsPunctuation(ch)) then Run(literal, i, i)
      else if IsOperator(ch) then
        if ch == '=' && i + 1 < |line| && line[i + 1] == '=' then Run(literal + "==", i + 2, i + 2)
        else Run(literal + [ch], i + 1, i + 1)
      else if IsPunctuation(ch) then Run(literal + [ch], i + 1, i + 1)
      else RunFrom(line, prefixes, i + 1, literal)
  }

  /** `generateLiteral` called with the cursor at column `c`. */
  function LiteralAt(line: string, prefixes: seq<string>, c: nat): Run
    requires c <= |line|
  {
    RunFrom(line, prefixes, c, "")
  }

  /** No byte that is not white space is a comment byte in `line[i..j]`. */
  ghost predicate NoCommentIn(line: string, prefixes: seq<string>, i: nat, j: nat)
    requires i <= j <= |line|
  {
    forall k :: i <= k < j ==> IsWhitespace(line[k]) || !IsCommentByte(line[k], prefixes)
  }

  /** The literal is what was gathered, then the kept bytes up to `stop`;
      no comment byte comes before `stop`; and the cursor jumps past `stop`
      only to the end of the line, from a comment byte. */
  lemma {:induction false} RunKept(line: string, prefixes: seq<string>, i: nat, literal: string)
    requires i <= |line|
    ensures var r := RunFrom(line, prefixes, i, literal);
      && r.literal == literal + Kept(line[i..r.stop])
      && NoCommentIn(line, prefixes, i, r.stop)
      && (r.stop == r.next || (r.next == |line| && IsCommentByte(line[r.stop], prefixes)))
    decreases |line| - i
  {
    if i < |line| {
      var ch := line[i];
      if IsCommentByte(ch, prefixes) {
      } else if IsWhitespace(ch) {
      } else if IsAlphanumericOrUnderscore(ch) {
        RunKept(line, prefixes, i + 1, literal + [ch]);
        KeptCons(line, prefixes, i, literal, literal + [ch]);
      } else if literal != "" && (IsOperator(ch) || IsPunctuation(ch)) {
      } else if IsOperator(ch) {
        if ch == '=' && i + 1 < |line| && line[i + 1] == '=' {
          KeptEqEq(line, prefixes, i);
        } else {
          KeptOne(line, prefixes, i);
        }
      } else if IsPunctuation(ch) {
        KeptOne(line, prefixes, i);
      } else {
        RunKept(line, prefixes, i + 1, literal);
        KeptCons(line, prefixes, i, literal, literal);
      }
    }
  }

  /** Every byte of `s` is a letter, a digit or an underscore. */
  predicate IsWord(s: string) {
    forall k :: 0 <= k < |s| ==> IsAlphanumericOrUnderscore(s[k])
  }

  /** No white space lies between where `generateLiteral` starts and where
      it stops. */
  lemma {:induction false} RunNoWhitespace(line: string, prefixes: seq<string>, i: nat, literal: string)
    requires i <= |line|
    ensures var r := RunFrom(line, prefixes, i, literal);
      forall k :: i <= k < r.stop ==> !IsWhitespace(line[k])
    decreases |line| - i
  {
    if i < |line| {
      var ch := line[i];
      if IsCommentByte(ch, prefixes) {
      } else if IsWhitespace(ch) {
      } else if IsAlphanumericOrUnderscore(ch) {
        RunNoWhitespace(line, prefixes, i + 1, literal + [ch]);
      } else if literal != "" && (IsOperator(ch) || IsPunctuation(ch)) {
      } else if IsOperator(ch) || IsPunctuation(ch) {
      } else {
        RunNoWhitespace(line, prefixes, i + 1, literal);
      }
    }
  }

  /** A run of word bytes, stopped by the end of the line, white space, a
      comment byte, or an operator or punctuation byte after a non-empty
      run (that byte is left for the next call). A comment byte ends the
      line: the cursor moves to its end. */
  ghost predicate StopsWord(line: string, prefixes: seq<string>, r: Run)
    requires r.stop <= |line|
  {
    && IsWord(r.literal)
    && (|| r.stop == |line| || IsWhitespace(line[r.stop]) || IsCommentByte(line[r.stop], prefixes)
        || (r.literal != "" && (IsOperator(line[r.stop]) || IsPunctuation(line[r.stop]))))
    && (r.stop < |line| && IsCommentByte(line[r.stop], prefixes) ==> r.next == |line|)
  }

  /** `==` taken whole or one operator or punctuation byte taken alone: the
      literal is the bytes just before where the run stops. */
  ghost predicate TakesSymbol(line: string, r: Run)
    requires r.stop <= |line|
  {
    && r.stop == r.next && |r.literal| <= r.stop
    && (r.literal == "==" || (|r.literal| == 1 && (IsOperator(r.literal[0]) || IsPunctuation(r.literal[0]))))
    && r.literal == line[r.stop - |r.literal|..r.stop]
  }

  /** Where `generateLiteral` stops. No white space lies before the stop.
      From a gathered run of word bytes it either returns a run of word
      bytes that stops as `StopsWord` says, or, with nothing gathered, it
      takes a symbol as `TakesSymbol` says. With `RunKept`, a word literal
      holds every kept byte before the stop, so no operator or punctuation
      byte comes before it either: the run stops at the first stop byte. */
  lemma {:induction false} RunStops(line: string, prefixes: seq<string>, i: nat, literal: string)
    requires i <= |line| && IsWord(literal)
    ensures var r := RunFrom(line, prefixes, i, literal);
      && (forall k :: i <= k < r.stop ==> !IsWhitespace(line[k]))
      && (StopsWord(line, prefixes, r) || (literal == "" && TakesSymbol(line, r)))
    decreases |line| - i
  {
    RunNoWhitespace(line, prefixes, i, literal);
    var r := RunFrom(line, prefixes, i, literal);
    if i < |line| {
      var ch := line[i];
      if IsCommentByte(ch, prefixes) {
        assert StopsWord(line, prefixes, r);
      } else if IsWhitespace(ch) {
        assert StopsWord(line, prefixes, r);
      } else if IsAlphanumericOrUnderscore(ch) {
        assert IsWord(literal + [ch]);
        RunStops(line, prefixes, i + 1, literal + [ch]);
      } else if literal != "" && (IsOperator(ch) || IsPunctuation(ch)) {
        assert StopsWord(line, prefixes, r);
      } else if IsOperator(ch) {
        if ch == '=' && i + 1 < |line| && line[i + 1] == '=' {
          assert line[i..i + 2] == "==";
        } else {
          assert line[i..i + 1] == [ch];
        }
        assert TakesSymbol(line, r);
      } else if IsPunctuation(ch) {
        assert line[i..i + 1] == [ch];
        assert TakesSymbol(line, r);
      } else {
        RunStops(line, prefixes, i + 1, literal);
      }
    } else {
      assert StopsWord(line, prefixes, r);
    }
  }

  /** One byte that is not a comment byte, taken or dropped, in front of
      what the rest of the run gathers. */
  lemma KeptCons(line: string, prefixes: seq<string>, i: nat, literal: string, gathered: string)
    requires i < |line| && !IsCommentByte(line[i], prefixes)
    requires gathered == literal + (if IsKept(line[i]) then [line[i]] else [])
    requires var r := RunFrom(line, prefixes, i + 1, gathered);
      && r.literal == gathered + Kept(line[i + 1..r.stop])
      && NoCommentIn(line, prefixes, i + 1, r.stop)
    ensures var r := RunFrom(line, prefixes, i + 1, gathered);
      && r.literal == literal + Kept(line[i..r.stop])
      && NoCommentIn(line, prefixes, i, r.stop)
  {
    var r := RunFrom(line, prefixes, i + 1, gathered);
    var head := if IsKept(line[i]) then [line[i]] else [];
    assert line[i..r.stop] == [line[i]] + line[i + 1..r.stop];
    KeptAppend([line[i]], line[i + 1..r.stop]);
    assert Kept([line[i]]) == head;
    ConcatAssoc(literal, head, Kept(line[i + 1..r.stop]));
  }

  /** An operator or punctuation byte taken alone. */
  lemma KeptOne(line: string, prefixes: seq<string>, i: nat)
    requires i < |line| && IsKept(line[i]) && !IsCommentByte(line[i], prefixes)
    ensures Kept(line[i..i + 1]) == [line[i]]
    ensures NoCommentIn(line, prefixes, i, i + 1)
  {
    assert line[i..i + 1] == [line[i]];
  }

  /** `==` is kept whole, and its second byte is no comment byte when its
      first is none. */
  lemma KeptEqEq(line: string, prefixes: seq<string>, i: nat)
    requires i + 1 < |line| && line[i] == '=' && line[i + 1] == '='
    requires !IsCommentByte(line[i], prefixes)
    ensures Kept(line[i..i + 2]) == "=="
    ensures NoCommentIn(line, prefixes, i, i + 2)
  {
    assert line[i..i + 2] == [line[i]] + [line[i + 1]];
    KeptAppend([line[i]], [line[i + 1]]);
  }

  /** A gathered literal holds no white space, so `strings.TrimSpace` leaves
      a non-empty one non-empty. */
  lemma {:induction false} KeptNotBlank(s: string)
    ensures Kept(s) != "" ==> TrimSpace(Kept(s)) != ""
    ensures forall k :: 0 <= k < |Kept(s)| ==> IsKept(Kept(s)[k])
  {
    if s != [] {
      KeptNotBlank(s[1..]);
      ClassesDisjoint(s[0]);
    }
    var t := Kept(s);
    TrimSpaceSpec(t);
    if t != "" {
      ClassesDisjoint(t[0]);
    }
  }

  // ---------------------------------------------------------------------
  // Specification of generateLineTokens and GenerateTokens

  /** The tokens `generateLineTokens` makes of `line` (the line at index
      `l`) from column `c` on. */
  function LineTokensFrom(line: string, prefixes: seq<string>, l: nat, c: nat): seq<Token>
    decreases |line| - c
  {
    if c >= |line| then []
    else if IsWhitespace(line[c]) then LineTokensFrom(line, prefixes, l, c + 1)
    else
      var r := LiteralAt(line, prefixes, c);
      HeadTokens(r.literal, c, r.next, l) + LineTokensFrom(line, prefixes, l, r.next)
  }

  /** The token a gathered literal makes: none when it is blank. */
  function HeadTokens(literal: string, start: nat, end: nat, l: nat): seq<Token> {
    if TrimSpace(literal) != "" then [GenerateNewToken(literal, start, end, l)] else []
  }

  /** The literal a non-blank or empty literal's token spells is that
      literal. */
  lemma HeadLiteral(literal: string, start: nat, end: nat, l: nat)
    requires literal == "" || TrimSpace(literal) != ""
    ensures Literals(HeadTokens(literal, start, end, l)) == literal
  {
  }

  /** The tokens of every line, the first having index `l`. */
  function LinesTokens(lines: seq<string>, prefixes: seq<string>, l: nat): seq<Token>
    decreases |lines|
  {
    if lines == [] then []
    else LineTokensFrom(lines[0], prefixes, l, 0) + LinesTokens(lines[1..], prefixes, l + 1)
  }

  /** The column the cursor is left at: the length of the last line, or
      where it stood before if there are no lines. */
  function FinalColumn(lines: seq<string>, column: nat): nat {
    if lines == [] then column else |lines[|lines| - 1]|
  }

  /** `GenerateTokens` over the scanned lines, with the cursors at `column`
      and `l` before: the tokens of all lines, then `EOF`. */
  function TokensOf(lines: seq<string>, prefixes: seq<string>, column: nat, l: nat): seq<Token> {
    var c := FinalColumn(lines, column);
    LinesTokens(lines, prefixes, l) + [Token(EOF, "", c, c, l + |lines|)]
  }

  // ---------------------------------------------------------------------
  // Properties

  /** Every token of a line has the line's index, a non-empty literal that
      is a prefix of the kept bytes of its span `[Start, End)` (equal to them
      unless a comment byte cut the span short), and is neither `EOF` nor
      `STRING`. */
  lemma {:induction false} LineTokensValid(line: string, prefixes: seq<string>, l: nat, c: nat)
    ensures forall t :: t in LineTokensFrom(line, prefixes, l, c) ==>
      && t.line == l && c <= t.start < t.end <= |line|
      && t.literal != "" && t.literal <= Kept(line[t.start..t.end])
      && t.tokenType != EOF && t.tokenType != STRING
    decreases |line| - c
  {
    if c < |line| {
      if IsWhitespace(line[c]) {
        LineTokensValid(line, prefixes, l, c + 1);
      } else {
        var r := LiteralAt(line, prefixes, c);
        LineTokensStep(line, prefixes, l, c);
        LineTokensValid(line, prefixes, l, r.next);
        if TrimSpace(r.literal) != "" {
          HeadLiteralValid(line, prefixes, c);
          ClassifyFirstByte(r.literal);
          var h := GenerateNewToken(r.literal, c, r.next, l);
          assert h.line == l && h.start == c && h.end == r.next && h.literal == r.literal;
          assert h.tokenType == Classify(r.literal);
        }
      }
    }
  }

  /** The literal gathered at a byte that is not white space, when it is not
      blank, spans forward inside the line, is a prefix of the kept bytes of
      its span. */
  lemma HeadLiteralValid(line: string, prefixes: seq<string>, c: nat)
    requires c < |line| && !IsWhitespace(line[c])
    requires TrimSpace(LiteralAt(line, prefixes, c).literal) != ""
    ensures var r := LiteralAt(line, prefixes, c);
      && c < r.next <= |line| && r.literal != "" && r.literal <= Kept(line[c..r.next])
  {
    var r := LiteralAt(line, prefixes, c);
    RunKept(line, prefixes, c, "");
    KeptAppend(line[c..r.stop], line[r.stop..r.next]);
    assert line[c..r.next] == line[c..r.stop] + line[r.stop..r.next];
    TrimSpaceOfEmpty();
  }

  /** The literals of a token list, one after the other. */
  function Literals(ts: seq<Token>): string {
    if ts == [] then "" else ts[0].literal + Literals(ts[1..])
  }

  lemma {:induction false} LiteralsAppend(a: seq<Token>, b: seq<Token>)
    ensures Literals(a + b) == Literals(a) + Literals(b)
  {
    if a != [] {
      assert (a + b)[0] == a[0] && (a + b)[1..] == a[1..] + b;
      LiteralsAppend(a[1..], b);
      assert Literals(a + b) == a[0].literal + (Literals(a[1..]) + Literals(b));
    } else {
      assert a + b == b;
    }
  }

  /** The first column at or after `c` holding a comment byte that is not
      white space, or the end of the line. */
  function CommentCut(line: string, prefixes: seq<string>, c: nat): (r: nat)
    requires c <= |line|
    ensures c <= r <= |line|
    decreases |line| - c
  {
    if c == |line| then c
    else if !IsWhitespace(line[c]) && IsCommentByte(line[c], prefixes) then c
    else CommentCut(line, prefixes, c + 1)
  }

  /** With no comment byte in `[c, j)`, the cut is at or after `j`, and
      where it is. */
  lemma {:induction false} CommentCutSkips(line: string, prefixes: seq<string>, c: nat, j: nat)
    requires c <= j <= |line| && NoCommentIn(line, prefixes, c, j)
    ensures CommentCut(line, prefixes, c) == CommentCut(line, prefixes, j)
    decreases j - c
  {
    if c < j {
      CommentCutSkips(line, prefixes, c + 1, j);
    }
  }

  /** The line's tokens spell, one after the other, exactly the bytes of the
      line that `generateLiteral` keeps, up to the first comment byte: every
      letter, digit, underscore, operator and punctuation byte, and nothing
      else. */
  lemma {:induction false} LineLiterals(line: string, prefixes: seq<string>, l: nat, c: nat)
    requires c <= |line|
    ensures Literals(LineTokensFrom(line, prefixes, l, c)) == Kept(line[c..CommentCut(line, prefixes, c)])
    decreases |line| - c
  {
    if c < |line| {
      if IsWhitespace(line[c]) {
        LineLiterals(line, prefixes, l, c + 1);
        SkipWhitespace(line, prefixes, c);
      } else {
        var r := LiteralAt(line, prefixes, c);
        RunKept(line, prefixes, c, "");
        LiteralHead(line, prefixes, l, c);
        if r.stop == r.next {
          LineLiterals(line, prefixes, l, r.next);
          LiteralThen(line, prefixes, c, Literals(LineTokensFrom(line, prefixes, l, r.next)));
        } else {
          LiteralCut(line, prefixes, c);
        }
      }
    }
  }

  /** A literal not ended by a comment byte, followed by the kept bytes from
      its end to the cut, is the kept bytes from its start to the cut. */
  lemma LiteralThen(line: string, prefixes: seq<string>, c: nat, rest: string)
    requires c < |line|
    requires LiteralAt(line, prefixes, c).stop == LiteralAt(line, prefixes, c).next
    requires var n := LiteralAt(line, prefixes, c).next; rest == Kept(line[n..CommentCut(line, prefixes, n)])
    ensures LiteralAt(line, prefixes, c).literal + rest == Kept(line[c..CommentCut(line, prefixes, c)])
  {
    var r := LiteralAt(line, prefixes, c);
    RunKept(line, prefixes, c, "");
    KeptUpToCut(line, prefixes, c, r.stop);
  }

  /** With no comment byte in `[c, stop)`, the kept bytes up to the cut are
      those of `[c, stop)` followed by those from `stop` to the cut. */
  lemma KeptUpToCut(line: string, prefixes: seq<string>, c: nat, stop: nat)
    requires c <= stop <= |line| && NoCommentIn(line, prefixes, c, stop)
    ensures Kept(line[c..CommentCut(line, prefixes, c)])
      == Kept(line[c..stop]) + Kept(line[stop..CommentCut(line, prefixes, stop)])
  {
    var cut := CommentCut(line, prefixes, c);
    CommentCutSkips(line, prefixes, c, stop);
    assert line[c..cut] == line[c..stop] + line[stop..cut];
    KeptAppend(line[c..stop], line[stop..cut]);
  }

  /** At a byte that is not white space, the literals are the literal
      `generateLiteral` gathers there, then those after it. */
  lemma LiteralHead(line: string, prefixes: seq<string>, l: nat, c: nat)
    requires c < |line| && !IsWhitespace(line[c])
    ensures var r := LiteralAt(line, prefixes, c);
      Literals(LineTokensFrom(line, prefixes, l, c)) == r.literal + Literals(LineTokensFrom(line, prefixes, l, r.next))
  {
    var r := LiteralAt(line, prefixes, c);
    var head := HeadTokens(r.literal, c, r.next, l);
    assert LineTokensFrom(line, prefixes, l, c) == head + LineTokensFrom(line, prefixes, l, r.next);
    assert r.literal == "" || TrimSpace(r.literal) != "" by {
      RunKept(line, prefixes, c, "");
      assert r.literal == Kept(line[c..r.stop]);
      KeptNotBlank(line[c..r.stop]);
    }
    HeadLiteral(r.literal, c, r.next, l);
    LiteralsAppend(head, LineTokensFrom(line, prefixes, l, r.next));
  }

  /** A literal ended by a comment byte ends the line, and that byte is the
      cut. */
  lemma LiteralCut(line: string, prefixes: seq<string>, c: nat)
    requires c < |line| && !IsWhitespace(line[c])
    requires LiteralAt(line, prefixes, c).stop < LiteralAt(line, prefixes, c).next
    ensures var r := LiteralAt(line, prefixes, c);
      r.next == |line| && r.literal == Kept(line[c..CommentCut(line, prefixes, c)])
  {
    var r := LiteralAt(line, prefixes, c);
    RunKept(line, prefixes, c, "");
    CommentCutSkips(line, prefixes, c, r.stop);
    assert !IsWhitespace(line[r.stop]);
  }

  /** A white-space byte is neither kept nor a cut. */
  lemma SkipWhitespace(line: string, prefixes: seq<string>, c: nat)
    requires c < |line| && IsWhitespace(line[c])
    ensures Kept(line[c..CommentCut(line, prefixes, c)]) == Kept(line[c + 1..CommentCut(line, prefixes, c + 1)])
  {
    var cut := CommentCut(line, prefixes, c);
    assert cut == CommentCut(line, prefixes, c + 1);
    assert line[c..cut] == [line[c]] + line[c + 1..cut];
    KeptAppend([line[c]], line[c + 1..cut]);
    assert Kept([line[c]]) == [];
  }

  /** Every token of the lines lies on the line its index names (`l` for
      the first): its span is inside that line, its literal is non-empty and
      a prefix of the kept bytes of its span, and it is neither `EOF` nor
      `STRING`. */
  lemma {:induction false} LinesTokensValid(lines: seq<string>, prefixes: seq<string>, l: nat)
    ensures forall t :: t in LinesTokens(lines, prefixes, l) ==>
      && l <= t.line < l + |lines| && 0 <= t.start < t.end <= |lines[t.line - l]|
      && t.literal != "" && t.literal <= Kept(lines[t.line - l][t.start..t.end])
      && t.tokenType != EOF && t.tokenType != STRING
    decreases |lines|
  {
    if lines != [] {
      var head := LineTokensFrom(lines[0], prefixes, l, 0);
      var tail := LinesTokens(lines[1..], prefixes, l + 1);
      LineTokensValid(lines[0], prefixes, l, 0);
      LinesTokensValid(lines[1..], prefixes, l + 1);
      forall t: Token | t in head + tail
        ensures && l <= t.line < l + |lines| && 0 <= t.start < t.end <= |lines[t.line - l]|
                && t.literal != "" && t.literal <= Kept(lines[t.line - l][t.start..t.end])
                && t.tokenType != EOF && t.tokenType != STRING
      {
        if t !in head {
          assert t in tail;
          assert lines[1..][t.line - (l + 1)] == lines[t.line - l];
        }
      }
    }
  }

  /** The result ends with exactly one `EOF` token: empty, at the column the
      cursor was left at, on the line after the last one scanned. */
  lemma OneEof(lines: seq<string>, prefixes: seq<string>, column: nat, l: nat)
    ensures var ts := TokensOf(lines, prefixes, column, l);
      && ts[|ts| - 1] == Token(EOF, "", FinalColumn(lines, column), FinalColumn(lines, column), l + |lines|)
      && forall i :: 0 <= i < |ts| - 1 ==> ts[i].tokenType != EOF
  {
    var ts := TokensOf(lines, prefixes, column, l);
    var body := LinesTokens(lines, prefixes, l);
    LinesTokensValid(lines, prefixes, l);
    assert forall i :: 0 <= i < |ts| - 1 ==> ts[i] == body[i];
  }

  /** The empty prefix makes every byte a comment byte: no line gives a
      token, and the result is `EOF` alone. */
  lemma {:induction false} EmptyPrefixLine(line: string, prefixes: seq<string>, l: nat, c: nat)
    requires "" in prefixes
    ensures LineTokensFrom(line, prefixes, l, c) == []
    decreases |line| - c
  {
    if c < |line| {
      if IsWhitespace(line[c]) {
        EmptyPrefixLine(line, prefixes, l, c + 1);
      } else {
        assert IsCommentByte(line[c], prefixes);
      }
    }
  }

  lemma {:induction false} EmptyPrefixDiscards(lines: seq<string>, prefixes: seq<string>, column: nat, l: nat)
    requires "" in prefixes
    ensures TokensOf(lines, prefixes, column, l) == [Token(EOF, "", FinalColumn(lines, column), FinalColumn(lines, column), l + |lines|)]
    decreases |lines|
  {
    if lines != [] {
      EmptyPrefixLine(lines[0], prefixes, l, 0);
      EmptyPrefixDiscards(lines[1..], prefixes, column, l + 1);
      assert LinesTokens(lines, prefixes, l) == LinesTokens(lines[1..], prefixes, l + 1);
    }
  }

  /** One more literal gathered, for the loop of `generateLineTokens`. */
  lemma LineTokensStep(line: string, prefixes: seq<string>, l: nat, c: nat)
    requires c < |line| && !IsWhitespace(line[c])
    ensures var r := LiteralAt(line, prefixes, c);
      && (TrimSpace(r.literal) != "" ==>
            LineTokensFrom(line, prefixes, l, c) == [GenerateNewToken(r.literal, c, r.next, l)] + LineTokensFrom(line, prefixes, l, r.next))
      && (TrimSpace(r.literal) == "" ==>
            LineTokensFrom(line, prefixes, l, c) == LineTokensFrom(line, prefixes, l, r.next))
  {
  }

  /** One more line scanned, for the loop of `GenerateTokens`. */
  lemma {:induction false} LinesTokensSnoc(lines: seq<string>, prefixes: seq<string>, k: nat, l: nat, column: nat)
    requires k < |lines|
    ensures LinesTokens(lines[..k + 1], prefixes, l) == LinesTokens(lines[..k], prefixes, l) + LineTokensFrom(lines[k], prefixes, l + k, 0)
    ensures FinalColumn(lines[..k + 1], column) == |lines[k]|
    decreases k
  {
    if k > 0 {
      LinesTokensSnoc(lines[1..], prefixes, k - 1, l + 1, column);
      assert lines[1..][..k] == lines[..k + 1][1..];
      assert lines[1..][..k - 1] == lines[..k][1..];
    } else {
      assert lines[..1] == [lines[0]];
    }
  }

  /** The loop step of `GenerateTokens`: the tokens gathered so far plus
      those of line `k` are the tokens of the first `k + 1` lines. */
  lemma LinesTokensStep(lines: seq<string>, prefixes: seq<string>, k: nat, l: nat, column: nat,
                        done: seq<Token>, next: seq<Token>)
    requires k < |lines|
    requires done == LinesTokens(lines[..k], prefixes, l)
    requires next == LineTokensFrom(lines[k], prefixes, l + k, 0)
    ensures done + next == LinesTokens(lines[..k + 1], prefixes, l)
    ensures FinalColumn(lines[..k + 1], column) == |lines[k]|
  {
    LinesTokensSnoc(lines, prefixes, k, l, column);
  }

  /** The loop step of `generateLineTokens`: with `done` gathered and the
      rest of the line still to give `goal`, white space is skipped, and a
      literal that is not blank is appended as a token, before going on
      from where the literal stopped. */
  lemma LineTokensAdvance(line: string, prefixes: seq<string>, l: nat, c: nat,
                          done: seq<Token>, goal: seq<Token>)
    requires c < |line|
    requires done + LineTokensFrom(line, prefixes, l, c) == goal
    ensures IsWhitespace(line[c]) ==> done + LineTokensFrom(line, prefixes, l, c + 1) == goal
    ensures !IsWhitespace(line[c]) ==>
      var r := LiteralAt(line, prefixes, c);
      && (TrimSpace(r.literal) != "" ==>
            && r.literal != ""
            && (done + [GenerateNewToken(r.literal, c, r.next, l)]) + LineTokensFrom(line, prefixes, l, r.next) == goal)
      && (TrimSpace(r.literal) == "" ==> done + LineTokensFrom(line, prefixes, l, r.next) == goal)
  {
    if !IsWhitespace(line[c]) {
      var r := LiteralAt(line, prefixes, c);
      LineTokensStep(line, prefixes, l, c);
      if TrimSpace(r.literal) != "" {
        TrimSpaceOfEmpty();
        ConcatAssoc(done, [GenerateNewToken(r.literal, c, r.next, l)], LineTokensFrom(line, prefixes, l, r.next));
      }
    }
  }

  // ---------------------------------------------------------------------
  // The lexer object

  class DraskenLexer {
    const input: string
    const commentPrefixes: seq<string>
    var columnPosition: nat
    var linePosition: nat

    /** `NewLexer`: both cursors at 0; nothing is scanned yet. */
    constructor (input: string, commentPrefixes: seq<string>)
      ensures this.input == input && this.commentPrefixes == commentPrefixes
      ensures columnPosition == 0 && linePosition == 0
    {
      this.input := input;
      this.commentPrefixes := commentPrefixes;
      columnPosition := 0;
      linePosition := 0;
    }

    /** The comment-prefix loop of `generateLiteral`: the flag it names
        `isKnownComment` stays true unless some prefix starts the byte as a
        trimmed one-character string. */
    method PrefixSearch(ch: char) returns (isKnownComment: bool)
      ensures isKnownComment == !HasAnyPrefix(TrimSpace([ch]), commentPrefixes)
      ensures isKnownComment == !IsCommentByte(ch, commentPrefixes)
    {
      isKnownComment := true;
      var trimmed := TrimSpace([ch]);
      var j := 0;
      while j < |commentPrefixes|
        invariant j <= |commentPrefixes|
        invariant forall q :: 0 <= q < j ==> !(commentPrefixes[q] <= trimmed)
      {
        if commentPrefixes[j] <= trimmed {
          assert commentPrefixes[j] in commentPrefixes;
          isKnownComment := false;
          break;
        }
        j := j + 1;
      }
      CommentByteIff(ch, commentPrefixes);
    }

    /** `generateLiteral`: gathers the literal at the cursor and leaves the
        cursor after it. */
    method GenerateLiteral(line: string) returns (literal: string)
      requires columnPosition <= |line|
      modifies this`columnPosition
      ensures var r := LiteralAt(line, commentPrefixes, old(columnPosition));
        literal == r.literal && columnPosition == r.next
      ensures linePosition == old(linePosition)
    {
      ghost var goal := LiteralAt(line, commentPrefixes, columnPosition);
      literal := "";
      var i := columnPosition;
      while i < |line|
        invariant i <= |line|
        invariant RunFrom(line, commentPrefixes, i, literal) == goal
        invariant linePosition == old(linePosition)
        decreases |line| - i
      {
        var ch := line[i];
        var isKnownComment := PrefixSearch(ch);
        if !isKnownComment {
          i := |line|;
          break;
        } else if IsWhitespace(ch) {
          break;
        } else if IsAlphanumericOrUnderscore(ch) {
          literal := literal + [ch];
        } else if literal != "" && (IsOperator(ch) || IsPunctuation(ch)) {
          break;
        } else if IsOperator(ch) {
          if ch == '=' && i + 1 < |line| && line[i + 1] == '=' {
            literal := literal + "==";
            i := i + 2;
          } else {
            literal := literal + [ch];
            i := i + 1;
          }
          break;
        } else if IsPunctuation(ch) {
          literal := literal + [ch];
          i := i + 1;
          break;
        }
        i := i + 1;
      }
      columnPosition := i;
    }

    /** `generateLineTokens`: the tokens of `line` from the cursor on; the
        cursor ends at the end of the line. */
    method GenerateLineTokens(line: string) returns (tokens: seq<Token>)
      modifies this`columnPosition
      ensures tokens == LineTokensFrom(line, commentPrefixes, old(linePosition), old(columnPosition))
      ensures columnPosition == if old(columnPosition) < |line| then |line| else old(columnPosition)
      ensures linePosition == old(linePosition)
    {
      ghost var goal := LineTokensFrom(line, commentPrefixes, linePosition, columnPosition);
      tokens := [];
      while columnPosition < |line|
        invariant linePosition == old(linePosition)
        invariant columnPosition == old(columnPosition) || old(columnPosition) < columnPosition <= |line|
        invariant tokens + LineTokensFrom(line, commentPrefixes, linePosition, columnPosition) == goal
        decreases |line| - columnPosition
      {
        LineTokensAdvance(line, commentPrefixes, linePosition, columnPosition, tokens, goal);
        var ch := line[columnPosition];
        if IsWhitespace(ch) {
          columnPosition := columnPosition + 1;
          continue;
        }
        var literalStart := columnPosition;
        var literal := GenerateLiteral(line);
        if TrimSpace(literal) != "" {
          var token := GenerateNewToken(literal, literalStart, columnPosition, linePosition);
          tokens := tokens + [token];
        }
      }
    }

    /** The loop of `GenerateTokens` over the scanned lines: each line's
        tokens from column 0, the line cursor counting the lines. */
    method GenerateLinesTokens(lines: seq<string>) returns (tokens: seq<Token>)
      modifies this`columnPosition, this`linePosition
      ensures tokens == LinesTokens(lines, commentPrefixes, old(linePosition))
      ensures linePosition == old(linePosition) + |lines|
      ensures columnPosition == FinalColumn(lines, old(columnPosition))
    {
      ghost var line0, column0 := linePosition, columnPosition;
      tokens := [];
      var k := 0;
      while k < |lines|
        invariant k <= |lines|
        invariant linePosition == line0 + k
        invariant columnPosition == FinalColumn(lines[..k], column0)
        invariant tokens == LinesTokens(lines[..k], commentPrefixes, line0)
      {
        columnPosition := 0;
        var tok := GenerateLineTokens(lines[k]);
        LinesTokensStep(lines, commentPrefixes, k, line0, column0, tokens, tok);
        tokens := tokens + tok;
        linePosition := linePosition + 1;
        k := k + 1;
      }
      assert lines[..k] == lines;
    }

    /** `GenerateTokens`: the tokens of every line the scanner reads from the
        input, then `EOF` at the cursors the loop leaves. */
    method GenerateTokens() returns (tokens: seq<Token>)
      modifies this`columnPosition, this`linePosition
      ensures var lines := ScanLines(input);
        && tokens == TokensOf(lines, commentPrefixes, old(columnPosition), old(linePosition))
        && linePosition == old(linePosition) + |lines|
        && columnPosition == FinalColumn(lines, old(columnPosition))
    {
      var lines := ScanLines(input);
      tokens := GenerateLinesTokens(lines);
      tokens := tokens + [Token(EOF, "", columnPosition, columnPosition, linePosition)];
    }
  }
}
