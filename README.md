# drasken-go-lexer, modelled in Dafny

This project models the tokenizer of drasken-go-lexer, a small Go lexer, and
proves properties of it. The lexer turns source text into a list of tokens.
Each token has a kind, a literal, a half-open column span `[Start, End)` and a
0-based line index, and the list always ends with one `EOF` token. Lines whose
trimmed text starts with a configured comment prefix are skipped.

The repository holds two lexers and a shared token classifier:

- `lexer/lexer.go` is the line-splitting scanner. `DraskenLexer` keeps two
  cursors, `columnPosition` and `linePosition`. `GenerateTokens` splits the
  input on line feeds and skips comment lines. On every other line it skips
  white space, reads backtick raw strings (which may cross lines) and
  otherwise calls `generateLiteral`. That function reads a quoted string, a
  number, an identifier, `==`, or a single operator, punctuation or unknown
  byte.
- `lexer/token.go` holds the kind enumeration, the token record,
  `GenerateNewToken` (an exact table of 23 symbols, then a decision on the
  first byte) and the `tokenTypeNames` table.
- `src/github.com/drasken-go-lexer/lexer/lexer.go` is the earlier lexer. It
  reads the input line by line through a `bufio.Scanner`. Its
  `generateLiteral` gathers runs of letters, digits and underscores. It
  silently drops bytes of no class, takes operators and punctuation alone,
  and cuts the rest of a line at a byte whose one-character string starts
  with a comment prefix.

Files:

- `strings.dfy` (module `Strings`): the Go library functions the lexers use.
  These are `strings.TrimSpace`, `strings.HasPrefix` over a prefix list,
  `strings.Split(s, "\n")` with its inverse, and the line splitting of
  `bufio.Scanner`.
- `char_class.dfy` (module `CharClass`): the byte predicates. Both lexer
  files carry identical copies of them.
- `token.dfy` (module `Tokens`): kinds, the token record, the classifier and
  the name table.
- `lexer.dfy` (module `Lexer`): the line-splitting scanner. It has
  specification functions that follow its loops, the class `DraskenLexer`
  whose methods are proved against them, and lemmas about both.
- `lexer_tests.dfy` (module `LexerTests`): the repository's own lexer test
  and documented scenarios, proved about the model.
- `line_lexer.dfy` (module `LineLexer`): the earlier lexer, with its own
  class `DraskenLexer`.
- `line_lexer_tests.dfy` (module `LineLexerTests`): worked inputs for the
  earlier lexer.

Bytes are `char`s below 128. Integers are unbounded; the lexers only count
columns and lines, so no overflow is modelled.

Where the code and the repository's description disagree, the model
follows the code:

- A raw string that crosses lines makes the column loop go on in the text of
  the line where the raw string opened, from the closing column. The tokens
  made there carry the closing line's index. So the documented scenario
  `` `multi `` / `` line` `` also yields an `IDENT` token `i`
  (`LexerTests.MultiLineRawString`).
- A raw string left open at the end of the input has `End == 0`. The column
  loop then scans the opening line again from column 0, on a line index one
  past the last line (`LexerTests.UnterminatedRawString`).
- Skipping a comment line does not reset the column cursor, so the `EOF`
  column is where the column loop of the last scanned line stopped, not the
  length of the last line. That is usually the scanned line's length. After
  a raw string that crosses lines, it can be the column where the raw string
  closed: `` ` `` / ``ab`cdef`` ends with `EOF` at column 3
  (`LexerTests.RawStringEofColumn`).
- `lexer/lexer.go` gives raw strings the kind `STRING`, which
  `lexer/token.go` never declares. The model adds `STRING` to the kinds and
  to the name table.
- In the earlier lexer a comment prefix is compared with one byte at a time.
  So a prefix of two bytes or more, such as `//`, never matches, and a
  one-byte prefix cuts a line even in the middle of a literal.

## Model

| member | source | states |
|---|---|---|
| Strings.TrimSpaceSpec | lexer/lexer.go:237 | `strings.TrimSpace` gives the input with a white-space prefix and a white-space suffix cut off, which neither starts nor ends with white space, and which is empty exactly when the input is all white space |
| Strings.TrimSpaceOfByte | src/github.com/drasken-go-lexer/lexer/lexer.go:100 | a one-byte string trims to nothing when the byte is white space, and to itself otherwise |
| Strings.HasAnyPrefix | lexer/lexer.go:238-243 | the prefix loop answers true exactly when some listed prefix starts the string; the empty prefix always matches, and an empty list never does |
| Strings.Split | lexer/lexer.go:32 | `strings.Split(s, "\n")` gives at least one piece, and no piece holds a line feed |
| Strings.JoinSplit | lexer/lexer.go:32 | joining the pieces of `strings.Split(s, "\n")` with line feeds gives `s` back |
| Strings.SplitJoin | lexer/lexer.go:32 | splitting lines that hold no line feed, once joined, gives the same lines back |
| Strings.ScanLinesTerminated | src/github.com/drasken-go-lexer/lexer/lexer.go:35-36 | the scanner's line splitting gives back every line of text that ends each line with a line feed |
| Tokens.ClassifyFirstByte | lexer/token.go:140-149 | a literal is never `EOF` nor `STRING`; it is `INT` exactly when its first byte is a digit and `IDENT` exactly when it is a letter or `_` |
| Tokens.ClassifySpelling | lexer/token.go:93-139 | each of the 23 operator and punctuation kinds is what its own symbol classifies as |
| Tokens.ClassifySymbol | lexer/token.go:93-139 | a literal classified as a symbol kind is exactly that kind's symbol, and a literal classified otherwise is none of the 23 symbols |
| Tokens.ClassifyIllegal | lexer/token.go:147-148 | a literal is `ILLEGAL` exactly when it is no symbol and starts with neither a digit, a letter nor `_` |
| Tokens.TokenTypeName | lexer/token.go:47-75 | every kind's name in `tokenTypeNames` reads back as that kind |
| Tokens.TokenTypeNameInjective | lexer/token.go:47-75 | no two kinds share a name |
| Tokens.TokenTypeNameUpper | lexer/token.go:47-75 | every name is a non-empty word of upper-case letters |
| Tokens.TokenTestOperators | lexer/token_test.go:20-28 | the arithmetic and comparison operators, `=` and `==` classify as in the token test |
| Tokens.TokenTestLogicalOperators | lexer/token_test.go:29-32 | `!`, `&`, `\|` and `^` classify as in the token test |
| Tokens.TokenTestPunctuation | lexer/token_test.go:35-38 | `.`, `,`, `;` and `:` classify as in the token test |
| Tokens.TokenTestBrackets | lexer/token_test.go:39-44 | the six brackets classify as in the token test |
| Tokens.TokenTestLiterals | lexer/token_test.go:47-52 | `123` is `INT`, `abc` and `_foo` are `IDENT`, and `@` is `ILLEGAL`, as in the token test; `1.5` is `INT`, and a quoted string and `.5` are `ILLEGAL`; the literal, span and line of `_foo` are copied unchanged |
| Lexer.ShouldSkipLine | lexer/lexer.go:236-244 | a line is skipped exactly when some prefix starts its trimmed text; the empty prefix skips every line, and no prefix skips none |
| Lexer.QuoteSpan | lexer/lexer.go:126-138 | a quoted string ends just past the first byte equal to its opening quote, or at the end of the line when there is none |
| Lexer.NumberSpan | lexer/lexer.go:141-157 | a number holds digits and at most one `.`, and stops at the first byte that is neither a digit nor an admissible dot |
| Lexer.IdentSpan | lexer/lexer.go:160-167 | an identifier is a maximal run of letters, digits and `_` |
| Lexer.LiteralEnd | lexer/lexer.go:121-188 | `generateLiteral` always moves the column forward and stays in the line; a quote, a digit (or a `.` before a digit), and a letter or `_` start a literal that ends where `QuoteEnd`, `NumberEnd` and `IdentEnd` say; `==` takes two bytes; any other operator, a punctuation byte (not a `.` before a digit), and any byte that starts no quote, number or identifier take one |
| Lexer.RawFrom | lexer/lexer.go:63-83 | the raw-string loop never moves the line cursor back nor past the last line, and on its own line never moves the column back |
| Lexer.RawFromShape | lexer/lexer.go:63-83 | the raw-string loop meets no backtick before its stop; stopping on a line, it has just read the closing backtick, which ends the body; running off the input, its body holds no backtick |
| Lexer.RawSameLine | lexer/lexer.go:66-72 | a raw string closed on its own line reads up to and including the first backtick and stops just past it |
| Lexer.RawNextLine | lexer/lexer.go:74-82 | a line with no backtick left is read to its end, a line feed is added, and reading goes on at column 0 of the next line |
| Lexer.RawUnterminated | lexer/lexer.go:64-83 | a raw string never closed reads every remaining line with a line feed after each and stops at column 0 past the last line |
| Lexer.ScanLineTrimmedByte | lexer/lexer.go:97-102 | a vertical tab or form feed is consumed alone and adds no token |
| Lexer.ScanFromWellFormed | lexer/lexer.go:34-106 | the scan keeps the tokens it was given and adds only well-formed ones, and it stops with the line cursor at or one past the last line |
| Lexer.ScanFromSpans | lexer/lexer.go:34-106 | every token the line loop adds other than a raw string has as its literal the text of a line of the input, at or before the token's line, between the token's start and end columns |
| Lexer.ScanLineSpans | lexer/lexer.go:46-103 | the same for the column loop over one line, even after a raw string has moved the line cursor past that line |
| Lexer.TokenizeSpans | lexer/lexer.go:34-116 | every token returned other than a raw string and the final `EOF` is the text of a line of the input between its start and end columns |
| Lexer.ScanLineWellFormed | lexer/lexer.go:46-103 | the same for the loop over the columns of one line |
| Lexer.TokenizeEndsWithEof | lexer/lexer.go:108-116 | the result is well-formed tokens, none of them `EOF`, followed by one `EOF` token with an empty literal and an empty span, on the line after the last or one further |
| Lexer.ScanFromAllSkipped | lexer/lexer.go:38-41 | with the empty prefix every line is passed over and the column cursor is left alone |
| Lexer.TokenizeAllSkipped | lexer/lexer.go:30-117 | with the empty prefix the result is `EOF` alone, at column 0 of the line after the last |
| Lexer.LineTokensAnchored | lexer/lexer.go:97-102 | every token of a line has that line's index; its literal is exactly the text from its start to its end column, not blank, and classified from itself |
| Lexer.ProgramTokensAnchored | lexer/lexer.go:34-106 | every token lies on a line that is not a comment line, and its literal is that line's text between its columns |
| Lexer.LineTokensOrdered | lexer/lexer.go:46-103 | a line's tokens come in column order without overlapping, none before the column the loop started at |
| Lexer.LineTokensCover | lexer/lexer.go:46-103 | every byte of a line that no token covers is white space, vertical tab or form feed: no other byte is dropped |
| Lexer.LineTokensGap | lexer/lexer.go:50-53 | white space between literals is passed over with no token |
| Lexer.LineTokensTiles | lexer/lexer.go:97-102 | a line made of white space and literal spans gives one classified token per span, in order |
| Lexer.ScanLineNoRaw | lexer/lexer.go:46-103 | without backticks, the column loop reads a line to its end and adds that line's tokens |
| Lexer.ScanFromNoRaw | lexer/lexer.go:34-106 | without backticks, the scan gives the tokens of the lines that are not comment lines, in order |
| Lexer.ScanProgram | lexer/lexer.go:34-106 | the line loop over a whole program without backticks |
| Lexer.TokenizeLines | lexer/lexer.go:30-117 | lines with no backtick, joined by line feeds, give the tokens of the lines that are scanned and then `EOF` on the line after the last |
| Lexer.TokenizeNoRaw | lexer/lexer.go:30-117 | input without backticks gives the tokens of its lines that are not comment lines, then `EOF` |
| Lexer.SplitNoRaw | lexer/lexer.go:32 | a line of input without backticks holds none |
| Lexer.DraskenLexer.constructor | lexer/lexer.go:22-25 | a new lexer keeps its input and prefixes and has both cursors at 0 |
| Lexer.DraskenLexer.GenerateLiteral | lexer/lexer.go:121-188 | the column moves to the end of the literal, and the returned literal is the line's text between the old and new columns |
| Lexer.DraskenLexer.ReadRawString | lexer/lexer.go:56-83 | the raw-string block returns a backtick and the body read by the raw-string loop, and leaves both cursors where that loop stops |
| Lexer.DraskenLexer.ScanColumns | lexer/lexer.go:46-103 | the column loop stops at the end of the text with the line cursor no further than one past the last line, and the specified scan from where it started equals the specified scan from where it stopped, over the tokens it built |
| Lexer.DraskenLexer.GenerateTokens | lexer/lexer.go:30-117 | the result is the specified scan of the split input, followed by `EOF` at the final cursors, and the cursors end where the scan stops |
| LexerTests.TestLineKinds | lexer/lexer_test.go:11-18 | in the test input, lines 1 and 4 are comment lines for the prefix `//` and the others are not |
| LexerTests.TestLineTokens | lexer/lexer_test.go:11-26 | the tokens of each scanned line of the test input |
| LexerTests.TestProgram | lexer/lexer_test.go:11-26 | the test input's scanned lines give the 20 expected tokens, and the column ends at 14 |
| LexerTests.FirstStatement | lexer/lexer_test.go:13 | `x = 5 + 10;` on line 2 gives its six tokens with their spans |
| LexerTests.SecondStatement | lexer/lexer_test.go:14 | `y = x * 2;` on line 3 gives its six tokens with their spans |
| LexerTests.ThirdStatement | lexer/lexer_test.go:16 | `z = y / 2 - 1;` on line 5 gives its eight tokens with their spans |
| LexerTests.TestGenerateTokens | lexer/lexer_test.go:10-35 | the test program gives the 20 expected literals in order, then `EOF` at column 14 of line 6 |
| LexerTests.EmptyInput | lexer/lexer.go:32-116 | empty input is one empty line, so the result is `EOF` alone at column 0 of line 1 |
| LexerTests.IllegalByte | lexer/lexer.go:185-187 | a byte of no class is an `ILLEGAL` token of its own |
| LexerTests.MultiLineRawString | lexer/lexer.go:56-95 | a raw string crossing a line break is one `STRING` token on the opening line, ending at the closing column; scanning then goes on in the opening line's text |
| LexerTests.RawStringEofColumn | lexer/lexer.go:56-115 | after a raw string closing at column 3 of the next line, the rest of that line gives no token and `EOF` sits at column 3, the length of neither line |
| LexerTests.UnterminatedRawString | lexer/lexer.go:63-95 | a raw string never closed takes the rest of the input with a line feed and ends at column 0. The opening line is then scanned again on the line after the last: its backtick opens a second raw string with nothing to read, and the rest gives its usual tokens |
| LineLexer.CommentByteIff | src/github.com/drasken-go-lexer/lexer/lexer.go:97-104 | the prefix search over a trimmed one-byte string matches exactly when the empty prefix is listed, or the byte is not white space and is itself a listed prefix |
| LineLexer.LongPrefixNeverMatches | src/github.com/drasken-go-lexer/lexer/lexer.go:99-104 | prefixes of two bytes or more, such as `//`, never match |
| LineLexer.RunFrom | src/github.com/drasken-go-lexer/lexer/lexer.go:94-133 | the literal loop never moves the cursor back nor past the end of the line, and from a byte that is not white space it always moves it |
| LineLexer.RunKept | src/github.com/drasken-go-lexer/lexer/lexer.go:94-130 | the gathered literal is exactly the kept bytes (letters, digits, `_`, operators, punctuation) up to where taking stopped; no comment byte comes before that; the cursor jumps beyond it only to the end of the line, from a comment byte |
| LineLexer.RunStops | src/github.com/drasken-go-lexer/lexer/lexer.go:94-132 | no white space lies between where a call starts and where it stops; a call returns either a run of letters, digits and `_`, stopped by the end of the line, white space, a comment byte (which moves the cursor to the end of the line), or an operator or punctuation byte after a non-empty run; or, from nothing gathered, `==` whole or one operator or punctuation byte, which are the bytes just before where it stops; with `LineLexer.RunKept`, this makes the stop the first stop byte from the start |
| LineLexer.KeptNotBlank | src/github.com/drasken-go-lexer/lexer/lexer.go:78 | a gathered literal holds only kept bytes, so `strings.TrimSpace` leaves it non-empty when it is non-empty |
| LineLexer.LineTokensValid | src/github.com/drasken-go-lexer/lexer/lexer.go:63-85 | every token of a line has the line's index and a span inside the line with `Start < End`; its literal is non-empty, a prefix of the kept bytes of its span, and never `EOF` nor `STRING` |
| LineLexer.LineLiterals | src/github.com/drasken-go-lexer/lexer/lexer.go:63-85 | the literals of a line's tokens, one after the other, are exactly the line's kept bytes up to the first comment byte |
| LineLexer.LinesTokensValid | src/github.com/drasken-go-lexer/lexer/lexer.go:36-43 | every token of the lines lies on the line its index names: its span is inside that line with `Start < End`, its literal is non-empty and a prefix of the kept bytes of the span, and it is neither `EOF` nor `STRING` |
| LineLexer.LinesTokensSnoc | src/github.com/drasken-go-lexer/lexer/lexer.go:36-43 | one more line scanned appends that line's tokens and leaves the column at its length |
| LineLexer.OneEof | src/github.com/drasken-go-lexer/lexer/lexer.go:50-58 | the result ends with one `EOF` token, empty, at the final column and on the line after the last, and no other token is `EOF` |
| LineLexer.EmptyPrefixLine | src/github.com/drasken-go-lexer/lexer/lexer.go:97-107 | with the empty prefix no line gives a token |
| LineLexer.EmptyPrefixDiscards | src/github.com/drasken-go-lexer/lexer/lexer.go:32-58 | with the empty prefix the result is `EOF` alone |
| LineLexer.DraskenLexer.constructor | src/github.com/drasken-go-lexer/lexer/lexer.go:24-27 | a new lexer keeps its input and prefixes and has both cursors at 0 |
| LineLexer.DraskenLexer.PrefixSearch | src/github.com/drasken-go-lexer/lexer/lexer.go:98-104 | the prefix loop clears its flag exactly when some prefix starts the trimmed one-byte string, that is, when the byte is a comment byte |
| LineLexer.DraskenLexer.GenerateLiteral | src/github.com/drasken-go-lexer/lexer/lexer.go:90-134 | the returned literal and the new column are those of the specified literal loop from the old column |
| LineLexer.DraskenLexer.GenerateLineTokens | src/github.com/drasken-go-lexer/lexer/lexer.go:63-85 | the result is the specified tokens of the line from the old column, and the column ends at the end of the line |
| LineLexer.DraskenLexer.GenerateLinesTokens | src/github.com/drasken-go-lexer/lexer/lexer.go:36-43 | the result is the specified tokens of every given line, each from column 0; the line cursor moves by the number of lines and the column ends at the last line's length, or stays put if there are none |
| LineLexer.DraskenLexer.GenerateTokens | src/github.com/drasken-go-lexer/lexer/lexer.go:32-59 | the result is the tokens of every scanned line, then `EOF`; the line cursor moves by the number of lines and the column ends at the last line's length |
| LineLexerTests.DroppedByteInsideLiteral | src/github.com/drasken-go-lexer/lexer/lexer.go:108-130 | `a@b` is the single literal `ab`, an `IDENT` spanning columns 0 to 3 |
| LineLexerTests.OnlyDroppedBytes | src/github.com/drasken-go-lexer/lexer/lexer.go:76-81 | a line `@` gives no token |
| LineLexerTests.RunOfDigitsAndLetters | src/github.com/drasken-go-lexer/lexer/lexer.go:110-111 | `12ab` is one literal, classified `INT` |
| LineLexerTests.DecimalIsThreeTokens | src/github.com/drasken-go-lexer/lexer/lexer.go:112-128 | `1.5` gives `1`, `.` and `5` |
| LineLexerTests.EqualityBetweenIdentifiers | src/github.com/drasken-go-lexer/lexer/lexer.go:114-123 | `x==y` gives `x`, `==` and `y` |
| LineLexerTests.CommentByteEndsLine | src/github.com/drasken-go-lexer/lexer/lexer.go:97-107 | with the prefix `#`, `a#b c` gives only `a`, whose span runs to the end of the line |
| LineLexerTests.SlashSlashIsTwoOperators | src/github.com/drasken-go-lexer/lexer/lexer.go:99-104 | with the prefix `//`, the line `//` gives two `SLASH` tokens |
| LineLexerTests.AssignmentLine | src/github.com/drasken-go-lexer/lexer/lexer.go:67-82 | `x = 1` gives three tokens, with the white space skipped |
| LineLexerTests.EmptyInputIsEof | src/github.com/drasken-go-lexer/lexer/lexer.go:35-58 | empty input has no lines, so the result is `EOF` alone at column 0 of line 0 |
| LineLexerTests.TwoLines | src/github.com/drasken-go-lexer/lexer/lexer.go:35-58 | a CR LF line break ends a line like a line feed; each token has its line's index, and `EOF` is on line 2 at the last line's length |
| LineLexerTests.LexOneLine | src/github.com/drasken-go-lexer/lexer/lexer.go:32-59 | a new lexer over `x = 1` returns the three tokens and `EOF` |

## Left out

- The example programs `example/main.go` and `internal/example/main.go`: they only read a file, print and panic.
- `Token.String` (`lexer/token.go:164-169`): it only formats with `fmt.Sprintf`. The model keeps the name table it looks kinds up in (`Tokens.TokenTypeName`).
- The fields `position` and `ch` of both lexers: no code reads or writes them.
- `bufio.Scanner`'s 64 KiB line limit, its read errors, and the message the earlier lexer prints for them. `Strings.ScanLines` models only how the scanner splits text into lines: on line feeds, dropping one trailing carriage return, with no final empty line.
- Bytes of 128 and above: `strings.TrimSpace` would treat some of them as Unicode white space, and `string(ch)` in both `generateLiteral`s turns such a byte into two UTF-8 bytes, so the literal would no longer be the line's bytes between the token's columns. The model covers ASCII only.
- `TestGenerateLineTokens` (`lexer/lexer_test.go:40-67`): its body is commented out.
- Growth of Go slices and `strings.Builder`: both are modelled as sequence append.
- The model splits four blocks out into methods of their own. `Lexer.DraskenLexer.ReadRawString` is the raw-string block of `GenerateTokens`. `Lexer.DraskenLexer.ScanColumns` is its column loop. `LineLexer.DraskenLexer.GenerateLinesTokens` is the scanner loop of the earlier `GenerateTokens`. `LineLexer.DraskenLexer.PrefixSearch` is the comment-prefix loop of the earlier `generateLiteral`. In the Go code each one is written inline.
- `lexer/lexer.go` does not compile as written, because `STRING` is not declared. The model declares it and names it `STRING` in the name table.
