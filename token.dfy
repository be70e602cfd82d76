/**
  Token kinds, the token record and the literal classifier
  (`GenerateNewToken`). The kind enumeration follows the lexer's own
  constants and adds `STRING`, the kind the line scanner gives to backtick
  raw strings.
 */
module Tokens {
  import opened CharClass

  datatype Option<T> = None | Some(value: T)

  datatype TokenType =
    | ILLEGAL | EOF
    | IDENT | INT | STRING
    | ASSIGN | PLUS | MINUS | ASTERISK | SLASH | PERCENT | EQ
    | LT | GT | BANG | AND | OR | XOR
    | DOT | COMMA | SEMICOLON | COLON
    | LPAREN | RPAREN | LBRACE | RBRACE | LBRACKET | RBRACKET

  /** A classified literal with its half-open column span `[start, end)` and
      its 0-based line index. */
  datatype Token = Token(tokenType: TokenType, literal: string, start: int, end: int, line: int)

  /** The symbol each operator or punctuation kind is spelled with; `None`
      for the kinds that have no fixed spelling. */
  function Spelling(k: TokenType): Option<string> {
    match k
    case ASSIGN => Some("=")
    case PLUS => Some("+")
    case MINUS => Some("-")
    case ASTERISK => Some("*")
    case SLASH => Some("/")
    case PERCENT => Some("%")
    case EQ => Some("==")
    case LT => Some("<")
    case GT => Some(">")
    case BANG => Some("!")
    case AND => Some("&")
    case OR => Some("|")
    case XOR => Some("^")
    case DOT => Some(".")
    case COMMA => Some(",")
    case SEMICOLON => Some(";")
    case COLON => Some(":")
    case LPAREN => Some("(")
    case RPAREN => Some(")")
    case LBRACE => Some("{")
    case RBRACE => Some("}")
    case LBRACKET => Some("[")
    case RBRACKET => Some("]")
    case _ => None
  }

  /** The literal is one of the 23 operator and punctuation symbols. */
  ghost predicate IsSymbol(literal: string) {
    exists k :: Spelling(k) == Some(literal)
  }

  /** The `switch` of `GenerateNewToken` over the 23 symbol literals: the
      kind a literal matches exactly, if any. A one-byte literal is looked up
      by its byte; `==` is the only two-byte symbol. */
  function SymbolKind(literal: string): Option<TokenType> {
    if |literal| == 1 then
      match literal[0]
      case '+' => Some(PLUS)
      case '-' => Some(MINUS)
      case '*' => Some(ASTERISK)
      case '/' => Some(SLASH)
      case '%' => Some(PERCENT)
      case '=' => Some(ASSIGN)
      case '<' => Some(LT)
      case '>' => Some(GT)
      case '!' => Some(BANG)
      case '&' => Some(AND)
      case '|' => Some(OR)
      case '^' => Some(XOR)
      case '.' => Some(DOT)
      case ',' => Some(COMMA)
      case ';' => Some(SEMICOLON)
      case ':' => Some(COLON)
      case '(' => Some(LPAREN)
      case ')' => Some(RPAREN)
      case '{' => Some(LBRACE)
      case '}' => Some(RBRACE)
      case '[' => Some(LBRACKET)
      case ']' => Some(RBRACKET)
      case _ => None
    else if literal == "==" then Some(EQ)
    else None
  }

  /** The kind `GenerateNewToken` gives a literal: an exact match in the
      symbol table, otherwise a decision on the first byte alone. */
  function Classify(literal: string): TokenType
    requires literal != ""
  {
    match SymbolKind(literal)
    case Some(k) => k
    case None =>
      if IsDigit(literal[0]) then INT
      else if IsLetter(literal[0]) || IsUnderscore(literal[0]) then IDENT
      else ILLEGAL
  }

  /** `GenerateNewToken`: the classified token; literal and positions are
      copied unchanged. */
  function GenerateNewToken(literal: string, start: int, end: int, line: int): Token
    requires literal != ""
  {
    Token(Classify(literal), literal, start, end, line)
  }

  /** A literal is never classified `EOF` nor `STRING`; it is `INT` exactly
      when it starts with a digit, and `IDENT` exactly when it starts with a
      letter or an underscore. */
  lemma ClassifyFirstByte(literal: string)
    requires literal != ""
    ensures Classify(literal) != EOF && Classify(literal) != STRING
    ensures Classify(literal) == INT <==> IsDigit(literal[0])
    ensures Classify(literal) == IDENT <==> IsLetter(literal[0]) || IsUnderscore(literal[0])
  {
    if |literal| == 1 {
      assert literal == [literal[0]];
    }
  }

  /** Every symbol classifies as the kind it spells. */
  lemma ClassifySpelling(k: TokenType)
    requires Spelling(k).Some?
    ensures Classify(Spelling(k).value) == k
  {
    match k
    case ASSIGN => case PLUS => case MINUS => case ASTERISK => case SLASH =>
    case PERCENT => case EQ => case LT => case GT => case BANG => case AND =>
    case OR => case XOR => case DOT => case COMMA => case SEMICOLON =>
    case COLON => case LPAREN => case RPAREN => case LBRACE => case RBRACE =>
    case LBRACKET => case RBRACKET =>
  }

  /** Conversely, a literal classified as an operator or punctuation kind is
      exactly that kind's symbol, and every other literal is no symbol. */
  lemma ClassifySymbol(literal: string)
    requires literal != ""
    ensures Spelling(Classify(literal)).Some? ==> Spelling(Classify(literal)) == Some(literal)
    ensures Spelling(Classify(literal)).None? ==> !IsSymbol(literal)
  {
    if |literal| == 1 {
      assert literal == [literal[0]];
    }
    if Spelling(Classify(literal)).None? && IsSymbol(literal) {
      var k :| Spelling(k) == Some(literal);
      ClassifySpelling(k);
    }
  }

  /** A literal that is no symbol and starts with neither a digit, a letter
      nor an underscore is `ILLEGAL`, and only those are. */
  lemma ClassifyIllegal(literal: string)
    requires literal != ""
    ensures Classify(literal) == ILLEGAL <==>
      !IsSymbol(literal) && !IsDigit(literal[0]) && !IsLetter(literal[0]) && !IsUnderscore(literal[0])
  {
    ClassifySymbol(literal);
  }

  /** `tokenTypeNames`: the upper-case name of each kind, which reads back
      as that kind. */
  function TokenTypeName(k: TokenType): (name: string)
    ensures KindOfName(name) == Some(k)
  {
    match k
    case ILLEGAL => "ILLEGAL"
    case EOF => "EOF"
    case IDENT => "IDENT"
    case INT => "INT"
    case STRING => "STRING"
    case ASSIGN => "ASSIGN"
    case PLUS => "PLUS"
    case MINUS => "MINUS"
    case ASTERISK => "ASTERISK"
    case SLASH => "SLASH"
    case PERCENT => "PERCENT"
    case EQ => "EQ"
    case LT => "LT"
    case GT => "GT"
    case BANG => "BANG"
    case AND => "AND"
    case OR => "OR"
    case XOR => "XOR"
    case DOT => "DOT"
    case COMMA => "COMMA"
    case SEMICOLON => "SEMICOLON"
    case COLON => "COLON"
    case LPAREN => "LPAREN"
    case RPAREN => "RPAREN"
    case LBRACE => "LBRACE"
    case RBRACE => "RBRACE"
    case LBRACKET => "LBRACKET"
    case RBRACKET => "RBRACKET"
  }

  /** The kind a name stands for: `tokenTypeNames` read backwards, looked
      up by the name's first letter. */
  function KindOfName(name: string): Option<TokenType> {
    if name == [] then None
    else match name[0]
    case 'A' => if name == "ASSIGN" then Some(ASSIGN) else if name == "ASTERISK" then Some(ASTERISK) else if name == "AND" then Some(AND) else None
    case 'B' => if name == "BANG" then Some(BANG) else None
    case 'C' => if name == "COMMA" then Some(COMMA) else if name == "COLON" then Some(COLON) else None
    case 'D' => if name == "DOT" then Some(DOT) else None
    case 'E' => if name == "EOF" then Some(EOF) else if name == "EQ" then Some(EQ) else None
    case 'G' => if name == "GT" then Some(GT) else None
    case 'I' => if name == "ILLEGAL" then Some(ILLEGAL) else if name == "IDENT" then Some(IDENT) else if name == "INT" then Some(INT) else None
    case 'L' => if name == "LT" then Some(LT) else if name == "LPAREN" then Some(LPAREN) else if name == "LBRACE" then Some(LBRACE) else if name == "LBRACKET" then Some(LBRACKET) else None
    case 'M' => if name == "MINUS" then Some(MINUS) else None
    case 'O' => if name == "OR" then Some(OR) else None
    case 'P' => if name == "PLUS" then Some(PLUS) else if name == "PERCENT" then Some(PERCENT) else None
    case 'R' => if name == "RPAREN" then Some(RPAREN) else if name == "RBRACE" then Some(RBRACE) else if name == "RBRACKET" then Some(RBRACKET) else None
    case 'S' => if name == "STRING" then Some(STRING) else if name == "SLASH" then Some(SLASH) else if name == "SEMICOLON" then Some(SEMICOLON) else None
    case 'X' => if name == "XOR" then Some(XOR) else None
    case _ => None
  }

  /** No two kinds share a name. */
  lemma TokenTypeNameInjective(a: TokenType, b: TokenType)
    ensures TokenTypeName(a) == TokenTypeName(b) ==> a == b
  {
  }

  /** Names are non-empty upper-case words. */
  lemma TokenTypeNameUpper(k: TokenType)
    ensures TokenTypeName(k) != ""
    ensures forall i :: 0 <= i < |TokenTypeName(k)| ==> 'A' <= TokenTypeName(k)[i] <= 'Z'
  {
    match k
    case ILLEGAL =>
    case EOF =>
    case IDENT =>
    case INT =>
    case STRING =>
    case ASSIGN =>
    case PLUS =>
    case MINUS =>
    case ASTERISK =>
    case SLASH =>
    case PERCENT =>
    case EQ =>
    case LT =>
    case GT =>
    case BANG =>
    case AND =>
    case OR =>
    case XOR =>
    case DOT =>
    case COMMA =>
    case SEMICOLON =>
    case COLON =>
    case LPAREN =>
    case RPAREN =>
    case LBRACE =>
    case RBRACE =>
    case LBRACKET =>
    case RBRACKET =>
  }

  /** The operator rows of the token tests. */
  lemma TokenTestOperators()
    ensures Classify("+") == PLUS && Classify("-") == MINUS && Classify("*") == ASTERISK
    ensures Classify("/") == SLASH && Classify("%") == PERCENT && Classify("=") == ASSIGN
    ensures Classify("==") == EQ && Classify("<") == LT && Classify(">") == GT
  {
  }

  /** The logical and bitwise operator rows of the token tests. */
  lemma TokenTestLogicalOperators()
    ensures Classify("!") == BANG && Classify("&") == AND && Classify("|") == OR
    ensures Classify("^") == XOR
  {
  }

  /** The punctuation rows of the token tests. */
  lemma TokenTestPunctuation()
    ensures Classify(".") == DOT && Classify(",") == COMMA
    ensures Classify(";") == SEMICOLON && Classify(":") == COLON
  {
  }

  /** The bracket rows of the token tests. */
  lemma TokenTestBrackets()
    ensures Classify("(") == LPAREN && Classify(")") == RPAREN
    ensures Classify("{") == LBRACE && Classify("}") == RBRACE
    ensures Classify("[") == LBRACKET && Classify("]") == RBRACKET
  {
  }

  /** The literal rows of the token tests (`123`, `abc`, `_foo`, `@`), a few
      more first-byte decisions, and the copied positions. */
  lemma TokenTestLiterals()
    ensures Classify("123") == INT && Classify("1.5") == INT
    ensures Classify("abc") == IDENT && Classify("_foo") == IDENT
    ensures Classify("@") == ILLEGAL && Classify("\"abc\"") == ILLEGAL && Classify(".5") == ILLEGAL
    ensures GenerateNewToken("_foo", 8, 12, 1) == Token(IDENT, "_foo", 8, 12, 1)
  {
  }
}
