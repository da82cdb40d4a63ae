/** Token kinds, the token record, the keyword table and the kind-to-text
    rendering (`Token.h`, `Token.cpp`). */
module Tokens {
  import opened Common

  /** `TokenType`, in declaration order. */
  datatype TokenType =
    // literals
    | NUMBER | STRING | IDENTIFIER
    // keywords
    | INT | FLOAT | STRING_KW | BOOL | VOID | IF | ELSE | WHILE | FOR | RETURN
    | TRUE | FALSE | IMPORT | EXTERN
    // operators
    | PLUS | MINUS | MULTIPLY | DIVIDE | MODULO | ASSIGN | EQUAL | NOT_EQUAL
    | LESS | LESS_EQUAL | GREATER | GREATER_EQUAL | AND | OR | NOT
    // punctuation
    | LEFT_PAREN | RIGHT_PAREN | LEFT_BRACE | RIGHT_BRACE | LEFT_BRACKET
    | RIGHT_BRACKET | SEMICOLON | COMMA | DOT | COLON
    // special
    | NAMESPACE_SEP | EOF_TOKEN | INVALID

  /** A scanned token: its kind, its text, and the 1-based line and column of
      its first character. */
  datatype Token = Token(kind: TokenType, value: string, line: int, column: int)

  /** The kinds that the keyword table can produce. */
  predicate IsKeywordKind(t: TokenType) {
    t.INT? || t.FLOAT? || t.STRING_KW? || t.BOOL? || t.VOID? || t.IF? || t.ELSE?
    || t.WHILE? || t.FOR? || t.RETURN? || t.TRUE? || t.FALSE? || t.IMPORT? || t.EXTERN?
  }

  /** The kinds `Lexer::readOperator` can produce besides `INVALID`. */
  predicate IsOperatorKind(t: TokenType) {
    t.PLUS? || t.MINUS? || t.MULTIPLY? || t.DIVIDE? || t.MODULO? || t.ASSIGN?
    || t.EQUAL? || t.NOT_EQUAL? || t.LESS? || t.LESS_EQUAL? || t.GREATER?
    || t.GREATER_EQUAL? || t.AND? || t.OR? || t.NOT? || t.LEFT_PAREN?
    || t.RIGHT_PAREN? || t.LEFT_BRACE? || t.RIGHT_BRACE? || t.LEFT_BRACKET?
    || t.RIGHT_BRACKET? || t.SEMICOLON? || t.COMMA? || t.DOT? || t.COLON?
    || t.NAMESPACE_SEP?
  }

  /** `TokenInfo::keywords`. */
  const Keywords: map<string, TokenType> := map[
    "int" := INT,
    "float" := FLOAT,
    "string" := STRING_KW,
    "bool" := BOOL,
    "void" := VOID,
    "if" := IF,
    "else" := ELSE,
    "while" := WHILE,
    "for" := FOR,
    "return" := RETURN,
    "true" := TRUE,
    "false" := FALSE,
    "import" := IMPORT,
    "extern" := EXTERN
  ]

  /** `TokenInfo::toString`. The C++ switch ends in a `"UNKNOWN"` default that
      no enumerator reaches; the match here is exhaustive instead (see
      `NameIsNeverUnknown`). */
  function TokenName(t: TokenType): (r: string)
    ensures |r| > 0
  {
    match t
    case NUMBER => "NUMBER"
    case STRING => "STRING"
    case IDENTIFIER => "IDENTIFIER"
    case INT => "int"
    case FLOAT => "float"
    case STRING_KW => "string"
    case BOOL => "bool"
    case VOID => "void"
    case IF => "if"
    case ELSE => "else"
    case WHILE => "while"
    case FOR => "for"
    case RETURN => "return"
    case TRUE => "true"
    case FALSE => "false"
    case IMPORT => "import"
    case EXTERN => "extern"
    case PLUS => "+"
    case MINUS => "-"
    case MULTIPLY => "*"
    case DIVIDE => "/"
    case MODULO => "%"
    case ASSIGN => "="
    case EQUAL => "=="
    case NOT_EQUAL => "!="
    case LESS => "<"
    case LESS_EQUAL => "<="
    case GREATER => ">"
    case GREATER_EQUAL => ">="
    case AND => "&&"
    case OR => "||"
    case NOT => "!"
    case LEFT_PAREN => "("
    case RIGHT_PAREN => ")"
    case LEFT_BRACE => "{"
    case RIGHT_BRACE => "}"
    case LEFT_BRACKET => "["
    case RIGHT_BRACKET => "]"
    case SEMICOLON => ";"
    case COMMA => ","
    case DOT => "."
    case COLON => ":"
    case NAMESPACE_SEP => "::"
    case EOF_TOKEN => "EOF"
    case INVALID => "INVALID"
  }

  /** `TokenInfo::isKeyword`. */
  predicate IsKeyword(text: string) {
    text in Keywords
  }

  /** `TokenInfo::getKeywordType`: the table's kind, or `IDENTIFIER` for any
      other text. A keyword's kind renders back to the keyword itself. */
  function GetKeywordType(text: string): (t: TokenType)
    ensures !IsKeyword(text) ==> t == IDENTIFIER
    ensures IsKeyword(text) ==> t != IDENTIFIER && IsKeywordKind(t) && TokenName(t) == text
  {
    if text in Keywords then Keywords[text] else IDENTIFIER
  }

  /** The table holds exactly the spellings of the fourteen keyword kinds. */
  lemma KeywordsAreKeywordKindNames(text: string)
    ensures IsKeyword(text) <==> exists t :: IsKeywordKind(t) && TokenName(t) == text
  {
    if IsKeyword(text) {
      var t := GetKeywordType(text);
      assert IsKeywordKind(t) && TokenName(t) == text;
    } else if exists t :: IsKeywordKind(t) && TokenName(t) == text {
      var t :| IsKeywordKind(t) && TokenName(t) == text;
      KeywordKindInTable(t);
    }
  }

  /** Every keyword kind's name is in the table and maps back to that kind. */
  lemma KeywordKindInTable(t: TokenType)
    requires IsKeywordKind(t)
    ensures IsKeyword(TokenName(t)) && GetKeywordType(TokenName(t)) == t
  {
  }

  /** Reads a kind back from its rendering; the inverse of `TokenName`,
      deciding by length and then by the first one or two characters. */
  function KindOfName(s: string): TokenType {
    if |s| == 1 then
      match s[0]
      case '+' => PLUS case '-' => MINUS case '*' => MULTIPLY case '/' => DIVIDE
      case '%' => MODULO case '=' => ASSIGN case '<' => LESS case '>' => GREATER
      case '!' => NOT case '(' => LEFT_PAREN case ')' => RIGHT_PAREN
      case '{' => LEFT_BRACE case '}' => RIGHT_BRACE case '[' => LEFT_BRACKET
      case ']' => RIGHT_BRACKET case ';' => SEMICOLON case ',' => COMMA
      case '.' => DOT case _ => COLON
    else if |s| == 2 then
      match s[0]
      case 'i' => IF case '=' => EQUAL case '!' => NOT_EQUAL case '<' => LESS_EQUAL
      case '>' => GREATER_EQUAL case '&' => AND case '|' => OR case _ => NAMESPACE_SEP
    else if |s| == 3 then
      match s[0]
      case 'i' => INT case 'f' => FOR case _ => EOF_TOKEN
    else if |s| == 4 then
      match s[0]
      case 'b' => BOOL case 'v' => VOID case 'e' => ELSE case _ => TRUE
    else if |s| == 5 then
      if s[0] == 'w' then WHILE else if s[1] == 'l' then FLOAT else FALSE
    else if |s| == 6 then
      match s[0]
      case 'N' => NUMBER case 'S' => STRING case 's' => STRING_KW
      case 'r' => RETURN case 'i' => IMPORT case _ => EXTERN
    else if |s| == 10 then IDENTIFIER
    else INVALID
  }

  /** `KindOfName` undoes `TokenName` on every kind. */
  lemma KindOfNameInvertsTokenName(t: TokenType)
    ensures KindOfName(TokenName(t)) == t
  {
  }

  /** `TokenName` tells all kinds apart. */
  lemma TokenNameInjective(a: TokenType, b: TokenType)
    ensures TokenName(a) == TokenName(b) ==> a == b
  {
    KindOfNameInvertsTokenName(a);
    KindOfNameInvertsTokenName(b);
  }

  /** The `"UNKNOWN"` default of the C++ switch is never produced. */
  lemma NameIsNeverUnknown(t: TokenType)
    ensures TokenName(t) != "UNKNOWN"
  {
  }
}
