/**
 * Tokens of the plox language: the token kinds, the literal a token may carry,
 * its source position and the keyword table the scanner consults.
 */
module Tokens {

  datatype Option<+T> = None | Some(value: T)

  datatype TokenType =
    // Single-character tokens.
    | LEFT_PAREN | RIGHT_PAREN | LEFT_BRACE | RIGHT_BRACE
    | COMMA | COLON | DOT | SEMICOLON | SLASH | STAR | QUESTION_MARK | MODULO
    // One or two character tokens.
    | BANG | BANG_EQUAL | EQUAL | EQUAL_EQUAL
    | GREATER | GREATER_EQUAL | LESS | LESS_EQUAL
    | PLUS | PLUS_PLUS | PLUS_ASSIGN
    | MINUS | MINUS_MINUS | MINUS_ASSIGN
    | STAR_ASSIGN | SLASH_ASSIGN
    | LEFT_ARROW | RIGHT_ARROW | DOUBLE_COLON | LEFT_SHIFT | RIGHT_SHIFT
    // Literals.
    | IDENTIFIER | STRING | NUMBER
    // Keywords.
    | AND | CLASS | ELSE | FALSE | FN | FOR | IF | NONE | OR | ECHO
    | RETURN | SUPER | SELF | TRUE | LET | WHILE
    | EOF

  /**
   * A literal value, as carried by NUMBER and STRING tokens and by literal
   * expressions. Numbers are the exact decimal value of their lexeme.
   */
  datatype Lit = NoneLit | BoolLit(b: bool) | NumLit(n: real) | StrLit(s: string)

  /** Where a token ends: its line, the offset its line starts at, the offset just past it, its column. */
  datatype Position = Position(line: nat, lineStart: nat, offset: nat, column: int)

  datatype Token = Token(kind: TokenType, symbol: string, literal: Lit, position: Position, length: nat)

  /** The reserved words and the token kind each one scans to. */
  const Keywords: map<string, TokenType> := map[
    "and" := AND, "class" := CLASS, "else" := ELSE, "false" := FALSE,
    "for" := FOR, "fn" := FN, "if" := IF, "none" := NONE, "or" := OR,
    "echo" := ECHO, "return" := RETURN, "super" := SUPER, "self" := SELF,
    "true" := TRUE, "let" := LET, "while" := WHILE
  ]

  /** The kind an identifier-shaped lexeme scans to: its keyword kind, or IDENTIFIER. */
  function IdentifierKind(text: string): (k: TokenType)
    ensures k != IDENTIFIER ==> Spelling(k) == Some(text)
  {
    if text in Keywords then Keywords[text] else IDENTIFIER
  }

  /** Independent description of the keyword kinds: how each one is spelled. */
  function Spelling(k: TokenType): Option<string> {
    match k
    case AND => Some("and")
    case CLASS => Some("class")
    case ELSE => Some("else")
    case FALSE => Some("false")
    case FOR => Some("for")
    case FN => Some("fn")
    case IF => Some("if")
    case NONE => Some("none")
    case OR => Some("or")
    case ECHO => Some("echo")
    case RETURN => Some("return")
    case SUPER => Some("super")
    case SELF => Some("self")
    case TRUE => Some("true")
    case LET => Some("let")
    case WHILE => Some("while")
    case _ => None
  }

  /**
   * The keyword table and the spellings are inverse to each other: a lexeme
   * gets a keyword kind exactly when it is that kind's spelling, and every
   * other lexeme gets IDENTIFIER.
   */
  lemma IdentifierKindSpelling(text: string)
    ensures IdentifierKind(text) != IDENTIFIER ==> Spelling(IdentifierKind(text)) == Some(text)
    ensures IdentifierKind(text) == IDENTIFIER <==> text !in Keywords
  {
  }

  lemma SpellingIsKeyword(k: TokenType)
    ensures Spelling(k).Some? ==> Spelling(k).value in Keywords && IdentifierKind(Spelling(k).value) == k
  {
  }
}
