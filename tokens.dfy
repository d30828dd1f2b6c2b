/** Token values produced by the Lox scanner. */
module Tokens {

  /** The token categories the scanner emits. The names are those the
      scanner refers to; identifiers and keywords are not recognised by this
      scanner and have no category here. */
  datatype TokenType =
    | LEFT_PAREN | RIGHT_PAREN | LEFT_BRACE | RIGHT_BRACE
    | COMMA | DOT | MINUS | PLUS | SEMICOLON | STAR
    | BANG | BANG_EQUAL | EQUAL | EQUAL_EQUAL
    | GREATER | GREATER_EQUAL | LESS | LESS_EQUAL
    | SLASH
    | STRING | NUMBER
    | EOF

  /** The decoded value a token carries. A number keeps its matched text
      instead of the floating-point value decoded from it. */
  datatype Literal =
    | NoLiteral
    | StringValue(text: string)
    | NumberValue(digits: string)

  /** A scanned token: its category, the exact source text it was made from,
      its literal, and the line counter at the moment it was added. */
  datatype Token = Token(kind: TokenType, lexeme: string, literal: Literal, line: int)

  /** One lexical error as reported to the diagnostics sink. */
  datatype Diagnostic = Diagnostic(line: int, message: string)

  const UnexpectedCharacter: string := "unexpected character!"
  const UnterminatedString: string := "Unterminated string."
}
