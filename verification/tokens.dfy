/** The tokens the parser consumes. The lexer that produces them is not part
    of this model: a token is a type tag plus a payload. */
module Tokens {

  /** The token types (TokenType in the source), spelled as the source spells them. */
  datatype Kind =
    | NUMBER | LETTER
    | PLUS | MINUS | MULTIPLY | DIVIDE | POWER
    | LPAREN | RPAREN | LBRACKET | RBRACKET
    | SIN | COS | EXP | SQRT

  /** A token's optional payload: a numeric literal, a variable name, or nothing.
      The parser never computes with numbers, so a number is just carried along. */
  datatype Value = NoValue | Num(x: real) | Name(s: string)

  datatype Token = Token(kind: Kind, value: Value)
}
