/** The token model shared by the scanner and the parser: token kinds, the
    literal payload a token or an expression can carry, and the token record. */
module Tokens {
  import opened Wrappers

  /** Every kind of token the scanner produces or the parser inspects. The
      scanner ends its output with `EOF`, while the parser treats `Eof` as the
      end of input; both spellings are kinds of their own. */
  datatype TokenType =
    // Single-character tokens
    | LeftParen | RightParen | LeftBrace | RightBrace
    | Comma | Dot | Minus | Plus | Semicolon | Slash | Star
    | QuestionMark | Colon
    // One- or two-character tokens
    | Bang | BangEqual | Equal | EqualEqual
    | Greater | GreaterEqual | Less | LessEqual
    // Literals
    | Identifier | String | Number
    // Keywords
    | And | Class | Else | False | Fun | For | If | Nil | Or
    | Print | Return | Super | This | True | Var | While
    // End of input
    | EOF | Eof

  /** A literal payload. "nil" is not a variant: it is `None` wherever a
      literal is optional. Numbers are reals: IEEE-754 rounding is not modelled. */
  datatype Literal =
    | Identifier(name: string)
    | String(text: string)
    | Number(number: real)
    | Boolean(boolean: bool)

  datatype Token = Token(tokenType: TokenType, lexeme: string, literal: Option<Literal>, lineNumber: nat)

  /** Display text of a literal, as used when `+` coerces to a string and by
      the tree printer. How a Number is rendered is a parameter of the model. */
  function LiteralText(literal: Literal, numberText: real -> string): string
  {
    match literal
    case Identifier(name) => name
    case String(text) => text
    case Number(n) => numberText(n)
    case Boolean(b) => if b then "true" else "false"
  }

  /** Display text of an optional literal: absence renders as "nil". */
  function ValueText(value: Option<Literal>, numberText: real -> string): string
  {
    match value
    case None => "nil"
    case Some(literal) => LiteralText(literal, numberText)
  }
}
