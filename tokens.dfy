/** Tokens as the tokenizer builds them: a kind, the matched text and a location. */
module Tokens {
  import opened Locations

  datatype TokenType = IntegerLiteral | LineComment | Op | Identifier | Punctuation

  datatype Token = Token(tokenType: TokenType, value: string, location: Location)
}
