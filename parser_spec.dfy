/**
 * The recursive-descent parser as functions on the tokens not yet consumed.  Every
 * function returns its result together with the tokens left after it, thrown or not,
 * so that the parser object's position after an error is specified too.
 */
module ParserSpec {
  import opened Wrappers
  import opened Strings
  import opened Tokens
  import opened Expressions

  datatype ParserError =
    | UnexpectedTokenValue(token: Token, expectedValues: seq<string>)
    | UnexpectedTokenType(token: Token, expectedTypes: seq<TokenType>)
    | NoTokenFound(precedingToken: Option<Token>)

  /** A parsed expression (none at the end of input) or an error, and the remaining tokens. */
  datatype Parsed = Parsed(result: Result<Option<Expression>, ParserError>, rest: seq<Token>)

  /** A consumed token (none at the end of input) or an error, and the remaining tokens. */
  datatype Consumed = Consumed(result: Result<Option<Token>, ParserError>, rest: seq<Token>)

  predicate IsSuffix(rest: seq<Token>, ts: seq<Token>) {
    |rest| <= |ts| && rest == ts[|ts| - |rest|..]
  }

  lemma SuffixTransitive(a: seq<Token>, b: seq<Token>, c: seq<Token>)
    requires IsSuffix(a, b) && IsSuffix(b, c)
    ensures IsSuffix(a, c)
  {
    assert c[|c| - |b|..][|b| - |a|..] == c[|c| - |a|..];
  }

  lemma TailIsSuffix(ts: seq<Token>)
    requires |ts| > 0
    ensures IsSuffix(ts[1..], ts)
  {
  }

  /**
   * `consume(_:)`: at the end of input nothing happens; otherwise the next token is
   * taken, unless a list of accepted values is given and the token's value is not in it.
   */
  function Consume(expected: seq<string>, ts: seq<Token>): (c: Consumed)
    ensures IsSuffix(c.rest, ts)
  {
    if |ts| == 0 then Consumed(Success(None), ts)
    else if |expected| > 0 && ts[0].value !in expected then
      Consumed(Failure(UnexpectedTokenValue(ts[0], expected)), ts)
    else Consumed(Success(Some(ts[0])), ts[1..])
  }

  /** `parseIntLiteral()`: the token must be an integer literal whose text fits an `Int`. */
  function ParseIntLiteral(ts: seq<Token>): (p: Parsed)
    ensures IsSuffix(p.rest, ts)
  {
    if |ts| == 0 then Parsed(Success(None), ts)
    else if ts[0].tokenType != IntegerLiteral || ParseInt(ts[0].value).None? then
      Parsed(Failure(UnexpectedTokenType(ts[0], [IntegerLiteral])), ts)
    else Parsed(Success(Some(IntLiteralExpression(ParseInt(ts[0].value).value, None, None))), ts[1..])
  }

  /** `parseIdentifier()`. */
  function ParseIdentifier(ts: seq<Token>): (p: Parsed)
    ensures IsSuffix(p.rest, ts)
  {
    if |ts| == 0 then Parsed(Success(None), ts)
    else if ts[0].tokenType != TokenType.Identifier then
      Parsed(Failure(UnexpectedTokenType(ts[0], [TokenType.Identifier])), ts)
    else Parsed(Success(Some(IdentifierExpression(ts[0].value, None, None))), ts[1..])
  }

  /** `parseFactor()`: a `(` by value first, then by token type. */
  function ParseFactor(ts: seq<Token>): (p: Parsed)
    decreases |ts|, 1
    ensures IsSuffix(p.rest, ts)
  {
    if |ts| == 0 then Parsed(Success(None), ts)
    else if ts[0].value == "(" then ParseParenthesized(ts)
    else if ts[0].tokenType == IntegerLiteral then ParseIntLiteral(ts)
    else if ts[0].tokenType == TokenType.Identifier then ParseIdentifier(ts)
    else Parsed(Failure(UnexpectedTokenType(ts[0], [IntegerLiteral, TokenType.Identifier])), ts)
  }

  /** `parseParenthesized()`: `(`, an expression, `)`; a missing `)` at the end of input passes. */
  function ParseParenthesized(ts: seq<Token>): (p: Parsed)
    decreases |ts|, if |ts| == 0 then 6 else 0
    ensures IsSuffix(p.rest, ts)
  {
    var open := Consume(["("], ts);
    if open.result.Failure? then Parsed(Failure(open.result.error), open.rest)
    else
      var inner := ParseExpression(open.rest);
      SuffixTransitive(inner.rest, open.rest, ts);
      if inner.result.Failure? then inner
      else
        var close := Consume([")"], inner.rest);
        SuffixTransitive(close.rest, inner.rest, ts);
        if close.result.Failure? then Parsed(Failure(close.result.error), close.rest)
        else Parsed(inner.result, close.rest)
  }

  /** The `while` loop of `parseTerm()`, with `left` built so far. */
  function TermLoop(left: Expression, ts: seq<Token>): (p: Parsed)
    decreases |ts|, 2
    ensures IsSuffix(p.rest, ts)
  {
    if |ts| > 0 && ts[0].value in ["*", "/"] then
      var right := ParseFactor(ts[1..]);
      SuffixTransitive(right.rest, ts[1..], ts);
      if right.result.Failure? then right
      else if right.result.value.None? then Parsed(Failure(NoTokenFound(Some(ts[0]))), right.rest)
      else TermLoop(BinaryOpExpression(left, ts[0].value, right.result.value.value, None, None), right.rest)
    else Parsed(Success(Some(left)), ts)
  }

  /** `parseTerm()`: factors joined left to right by `*` and `/`. */
  function ParseTerm(ts: seq<Token>): (p: Parsed)
    decreases |ts|, 3
    ensures IsSuffix(p.rest, ts)
  {
    var first := ParseFactor(ts);
    if first.result.Failure? then first
    else if first.result.value.None? then Parsed(Success(None), first.rest)
    else
      var p := TermLoop(first.result.value.value, first.rest);
      SuffixTransitive(p.rest, first.rest, ts);
      p
  }

  /** The `while` loop of `parseExpression()`, with `left` built so far. */
  function ExpressionLoop(left: Expression, ts: seq<Token>): (p: Parsed)
    decreases |ts|, 4
    ensures IsSuffix(p.rest, ts)
  {
    if |ts| > 0 && ts[0].value in ["+", "-"] then
      var right := ParseTerm(ts[1..]);
      SuffixTransitive(right.rest, ts[1..], ts);
      if right.result.Failure? then right
      else if right.result.value.None? then Parsed(Failure(NoTokenFound(Some(ts[0]))), right.rest)
      else ExpressionLoop(BinaryOpExpression(left, ts[0].value, right.result.value.value, None, None), right.rest)
    else Parsed(Success(Some(left)), ts)
  }

  /** `parseExpression()`: terms joined left to right by `+` and `-`. */
  function ParseExpression(ts: seq<Token>): (p: Parsed)
    decreases |ts|, 5
    ensures IsSuffix(p.rest, ts)
  {
    var first := ParseTerm(ts);
    if first.result.Failure? then first
    else if first.result.value.None? then Parsed(Success(None), first.rest)
    else
      var p := ExpressionLoop(first.result.value.value, first.rest);
      SuffixTransitive(p.rest, first.rest, ts);
      p
  }

  /** `parse()`: one expression from the start; tokens after it are left unread. */
  function Parse(ts: seq<Token>): (p: Parsed)
    ensures IsSuffix(p.rest, ts)
  {
    ParseExpression(ts)
  }
}
