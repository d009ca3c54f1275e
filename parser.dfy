/**
 * The parser object: a fixed token list and a position that the methods advance.
 * Each method is proved to leave the position, and return the result, that the
 * matching function of `ParserSpec` gives for the tokens from the old position on.
 */
module Parsing {
  import opened Wrappers
  import opened Strings
  import opened Tokens
  import opened Expressions
  import S = ParserSpec

  class Parser {
    const tokens: seq<Token>
    var position: int

    predicate Valid()
      reads this
    {
      0 <= position <= |tokens|
    }

    /** The tokens not consumed yet. */
    function Remaining(): seq<Token>
      reads this
      requires Valid()
    {
      tokens[position..]
    }

    constructor (tokens: seq<Token>)
      ensures Valid() && this.tokens == tokens && position == 0
    {
      this.tokens := tokens;
      position := 0;
    }

    /** `peek()`: the next token, none at the end. */
    function Peek(): (r: Option<Token>)
      reads this
      requires Valid()
      ensures r.Some? <==> |Remaining()| > 0
      ensures r.Some? ==> r.value == Remaining()[0]
    {
      if position < |tokens| then Some(tokens[position]) else None
    }

    /** `parse()`. */
    method Parse() returns (r: Result<Option<Expression>, S.ParserError>)
      requires Valid()
      modifies this
      ensures Valid()
      ensures S.Parsed(r, Remaining()) == S.Parse(old(Remaining()))
    {
      r := ParseExpression();
    }

    method Consume(expected: seq<string>) returns (r: Result<Option<Token>, S.ParserError>)
      requires Valid()
      modifies this
      ensures Valid()
      ensures S.Consumed(r, Remaining()) == S.Consume(expected, old(Remaining()))
    {
      var token := Peek();
      if token.None? {
        return Success(None);
      }
      if |expected| > 0 && token.value.value !in expected {
        return Failure(S.UnexpectedTokenValue(token.value, expected));
      }
      position := position + 1;
      return Success(token);
    }

    method ParseIntLiteral() returns (r: Result<Option<Expression>, S.ParserError>)
      requires Valid()
      modifies this
      ensures Valid()
      ensures S.Parsed(r, Remaining()) == S.ParseIntLiteral(old(Remaining()))
    {
      var token := Peek();
      if token.None? {
        return Success(None);
      }
      var value := ParseInt(token.value.value);
      if token.value.tokenType != IntegerLiteral || value.None? {
        return Failure(S.UnexpectedTokenType(token.value, [IntegerLiteral]));
      }
      var consumed := Consume([]);
      return Success(Some(IntLiteralExpression(value.value, None, None)));
    }

    method ParseIdentifier() returns (r: Result<Option<Expression>, S.ParserError>)
      requires Valid()
      modifies this
      ensures Valid()
      ensures S.Parsed(r, Remaining()) == S.ParseIdentifier(old(Remaining()))
    {
      var token := Peek();
      if token.None? {
        return Success(None);
      }
      if token.value.tokenType != TokenType.Identifier {
        return Failure(S.UnexpectedTokenType(token.value, [TokenType.Identifier]));
      }
      var consumed := Consume([]);
      return Success(Some(IdentifierExpression(token.value.value, None, None)));
    }

    method ParseFactor() returns (r: Result<Option<Expression>, S.ParserError>)
      requires Valid()
      modifies this
      decreases |tokens| - position, 1
      ensures Valid()
      ensures S.Parsed(r, Remaining()) == S.ParseFactor(old(Remaining()))
    {
      var token := Peek();
      if token.None? {
        return Success(None);
      }
      if token.value.value == "(" {
        r := ParseParenthesized();
        return;
      }
      match token.value.tokenType
      case IntegerLiteral =>
        r := ParseIntLiteral();
      case Identifier =>
        r := ParseIdentifier();
      case _ =>
        r := Failure(S.UnexpectedTokenType(token.value, [IntegerLiteral, TokenType.Identifier]));
    }

    method ParseParenthesized() returns (r: Result<Option<Expression>, S.ParserError>)
      requires Valid()
      modifies this
      decreases |tokens| - position, if position == |tokens| then 6 else 0
      ensures Valid()
      ensures S.Parsed(r, Remaining()) == S.ParseParenthesized(old(Remaining()))
    {
      var open := Consume(["("]);
      if open.Failure? {
        return Failure(open.error);
      }
      var expression := ParseExpression();
      if expression.Failure? {
        return expression;
      }
      var close := Consume([")"]);
      if close.Failure? {
        return Failure(close.error);
      }
      return expression;
    }

    method ParseTerm() returns (r: Result<Option<Expression>, S.ParserError>)
      requires Valid()
      modifies this
      decreases |tokens| - position, 3
      ensures Valid()
      ensures S.Parsed(r, Remaining()) == S.ParseTerm(old(Remaining()))
    {
      var first := ParseFactor();
      if first.Failure? {
        return first;
      }
      if first.value.None? {
        return Success(None);
      }
      var left := first.value.value;
      while position < |tokens| && tokens[position].value in ["*", "/"]
        invariant Valid() && old(position) <= position
        invariant S.ParseTerm(old(Remaining())) == S.TermLoop(left, Remaining())
        decreases |tokens| - position
      {
        var op := tokens[position];
        var consumed := Consume([]);
        var right := ParseFactor();
        if right.Failure? {
          return right;
        }
        if right.value.None? {
          return Failure(S.NoTokenFound(Some(op)));
        }
        left := BinaryOpExpression(left, op.value, right.value.value, None, None);
      }
      return Success(Some(left));
    }

    method ParseExpression() returns (r: Result<Option<Expression>, S.ParserError>)
      requires Valid()
      modifies this
      decreases |tokens| - position, 5
      ensures Valid()
      ensures S.Parsed(r, Remaining()) == S.ParseExpression(old(Remaining()))
    {
      var first := ParseTerm();
      if first.Failure? {
        return first;
      }
      if first.value.None? {
        return Success(None);
      }
      var left := first.value.value;
      while position < |tokens| && tokens[position].value in ["+", "-"]
        invariant Valid() && old(position) <= position
        invariant S.ParseExpression(old(Remaining())) == S.ExpressionLoop(left, Remaining())
        decreases |tokens| - position
      {
        var op := tokens[position];
        var consumed := Consume([]);
        var right := ParseTerm();
        if right.Failure? {
          return right;
        }
        if right.value.None? {
          return Failure(S.NoTokenFound(Some(op)));
        }
        left := BinaryOpExpression(left, op.value, right.value.value, None, None);
      }
      return Success(Some(left));
    }
  }
}
