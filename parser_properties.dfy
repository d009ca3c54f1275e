/**
 * What the parser promises, stated against an independent printer: every arithmetic
 * tree prints to tokens the parser reads back to the same tree, with `*` and `/`
 * binding tighter than `+` and `-` and both levels associating to the left.
 */
module ParserProperties {
  import opened Wrappers
  import opened Strings
  import opened Locations
  import opened Tokens
  import opened Expressions
  import opened ParserSpec

  function OpToken(op: string): Token { Token(Op, op, NO_LOCATION) }
  function PunctuationToken(p: string): Token { Token(Punctuation, p, NO_LOCATION) }
  function IntToken(v: int): Token { Token(IntegerLiteral, IntToString(v), NO_LOCATION) }
  function IdentifierToken(name: string): Token { Token(TokenType.Identifier, name, NO_LOCATION) }

  predicate IsAdditive(e: Expression) { e.BinaryOpExpression? && e.op in ["+", "-"] }
  predicate IsMultiplicative(e: Expression) { e.BinaryOpExpression? && e.op in ["*", "/"] }

  /**
   * The trees the parser can produce: integer literals that fit an `Int`, identifiers
   * other than `(`, and the four arithmetic operators, with no location or type set.
   */
  predicate Shaped(e: Expression)
    decreases e
  {
    match e
    case IntLiteralExpression(v, loc, ty) => INT64_MIN <= v <= INT64_MAX && loc.None? && ty.None?
    case IdentifierExpression(n, loc, ty) => n != "(" && loc.None? && ty.None?
    case BinaryOpExpression(l, op, r, loc, ty) =>
      op in ["+", "-", "*", "/"] && Shaped(l) && Shaped(r) && loc.None? && ty.None?
    case _ => false
  }

  /** Tokens for an expression: additive operators at the top, terms on their right. */
  function PrintExpression(e: Expression): seq<Token>
    decreases e, 2
  {
    if IsAdditive(e) then PrintExpression(e.left) + [OpToken(e.op)] + PrintTerm(e.right)
    else PrintTerm(e)
  }

  /** Tokens for a term: multiplicative operators at the top, factors on their right. */
  function PrintTerm(e: Expression): seq<Token>
    decreases e, 1
  {
    if IsMultiplicative(e) then PrintTerm(e.left) + [OpToken(e.op)] + PrintFactor(e.right)
    else PrintFactor(e)
  }

  /** Tokens for a factor: a literal, a name, or any operator tree in parentheses. */
  function PrintFactor(e: Expression): seq<Token>
    decreases e, 0
  {
    match e
    case IntLiteralExpression(v, _, _) => [IntToken(v)]
    case IdentifierExpression(n, _, _) => [IdentifierToken(n)]
    case BinaryOpExpression(l, op, r, _, _) =>
      var inner := if op in ["+", "-"] then PrintExpression(l) + [OpToken(op)] + PrintTerm(r)
                   else PrintTerm(l) + [OpToken(op)] + PrintFactor(r);
      [PunctuationToken("(")] + inner + [PunctuationToken(")")]
    case _ => []
  }

  lemma PrintFactorOfOperator(e: Expression)
    requires e.BinaryOpExpression? && e.op in ["+", "-", "*", "/"]
    ensures PrintFactor(e) == [PunctuationToken("(")] + PrintExpression(e) + [PunctuationToken(")")]
  {
  }

  lemma IntTokenIsNotOpenParen(v: int)
    ensures IntToken(v).value != "("
  {
    var s := IntToString(v);
    assert s[0] != '(';
    assert "("[0] == '(';
  }

  /**
   * `consume` loses no token: the token it returns followed by what is left is what was
   * there before, and otherwise nothing moves; it throws only on a value not accepted.
   */
  lemma ConsumeLosesNothing(expected: seq<string>, ts: seq<Token>)
    ensures var c := Consume(expected, ts);
      if c.result.Success? && c.result.value.Some? then [c.result.value.value] + c.rest == ts else c.rest == ts
    ensures Consume(expected, ts).result.Failure? <==> |ts| > 0 && |expected| > 0 && ts[0].value !in expected
    ensures Consume(expected, ts).result == Success(None) <==> |ts| == 0
  {
  }

  /** One step of each parsing function, for the inductive proofs below. */
  lemma TermFromFactor(ts: seq<Token>, e: Expression, rest: seq<Token>)
    requires ParseFactor(ts) == Parsed(Success(Some(e)), rest)
    ensures ParseTerm(ts) == TermLoop(e, rest)
  {
  }

  lemma ExpressionFromTerm(ts: seq<Token>, e: Expression, rest: seq<Token>)
    requires ParseTerm(ts) == Parsed(Success(Some(e)), rest)
    ensures ParseExpression(ts) == ExpressionLoop(e, rest)
  {
  }

  lemma TermLoopStep(left: Expression, op: Token, ts: seq<Token>, right: Expression, rest: seq<Token>)
    requires op.value in ["*", "/"] && ParseFactor(ts) == Parsed(Success(Some(right)), rest)
    ensures TermLoop(left, [op] + ts) == TermLoop(BinaryOpExpression(left, op.value, right, None, None), rest)
  {
    assert ([op] + ts)[0] == op && ([op] + ts)[1..] == ts;
  }

  lemma TermLoopStop(left: Expression, ts: seq<Token>)
    requires |ts| > 0 ==> ts[0].value !in ["*", "/"]
    ensures TermLoop(left, ts) == Parsed(Success(Some(left)), ts)
  {
  }

  lemma ExpressionLoopStep(left: Expression, op: Token, ts: seq<Token>, right: Expression, rest: seq<Token>)
    requires op.value in ["+", "-"] && ParseTerm(ts) == Parsed(Success(Some(right)), rest)
    ensures ExpressionLoop(left, [op] + ts) == ExpressionLoop(BinaryOpExpression(left, op.value, right, None, None), rest)
  {
    assert ([op] + ts)[0] == op && ([op] + ts)[1..] == ts;
  }

  lemma ExpressionLoopStop(left: Expression, ts: seq<Token>)
    requires |ts| > 0 ==> ts[0].value !in ["+", "-"]
    ensures ExpressionLoop(left, ts) == Parsed(Success(Some(left)), ts)
  {
  }

  lemma FactorLiteral(v: int, rest: seq<Token>)
    requires INT64_MIN <= v <= INT64_MAX
    ensures ParseFactor([IntToken(v)] + rest) == Parsed(Success(Some(IntLiteralExpression(v, None, None))), rest)
  {
    IntTokenIsNotOpenParen(v);
    ParseIntOfIntToString(v);
    var ts := [IntToken(v)] + rest;
    assert ts[0] == IntToken(v) && ts[1..] == rest;
  }

  lemma FactorIdentifier(n: string, rest: seq<Token>)
    requires n != "("
    ensures ParseFactor([IdentifierToken(n)] + rest) == Parsed(Success(Some(IdentifierExpression(n, None, None))), rest)
  {
    var ts := [IdentifierToken(n)] + rest;
    assert ts[0] == IdentifierToken(n) && ts[1..] == rest;
  }

  lemma FactorParenthesized(ts: seq<Token>, e: Expression, rest: seq<Token>)
    requires ParseExpression(ts) == Parsed(Success(Some(e)), [PunctuationToken(")")] + rest)
    ensures ParseFactor([PunctuationToken("(")] + ts) == Parsed(Success(Some(e)), rest)
  {
    var all := [PunctuationToken("(")] + ts;
    assert all[0] == PunctuationToken("(") && all[1..] == ts;
    var after := [PunctuationToken(")")] + rest;
    assert after[0] == PunctuationToken(")") && after[1..] == rest;
    assert Consume(["("], all) == Consumed(Success(Some(PunctuationToken("("))), ts);
    assert Consume([")"], after) == Consumed(Success(Some(PunctuationToken(")"))), rest);
  }

  /** Recursion levels for the three round-trip lemmas, so each same-tree call goes down. */
  function FactorLevel(e: Expression): nat {
    if IsAdditive(e) then 2 else if IsMultiplicative(e) then 4 else 0
  }

  function ExpressionLevel(e: Expression): nat {
    if IsAdditive(e) then 1 else if IsMultiplicative(e) then 3 else 2
  }

  function TermLevel(e: Expression): nat {
    if IsAdditive(e) then 3 else if IsMultiplicative(e) then 2 else 1
  }

  /** A printed factor parses back to the tree, whatever follows it. */
  lemma {:induction false} FactorRoundTrip(e: Expression, rest: seq<Token>)
    requires Shaped(e)
    ensures ParseFactor(PrintFactor(e) + rest) == Parsed(Success(Some(e)), rest)
    decreases e, FactorLevel(e), 1
  {
    match e
    case IntLiteralExpression(v, _, _) =>
      FactorLiteral(v, rest);
    case IdentifierExpression(n, _, _) =>
      FactorIdentifier(n, rest);
    case BinaryOpExpression(_, _, _, _, _) =>
      ParenthesizedRoundTrip(e, rest);
  }

  /** An operator tree printed as a factor is parenthesized, and parses back to itself. */
  lemma {:induction false} ParenthesizedRoundTrip(e: Expression, rest: seq<Token>)
    requires Shaped(e) && e.BinaryOpExpression?
    ensures ParseFactor(PrintFactor(e) + rest) == Parsed(Success(Some(e)), rest)
    decreases e, FactorLevel(e), 0
  {
    var after := [PunctuationToken(")")] + rest;
    var inner := PrintExpression(e) + after;
    PrintFactorOfOperator(e);
    assert PrintFactor(e) + rest == [PunctuationToken("(")] + inner;
    ExpressionRoundTrip(e, after);
    ExpressionLoopStop(e, after);
    FactorParenthesized(inner, e, rest);
  }

  /** A printed term parses to the term loop started on the tree, whatever follows it. */
  lemma {:induction false} TermRoundTrip(e: Expression, rest: seq<Token>)
    requires Shaped(e)
    ensures ParseTerm(PrintTerm(e) + rest) == TermLoop(e, rest)
    decreases e, TermLevel(e), 1
  {
    if IsMultiplicative(e) {
      ProductRoundTrip(e, rest);
    } else {
      FactorRoundTrip(e, rest);
      TermFromFactor(PrintFactor(e) + rest, e, rest);
    }
  }

  /** A printed product parses its left operand as a term, then its operator and right factor. */
  lemma {:induction false} ProductRoundTrip(e: Expression, rest: seq<Token>)
    requires Shaped(e) && IsMultiplicative(e)
    ensures ParseTerm(PrintTerm(e) + rest) == TermLoop(e, rest)
    decreases e, TermLevel(e), 0
  {
    var rightRest := PrintFactor(e.right) + rest;
    var opRest := [OpToken(e.op)] + rightRest;
    assert PrintTerm(e) + rest == PrintTerm(e.left) + opRest;
    TermRoundTrip(e.left, opRest);
    FactorRoundTrip(e.right, rest);
    TermLoopStep(e.left, OpToken(e.op), rightRest, e.right, rest);
  }

  /**
   * A printed expression parses to the expression loop started on the tree, provided
   * the next token does not continue a term.
   */
  lemma {:induction false} ExpressionRoundTrip(e: Expression, rest: seq<Token>)
    requires Shaped(e)
    requires |rest| > 0 ==> rest[0].value !in ["*", "/"]
    ensures ParseExpression(PrintExpression(e) + rest) == ExpressionLoop(e, rest)
    decreases e, ExpressionLevel(e), 1
  {
    if IsAdditive(e) {
      SumRoundTrip(e, rest);
    } else {
      TermRoundTrip(e, rest);
      TermLoopStop(e, rest);
      ExpressionFromTerm(PrintTerm(e) + rest, e, rest);
    }
  }

  /** A printed sum parses its left operand as an expression, then its operator and right term. */
  lemma {:induction false} SumRoundTrip(e: Expression, rest: seq<Token>)
    requires Shaped(e) && IsAdditive(e)
    requires |rest| > 0 ==> rest[0].value !in ["*", "/"]
    ensures ParseExpression(PrintExpression(e) + rest) == ExpressionLoop(e, rest)
    decreases e, ExpressionLevel(e), 0
  {
    var rightRest := PrintTerm(e.right) + rest;
    var opRest := [OpToken(e.op)] + rightRest;
    assert PrintExpression(e) + rest == PrintExpression(e.left) + opRest;
    ExpressionRoundTrip(e.left, opRest);
    TermRoundTrip(e.right, rest);
    TermLoopStop(e.right, rest);
    ExpressionLoopStep(e.left, OpToken(e.op), rightRest, e.right, rest);
  }

  /** Parsing the printed tokens gives back the tree and consumes every token. */
  lemma ParsePrintRoundTrip(e: Expression)
    requires Shaped(e)
    ensures Parse(PrintExpression(e)) == Parsed(Success(Some(e)), [])
  {
    ExpressionRoundTrip(e, []);
    assert PrintExpression(e) + [] == PrintExpression(e);
  }

  /** Different trees print differently. */
  lemma PrintInjective(a: Expression, b: Expression)
    requires Shaped(a) && Shaped(b) && PrintExpression(a) == PrintExpression(b)
    ensures a == b
  {
    ParsePrintRoundTrip(a);
    ParsePrintRoundTrip(b);
  }

  /** Parsing stops before the first token that cannot continue the expression. */
  lemma ParseLeavesTrailingTokens(e: Expression, rest: seq<Token>)
    requires Shaped(e) && |rest| > 0 && rest[0].value !in ["+", "-", "*", "/"]
    ensures Parse(PrintExpression(e) + rest) == Parsed(Success(Some(e)), rest)
  {
    ExpressionRoundTrip(e, rest);
  }

  lemma AtEndOfInput()
    ensures ParseFactor([]) == Parsed(Success(None), [])
    ensures ParseTerm([]) == Parsed(Success(None), [])
    ensures ParseExpression([]) == Parsed(Success(None), [])
  {
  }

  lemma EmptyInput()
    ensures Parse([]) == Parsed(Success(None), [])
  {
    AtEndOfInput();
  }

  /** An error in the first factor is the error of the term and of the expression. */
  lemma FailuresPropagate(ts: seq<Token>)
    ensures ParseFactor(ts).result.Failure? ==> ParseTerm(ts) == ParseFactor(ts)
    ensures ParseTerm(ts).result.Failure? ==> ParseExpression(ts) == ParseTerm(ts)
  {
  }

  lemma OperatorWithoutOperand(left: Expression, op: Token)
    ensures op.value in ["*", "/"] ==> TermLoop(left, [op]) == Parsed(Failure(NoTokenFound(Some(op))), [])
    ensures op.value in ["+", "-"] ==> ExpressionLoop(left, [op]) == Parsed(Failure(NoTokenFound(Some(op))), [])
  {
    AtEndOfInput();
    assert [op][0] == op && [op][1..] == [];
  }

  lemma ExpressionLoopFailure(left: Expression, op: Token, ts: seq<Token>)
    requires op.value in ["+", "-"] && ParseTerm(ts).result.Failure?
    ensures ExpressionLoop(left, [op] + ts) == ParseTerm(ts)
  {
    assert ([op] + ts)[0] == op && ([op] + ts)[1..] == ts;
  }

  /** An additive operator with nothing after it is reported with that operator token. */
  lemma OrphanAdditiveOperator(e: Expression, op: string)
    requires Shaped(e) && op in ["+", "-"]
    ensures Parse(PrintExpression(e) + [OpToken(op)]).result == Failure(NoTokenFound(Some(OpToken(op))))
  {
    ExpressionRoundTrip(e, [OpToken(op)]);
    OperatorWithoutOperand(e, OpToken(op));
  }

  /** A term followed by a lone multiplicative operator fails at that operator. */
  lemma OrphanAfterTerm(t: Expression, star: Token)
    requires Shaped(t) && star.value in ["*", "/"]
    ensures ParseTerm(PrintTerm(t) + [star]) == Parsed(Failure(NoTokenFound(Some(star))), [])
  {
    TermRoundTrip(t, [star]);
    OperatorWithoutOperand(t, star);
  }

  /** In a sum, a lone multiplicative operator at the end fails inside the last term. */
  lemma OrphanAfterSum(e: Expression, star: Token)
    requires Shaped(e) && IsAdditive(e) && star.value in ["*", "/"]
    ensures ParseExpression(PrintExpression(e) + [star]) == Parsed(Failure(NoTokenFound(Some(star))), [])
  {
    OrphanAfterTerm(e.right, star);
    var opRest := [OpToken(e.op)] + (PrintTerm(e.right) + [star]);
    assert PrintExpression(e) + [star] == PrintExpression(e.left) + opRest;
    ExpressionRoundTrip(e.left, opRest);
    ExpressionLoopFailure(e.left, OpToken(e.op), PrintTerm(e.right) + [star]);
  }

  /** A multiplicative operator with nothing after it is reported with that operator token. */
  lemma OrphanMultiplicativeOperator(e: Expression, op: string)
    requires Shaped(e) && op in ["*", "/"]
    ensures Parse(PrintExpression(e) + [OpToken(op)]).result == Failure(NoTokenFound(Some(OpToken(op))))
  {
    var star := OpToken(op);
    if IsAdditive(e) {
      OrphanAfterSum(e, star);
    } else {
      OrphanAfterTerm(e, star);
      assert PrintExpression(e) + [star] == PrintTerm(e) + [star];
      FailuresPropagate(PrintTerm(e) + [star]);
    }
  }

  /** A factor cannot start with a token that is neither `(`, a literal nor a name. */
  lemma FactorTypeError(t: Token, rest: seq<Token>)
    requires t.value != "(" && t.tokenType != IntegerLiteral && t.tokenType != TokenType.Identifier
    ensures Parse([t] + rest) == Parsed(Failure(UnexpectedTokenType(t, [IntegerLiteral, TokenType.Identifier])), [t] + rest)
  {
    var ts := [t] + rest;
    assert ts[0] == t;
    FailuresPropagate(ts);
  }

  /** An integer literal whose text does not fit an `Int` is rejected where it stands. */
  lemma IntegerOutOfRange(text: string, rest: seq<Token>)
    requires text != "(" && ParseInt(text).None?
    ensures var t := Token(IntegerLiteral, text, NO_LOCATION);
      Parse([t] + rest) == Parsed(Failure(UnexpectedTokenType(t, [IntegerLiteral])), [t] + rest)
  {
    var ts := [Token(IntegerLiteral, text, NO_LOCATION)] + rest;
    assert ts[0] == Token(IntegerLiteral, text, NO_LOCATION);
    FailuresPropagate(ts);
  }

  function Lit(v: int): Expression { IntLiteralExpression(v, None, None) }
  function Ident(n: string): Expression { IdentifierExpression(n, None, None) }
  function Bin(l: Expression, op: string, r: Expression): Expression { BinaryOpExpression(l, op, r, None, None) }

  /** `10 + a - 3` groups to the left. */
  lemma LeftAssociativeExample()
    ensures Parse([IntToken(10), OpToken("+"), IdentifierToken("a"), OpToken("-"), IntToken(3)])
      == Parsed(Success(Some(Bin(Bin(Lit(10), "+", Ident("a")), "-", Lit(3)))), [])
  {
    var e := Bin(Bin(Lit(10), "+", Ident("a")), "-", Lit(3));
    ParsePrintRoundTrip(e);
    assert PrintExpression(e) == [IntToken(10), OpToken("+"), IdentifierToken("a"), OpToken("-"), IntToken(3)];
  }

  /** `2 - 10 * 2`: multiplication binds tighter than subtraction. */
  lemma PrecedenceExample()
    ensures Parse([IntToken(2), OpToken("-"), IntToken(10), OpToken("*"), IntToken(2)])
      == Parsed(Success(Some(Bin(Lit(2), "-", Bin(Lit(10), "*", Lit(2))))), [])
  {
    var e := Bin(Lit(2), "-", Bin(Lit(10), "*", Lit(2)));
    ParsePrintRoundTrip(e);
    assert PrintExpression(e) == [IntToken(2), OpToken("-"), IntToken(10), OpToken("*"), IntToken(2)];
  }

  /** `(2 - 10) * 2`: parentheses override precedence. */
  lemma ParenthesesExample()
    ensures Parse([PunctuationToken("("), IntToken(2), OpToken("-"), IntToken(10), PunctuationToken(")"),
                   OpToken("*"), IntToken(2)])
      == Parsed(Success(Some(Bin(Bin(Lit(2), "-", Lit(10)), "*", Lit(2)))), [])
  {
    var e := Bin(Bin(Lit(2), "-", Lit(10)), "*", Lit(2));
    ParsePrintRoundTrip(e);
    assert PrintExpression(e) == [PunctuationToken("("), IntToken(2), OpToken("-"), IntToken(10),
                                  PunctuationToken(")"), OpToken("*"), IntToken(2)];
  }

  /** `()` fails on the `)` where a factor was expected. */
  lemma EmptyParenthesesExample()
    ensures Parse([PunctuationToken("("), PunctuationToken(")")]).result
      == Failure(UnexpectedTokenType(PunctuationToken(")"), [IntegerLiteral, TokenType.Identifier]))
  {
    EmptyParentheses(PunctuationToken("("), PunctuationToken(")"));
  }

  lemma EmptyParentheses(open: Token, close: Token)
    requires open.value == "(" && close.value == ")" && close.tokenType == Punctuation
    ensures Parse([open, close]).result == Failure(UnexpectedTokenType(close, [IntegerLiteral, TokenType.Identifier]))
  {
    var ts := [open, close];
    assert ts[0] == open && ts[1..] == [close] == [close] + [];
    FactorTypeError(close, []);
    ParenthesizedFailure(ts);
  }

  /** An error inside parentheses is the error of the whole parse. */
  lemma ParenthesizedFailure(ts: seq<Token>)
    requires |ts| > 0 && ts[0].value == "(" && ParseExpression(ts[1..]).result.Failure?
    ensures Parse(ts) == ParseExpression(ts[1..])
  {
    assert Consume(["("], ts) == Consumed(Success(Some(ts[0])), ts[1..]);
    assert ParseFactor(ts) == ParseExpression(ts[1..]);
    FailuresPropagate(ts);
  }

  /** A `(` with no `)` before the end of input is accepted, and `(` alone parses to nothing. */
  lemma UnclosedParenthesis(e: Expression)
    requires Shaped(e)
    ensures Parse([PunctuationToken("(")] + PrintExpression(e)) == Parsed(Success(Some(e)), [])
    ensures Parse([PunctuationToken("(")]) == Parsed(Success(None), [])
  {
    var open := PunctuationToken("(");
    var ts := [open] + PrintExpression(e);
    assert ts[0] == open && ts[1..] == PrintExpression(e) + [];
    ParsePrintRoundTrip(e);
    assert Consume(["("], ts) == Consumed(Success(Some(open)), PrintExpression(e));
    assert ParseFactor(ts) == Parsed(Success(Some(e)), []);
    TermFromFactor(ts, e, []);
    TermLoopStop(e, []);
    ExpressionFromTerm(ts, e, []);
    ExpressionLoopStop(e, []);
    AtEndOfInput();
    assert [open][0] == open && [open][1..] == [];
    assert ParseFactor([open]) == Parsed(Success(None), []);
  }
}
