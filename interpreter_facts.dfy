/** What evaluation guarantees about whole trees: which trees cannot fail,
    which operators a parsed tree can fail on, that groupings are
    transparent, and that numeric trees evaluate as ordinary arithmetic. */
module EvaluationFacts {
  import opened Wrappers
  import opened Tokens
  import opened Syntax
  import opened Parsing
  import opened Interpreter

  /** A tree whose every operator is one that cannot fail: `!` in prefix
      position, an equality or a comparison in infix position. */
  predicate Total(e: Expr)
  {
    match e
    case Binary(left, operator, right) => NeverFails(operator.tokenType) && Total(left) && Total(right)
    case Grouping(inner) => Total(inner)
    case Literal(_) => true
    case Unary(operator, right) => operator.tokenType == Bang && Total(right)
    case Ternary(condition, thenBranch, elseBranch) => Total(condition) && Total(thenBranch) && Total(elseBranch)
  }

  /** A tree of operators that cannot fail evaluates to a value, whatever
      the values at its leaves. */
  lemma {:induction false} TotalEvaluates(e: Expr, numberText: real -> string)
    requires Total(e)
    ensures Evaluate(e, numberText).Ok?
  {
    match e
    case Binary(left, _, right) =>
      TotalEvaluates(left, numberText);
      TotalEvaluates(right, numberText);
    case Grouping(inner) =>
      TotalEvaluates(inner, numberText);
    case Literal(_) =>
    case Unary(_, right) =>
      TotalEvaluates(right, numberText);
    case Ternary(condition, thenBranch, elseBranch) =>
      TotalEvaluates(condition, numberText);
      TotalEvaluates(thenBranch, numberText);
      TotalEvaluates(elseBranch, numberText);
  }

  /** On a tree the parser can build, evaluation fails only at an
      arithmetic operator or a comma, and "Unexpected operator" is only
      ever the comma's: the parser accepts the comma operator, the
      evaluator has no case for it. */
  lemma {:induction false} ParsedTreeFailures(e: Expr, numberText: real -> string)
    requires WellNested(e)
    ensures var r := Evaluate(e, numberText);
      r.Err? ==> r.error.token.value.tokenType in {Minus, Plus, Slash, Star, Comma}
    ensures var r := Evaluate(e, numberText);
      r.Err? && r.error.message == UnexpectedOperator ==> r.error.token.value.tokenType == Comma
  {
    match e
    case Binary(left, _, right) =>
      ParsedTreeFailures(left, numberText);
      ParsedTreeFailures(right, numberText);
    case Grouping(inner) =>
      ParsedTreeFailures(inner, numberText);
    case Literal(_) =>
    case Unary(_, right) =>
      ParsedTreeFailures(right, numberText);
    case Ternary(condition, thenBranch, elseBranch) =>
      ParsedTreeFailures(condition, numberText);
      ParsedTreeFailures(thenBranch, numberText);
      ParsedTreeFailures(elseBranch, numberText);
  }

  /** A ternary evaluates its condition and then exactly one branch: an
      error in the condition is the result whatever the branches are, and
      the untaken branch's value or error never shows. */
  lemma TernaryTakesOneBranch(condition: Expr, thenBranch: Expr, elseBranch: Expr, numberText: real -> string)
    ensures var c := Evaluate(condition, numberText);
      c.Err? ==> Evaluate(Ternary(condition, thenBranch, elseBranch), numberText) == Err(c.error)
    ensures var c := Evaluate(condition, numberText);
      c.Ok? && IsTruthy(c.value) ==> Evaluate(Ternary(condition, thenBranch, elseBranch), numberText) == Evaluate(thenBranch, numberText)
    ensures var c := Evaluate(condition, numberText);
      c.Ok? && !IsTruthy(c.value) ==> Evaluate(Ternary(condition, thenBranch, elseBranch), numberText) == Evaluate(elseBranch, numberText)
  {
  }

  /** Operands are evaluated left then right and the first error is the
      result; with both values in hand the operator decides. */
  lemma OperandOrder(left: Expr, operator: Token, right: Expr, numberText: real -> string)
    ensures var l := Evaluate(left, numberText);
      l.Err? ==> Evaluate(Binary(left, operator, right), numberText) == Err(l.error)
    ensures var l, r := Evaluate(left, numberText), Evaluate(right, numberText);
      l.Ok? && r.Err? ==> Evaluate(Binary(left, operator, right), numberText) == Err(r.error)
    ensures var l, r := Evaluate(left, numberText), Evaluate(right, numberText);
      l.Ok? && r.Ok? ==> Evaluate(Binary(left, operator, right), numberText) == EvaluateBinary(operator, l.value, r.value, numberText)
  {
  }

  /** `e` wrapped in `n` pairs of parentheses. */
  function Nest(e: Expr, n: nat): Expr
  {
    if n == 0 then e else Grouping(Nest(e, n - 1))
  }

  /** Parentheses do not change a value or an error, however deep. */
  lemma {:induction false} NestedGroups(e: Expr, n: nat, numberText: real -> string)
    ensures Evaluate(Nest(e, n), numberText) == Evaluate(e, numberText)
  {
    if n > 0 {
      NestedGroups(e, n - 1, numberText);
    }
  }

  /** Reference reading of arithmetic: the real a tree denotes when it is
      built from number literals, groupings, unary minus and the four
      operations with non-zero divisors; `None` for any other tree. */
  function Arithmetic(e: Expr): Option<real>
  {
    match e
    case Literal(Some(Number(n))) => Some(n)
    case Grouping(inner) => Arithmetic(inner)
    case Unary(operator, right) =>
      if operator.tokenType == Minus && Arithmetic(right).Some? then Some(-Arithmetic(right).value)
      else None
    case Binary(left, operator, right) =>
      if Arithmetic(left).Some? && Arithmetic(right).Some? then
        Operation(operator.tokenType, Arithmetic(left).value, Arithmetic(right).value)
      else None
    case _ => None
  }

  /** The four operations on reals; division only by a non-zero divisor. */
  function Operation(kind: TokenType, a: real, b: real): Option<real>
  {
    if kind == Plus then Some(a + b)
    else if kind == Minus then Some(a - b)
    else if kind == Star then Some(Product(a, b))
    else if kind == Slash && b != 0.0 then Some(a / b)
    else None
  }

  /** One operator applied to two numbers agrees with the operation. */
  lemma OperationAgrees(operator: Token, a: real, b: real, numberText: real -> string)
    requires Operation(operator.tokenType, a, b).Some?
    ensures EvaluateBinary(operator, Some(Tokens.Literal.Number(a)), Some(Tokens.Literal.Number(b)), numberText)
      == Ok(Some(Tokens.Literal.Number(Operation(operator.tokenType, a, b).value)))
  {
    var left, right := Some(Tokens.Literal.Number(a)), Some(Tokens.Literal.Number(b));
    assert Numbers(left, right);
    var r := EvaluateBinary(operator, left, right, numberText);
    if operator.tokenType == Plus {
      assert EvaluatePlus(operator, left, right, numberText) == Ok(Some(Tokens.Literal.Number(a + b)));
    } else if operator.tokenType == Minus {
      assert r == Ok(Some(Tokens.Literal.Number(a - b)));
    } else if operator.tokenType == Star {
      assert r == Ok(Some(Tokens.Literal.Number(Product(a, b))));
    } else {
      assert r == Ok(Some(Tokens.Literal.Number(a / b)));
    }
  }

  /** Arithmetic trees evaluate to the number arithmetic gives them. */
  lemma {:induction false} ArithmeticAgrees(e: Expr, numberText: real -> string)
    requires Arithmetic(e).Some?
    ensures Evaluate(e, numberText) == Ok(Some(Tokens.Literal.Number(Arithmetic(e).value)))
  {
    match e
    case Literal(_) =>
    case Grouping(inner) =>
      ArithmeticAgrees(inner, numberText);
    case Unary(_, right) =>
      ArithmeticAgrees(right, numberText);
    case Binary(left, operator, right) =>
      ArithmeticAgrees(left, numberText);
      ArithmeticAgrees(right, numberText);
      OperationAgrees(operator, Arithmetic(left).value, Arithmetic(right).value, numberText);
  }
}

/** Parsing then evaluating small token lists, and the evaluator's unit
    cases on literal operands. */
module EvaluationExamples {
  import opened Wrappers
  import opened Tokens
  import opened Syntax
  import opened Parsing
  import opened ParsingFacts
  import opened ParsingExamples
  import opened Interpreter
  import opened EvaluationFacts

  /** The number a token's lexeme reads as. */
  function Read(readNumber: NumberReader, token: Token): real
    requires readNumber(token.lexeme).Some?
  {
    readNumber(token.lexeme).value
  }

  /** `a - b - c` subtracts `b` first: its value is `(a - b) - c`. */
  lemma {:induction false} LeftAssociativeValue(readNumber: NumberReader, tokens: seq<Token>, numberText: real -> string)
    requires HasKinds(tokens, [TokenType.Number, Minus, TokenType.Number, Minus, TokenType.Number, Eof])
    requires NumbersParse(readNumber, tokens)
    ensures var o := ParseAt(ExpressionRule, readNumber, tokens, 0);
      o.result.Ok? && Evaluate(o.result.value, numberText)
        == Ok(Some(Tokens.Literal.Number(
             Read(readNumber, tokens[0]) - Read(readNumber, tokens[2]) - Read(readNumber, tokens[4]))))
  {
    LeftAssociative(readNumber, tokens);
    Differences(tokens[1], tokens[3], Read(readNumber, tokens[0]), Read(readNumber, tokens[2]), Read(readNumber, tokens[4]), numberText);
  }

  /** Two subtractions, the first nested on the left. */
  lemma Differences(first: Token, second: Token, a: real, b: real, c: real, numberText: real -> string)
    requires first.tokenType == Minus && second.tokenType == Minus
    ensures Evaluate(Binary(Binary(NumberLeaf(a), first, NumberLeaf(b)), second, NumberLeaf(c)), numberText)
      == Ok(Some(Tokens.Literal.Number(a - b - c)))
  {
    var inner := Binary(NumberLeaf(a), first, NumberLeaf(b));
    assert Evaluate(inner, numberText) == Ok(Some(Tokens.Literal.Number(a - b)));
  }

  /** `a, b` parses, and evaluating it fails at the comma. */
  lemma {:induction false} CommaRejected(readNumber: NumberReader, tokens: seq<Token>, numberText: real -> string)
    requires HasKinds(tokens, [TokenType.Number, TokenType.Comma, TokenType.Number, Eof]) && NumbersParse(readNumber, tokens)
    ensures var o := ParseAt(ExpressionRule, readNumber, tokens, 0);
      o.result.Ok? && Evaluate(o.result.value, numberText) == Err(RuntimeError(UnexpectedOperator, Some(tokens[1])))
  {
    CommaPair(readNumber, tokens);
  }

  /** `true ? a : b` is `a`. */
  lemma {:induction false} ConditionalValue(readNumber: NumberReader, tokens: seq<Token>, numberText: real -> string)
    requires HasKinds(tokens, [True, QuestionMark, TokenType.Number, Colon, TokenType.Number, Eof])
    requires NumbersParse(readNumber, tokens)
    ensures var o := ParseAt(ExpressionRule, readNumber, tokens, 0);
      o.result.Ok? && Evaluate(o.result.value, numberText) == Ok(Some(Tokens.Literal.Number(Read(readNumber, tokens[2]))))
  {
    Conditional(readNumber, tokens);
  }

  /** An operator token as the unit cases build it. */
  function Operator(kind: TokenType, lexeme: string): Token
  {
    Token(kind, lexeme, None, 0)
  }

  function NumberLeaf(n: real): Expr
  {
    Expr.Literal(Some(Tokens.Literal.Number(n)))
  }

  function StringLeaf(s: string): Expr
  {
    Expr.Literal(Some(Tokens.Literal.String(s)))
  }

  /** `-1` is minus one. */
  lemma NegationCase(numberText: real -> string)
    ensures Interpret(Unary(Operator(Minus, "-"), NumberLeaf(1.0)), numberText) == Ok(Some(Tokens.Literal.Number(-1.0)))
  {
  }

  /** `6 / 3` is 2. */
  lemma QuotientCase(numberText: real -> string)
    ensures Interpret(Binary(NumberLeaf(6.0), Operator(Slash, "/"), NumberLeaf(3.0)), numberText) == Ok(Some(Tokens.Literal.Number(2.0)))
  {
  }

  /** `+` with a string on either side concatenates the other side's
      display text. */
  lemma ConcatenationCases(numberText: real -> string)
    requires numberText(1.0) == "1"
    ensures Interpret(Binary(StringLeaf("hello"), Operator(Plus, "+"), NumberLeaf(1.0)), numberText) == Ok(Some(Tokens.Literal.String("hello1")))
    ensures Interpret(Binary(NumberLeaf(1.0), Operator(Plus, "+"), StringLeaf("hello")), numberText) == Ok(Some(Tokens.Literal.String("1hello")))
    ensures Interpret(Binary(StringLeaf("hello"), Operator(Plus, "+"), Expr.Literal(Some(Boolean(true)))), numberText)
      == Ok(Some(Tokens.Literal.String("hellotrue")))
  {
    assert "hello" + "1" == "hello1";
    assert "1" + "hello" == "1hello";
    assert "hello" + "true" == "hellotrue";
  }

  /** Ordering two strings is false rather than an error. */
  lemma StringOrderingCase(numberText: real -> string)
    ensures Interpret(Binary(StringLeaf("hello"), Operator(Less, "<"), StringLeaf("world")), numberText) == Ok(Some(Boolean(false)))
  {
  }

  /** `1 / 0` fails at the slash. */
  lemma DivisionByZeroCase(numberText: real -> string)
    ensures Interpret(Binary(NumberLeaf(1.0), Operator(Slash, "/"), NumberLeaf(0.0)), numberText)
      == Err(RuntimeError(DivisionByZero, Some(Operator(Slash, "/"))))
  {
  }
}
