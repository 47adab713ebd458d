/** The tree-walking evaluator: an expression tree evaluates to a value (an
    optional literal, `None` being nil) or to a runtime error naming the
    operator that failed. Evaluation is pure recursion; an error in an
    operand is returned as is, the left operand's before the right's. */
module Interpreter {
  import opened Wrappers
  import opened Tokens
  import opened Syntax

  /** A runtime value: a literal, or `None` for nil. */
  type Value = Option<Tokens.Literal>

  datatype RuntimeError = RuntimeError(message: string, token: Option<Token>)

  const OperandsMustBeNumbers := "Operands must be numbers."
  const OperandsMustBeNumbersOrStrings := "operands must be numbers or strings."
  const DivisionByZero := "Division by zero."
  const UnexpectedOperator := "Unexpected operator"

  /** `RuntimeError::with_token`. */
  function Fail(message: string, operator: Token): Result<Value, RuntimeError>
  {
    Err(RuntimeError(message, Some(operator)))
  }

  /** `is_truthy`: only nil and `false` are falsy. */
  function IsTruthy(v: Value): (truthy: bool)
    ensures truthy <==> v != None && v != Some(Tokens.Literal.Boolean(false))
  {
    match v
    case Some(Boolean(b)) => b
    case None => false
    case Some(_) => true
  }

  /** `evaluate_equal`: nil equals only nil, values of different variants
      are unequal, values of one variant compare by content: altogether,
      structural equality of values. */
  function EvaluateEqual(left: Value, right: Value): (equal: bool)
    ensures equal <==> left == right
  {
    match (left, right)
    case (None, None) => true
    case (Some(_), None) => false
    case (None, Some(_)) => false
    case (Some(Number(l)), Some(Number(r))) => l == r
    case (Some(Number(_)), Some(_)) => false
    case (Some(String(l)), Some(String(r))) => l == r
    case (Some(String(_)), Some(_)) => false
    case (Some(Boolean(l)), Some(Boolean(r))) => l == r
    case (Some(Boolean(_)), Some(_)) => false
    case (Some(Identifier(l)), Some(Identifier(r))) => l == r
    case (Some(Identifier(_)), Some(_)) => false
  }

  /** Both operands are numbers. */
  predicate Numbers(left: Value, right: Value)
  {
    left.Some? && left.value.Number? && right.Some? && right.value.Number?
  }

  /** The kinds `evaluate_binary` handles. */
  predicate HandledBinary(kind: TokenType)
  {
    kind in {Minus, Plus, Slash, Star, Greater, GreaterEqual, Less, LessEqual, BangEqual, EqualEqual}
  }

  /** The binary operator kinds whose evaluation cannot fail: the
      equalities and the comparisons. */
  predicate NeverFails(kind: TokenType)
  {
    kind in {BangEqual, EqualEqual, Greater, GreaterEqual, Less, LessEqual}
  }

  /** The message of every error evaluation can produce. */
  predicate IsRuntimeMessage(message: string)
  {
    message in {OperandsMustBeNumbers, OperandsMustBeNumbersOrStrings, DivisionByZero, UnexpectedOperator}
  }

  /** `+`: sum of numbers; otherwise concatenation with the display text
      of the other side when either side is a string, the left one first. */
  function EvaluatePlus(operator: Token, left: Value, right: Value, numberText: real -> string): Result<Value, RuntimeError>
  {
    match (left, right)
    case (Some(Number(l)), Some(Number(r))) => Ok(Some(Tokens.Literal.Number(l + r)))
    case (Some(String(l)), r) => Ok(Some(Tokens.Literal.String(l + ValueText(r, numberText))))
    case (l, Some(String(r))) => Ok(Some(Tokens.Literal.String(ValueText(l, numberText) + r)))
    case _ => Fail(OperandsMustBeNumbersOrStrings, operator)
  }

  /** The product of two numbers, named so that the solver matches it as
      one term rather than as non-linear arithmetic. */
  function Product(x: real, y: real): real
  {
    x * y
  }

  /** The four orderings on numbers; any other operands compare false. */
  function Compare(kind: TokenType, left: Value, right: Value): bool
    requires kind in {Greater, GreaterEqual, Less, LessEqual}
  {
    if !Numbers(left, right) then false
    else
      var l, r := left.value.number, right.value.number;
      if kind == Greater then l > r
      else if kind == GreaterEqual then l >= r
      else if kind == Less then l < r
      else l <= r
  }

  /** `evaluate_binary` once both operands have values. */
  function EvaluateBinary(operator: Token, left: Value, right: Value, numberText: real -> string): (r: Result<Value, RuntimeError>)
    ensures r.Err? ==> r.error.token == Some(operator) && IsRuntimeMessage(r.error.message)
    ensures r.Err? && r.error.message == UnexpectedOperator <==> !HandledBinary(operator.tokenType)
    ensures r.Err? && r.error.message == DivisionByZero <==>
      operator.tokenType == Slash && Numbers(left, right) && right.value.number == 0.0
    ensures r.Err? && r.error.message == OperandsMustBeNumbersOrStrings <==>
      operator.tokenType == Plus && !Numbers(left, right)
      && !(left.Some? && left.value.String?) && !(right.Some? && right.value.String?)
    ensures r.Err? && r.error.message == OperandsMustBeNumbers <==>
      (operator.tokenType in {Minus, Slash, Star} && !Numbers(left, right))
    ensures NeverFails(operator.tokenType) ==> r.Ok? && r.value.Some? && r.value.value.Boolean?
    ensures operator.tokenType == EqualEqual ==> r == Ok(Some(Tokens.Literal.Boolean(left == right)))
    ensures operator.tokenType == BangEqual ==> r == Ok(Some(Tokens.Literal.Boolean(left != right)))
    ensures operator.tokenType in {Greater, GreaterEqual, Less, LessEqual} && !Numbers(left, right) ==>
      r == Ok(Some(Tokens.Literal.Boolean(false)))
    ensures operator.tokenType == Greater && Numbers(left, right) ==>
      r == Ok(Some(Tokens.Literal.Boolean(left.value.number > right.value.number)))
    ensures operator.tokenType == GreaterEqual && Numbers(left, right) ==>
      r == Ok(Some(Tokens.Literal.Boolean(left.value.number >= right.value.number)))
    ensures operator.tokenType == Less && Numbers(left, right) ==>
      r == Ok(Some(Tokens.Literal.Boolean(left.value.number < right.value.number)))
    ensures operator.tokenType == LessEqual && Numbers(left, right) ==>
      r == Ok(Some(Tokens.Literal.Boolean(left.value.number <= right.value.number)))
    ensures operator.tokenType == Plus && left.Some? && left.value.String? ==>
      r == Ok(Some(Tokens.Literal.String(left.value.text + ValueText(right, numberText))))
    ensures (operator.tokenType == Plus && !(left.Some? && left.value.String?) && !Numbers(left, right)
             && right.Some? && right.value.String?) ==>
      r == Ok(Some(Tokens.Literal.String(ValueText(left, numberText) + right.value.text)))
  {
    var kind := operator.tokenType;
    if kind == Minus then
      if Numbers(left, right) then Ok(Some(Tokens.Literal.Number(left.value.number - right.value.number)))
      else Fail(OperandsMustBeNumbers, operator)
    else if kind == Plus then
      EvaluatePlus(operator, left, right, numberText)
    else if kind == Slash then
      if !Numbers(left, right) then Fail(OperandsMustBeNumbers, operator)
      else if right.value.number == 0.0 then Fail(DivisionByZero, operator)
      else Ok(Some(Tokens.Literal.Number(left.value.number / right.value.number)))
    else if kind == Star then
      if Numbers(left, right) then Ok(Some(Tokens.Literal.Number(Product(left.value.number, right.value.number))))
      else Fail(OperandsMustBeNumbers, operator)
    else if kind in {Greater, GreaterEqual, Less, LessEqual} then
      Ok(Some(Tokens.Literal.Boolean(Compare(kind, left, right))))
    else if kind == BangEqual then
      Ok(Some(Tokens.Literal.Boolean(!EvaluateEqual(left, right))))
    else if kind == EqualEqual then
      Ok(Some(Tokens.Literal.Boolean(EvaluateEqual(left, right))))
    else
      Fail(UnexpectedOperator, operator)
  }

  /** `evaluate_unary` once the operand has a value. */
  function EvaluateUnary(operator: Token, right: Value): (r: Result<Value, RuntimeError>)
    ensures r.Err? ==> r.error.token == Some(operator) && IsRuntimeMessage(r.error.message)
    ensures r.Err? <==> operator.tokenType != Bang && (operator.tokenType != Minus || !(right.Some? && right.value.Number?))
    ensures operator.tokenType == Bang ==> r == Ok(Some(Tokens.Literal.Boolean(!IsTruthy(right))))
    ensures r.Err? && operator.tokenType == Minus ==> r.error.message == OperandsMustBeNumbers
    ensures r.Err? && operator.tokenType != Minus ==> r.error.message == UnexpectedOperator
    ensures operator.tokenType == Minus && right.Some? && right.value.Number? ==>
      r == Ok(Some(Tokens.Literal.Number(-right.value.number)))
  {
    match operator.tokenType
    case Minus =>
      if right.Some? && right.value.Number? then Ok(Some(Tokens.Literal.Number(-right.value.number)))
      else Fail(OperandsMustBeNumbers, operator)
    case Bang => Ok(Some(Tokens.Literal.Boolean(!IsTruthy(right))))
    case _ => Fail(UnexpectedOperator, operator)
  }

  /** The operator tokens of a tree. */
  function OperatorTokens(e: Expr): set<Token>
  {
    match e
    case Binary(left, operator, right) => {operator} + OperatorTokens(left) + OperatorTokens(right)
    case Grouping(inner) => OperatorTokens(inner)
    case Literal(_) => {}
    case Unary(operator, right) => {operator} + OperatorTokens(right)
    case Ternary(condition, thenBranch, elseBranch) =>
      OperatorTokens(condition) + OperatorTokens(thenBranch) + OperatorTokens(elseBranch)
  }

  /** `evaluate_expression`. Every error names an operator of the tree and
      carries one of the four runtime messages; a literal never fails. */
  function Evaluate(e: Expr, numberText: real -> string): (r: Result<Value, RuntimeError>)
    ensures r.Err? ==> r.error.token.Some? && r.error.token.value in OperatorTokens(e)
    ensures r.Err? ==> IsRuntimeMessage(r.error.message)
  {
    match e
    case Binary(left, operator, right) =>
      var l :- Evaluate(left, numberText);
      var r :- Evaluate(right, numberText);
      EvaluateBinary(operator, l, r, numberText)
    case Grouping(inner) => Evaluate(inner, numberText)
    case Literal(value) => Ok(value)
    case Unary(operator, right) =>
      var v :- Evaluate(right, numberText);
      EvaluateUnary(operator, v)
    case Ternary(condition, thenBranch, elseBranch) =>
      var c :- Evaluate(condition, numberText);
      if IsTruthy(c) then Evaluate(thenBranch, numberText) else Evaluate(elseBranch, numberText)
  }

  /** `interpret`. */
  function Interpret(e: Expr, numberText: real -> string): (r: Result<Value, RuntimeError>)
    ensures r.Err? ==> r.error.token.Some? && r.error.token.value in OperatorTokens(e)
  {
    Evaluate(e, numberText)
  }
}
