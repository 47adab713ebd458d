/** What the recursive-descent parser makes of whole token lists: how a
    finished operand passes unchanged through the looser rules, and what
    the source's own test inputs parse to. The examples fix only the kinds
    of the tokens; lexemes, lines and the number reader stay arbitrary. */
module ParsingFacts {
  import opened Wrappers
  import opened Tokens
  import opened Syntax
  import opened Parsing

  // ---------------------------------------------------------------------
  // Passing a finished operand up the rules
  // ---------------------------------------------------------------------

  /** How tightly the rule a token continues binds: the binary operators
      their strength, `?` the ternary's 2, anything else 0. */
  function Binding(kind: TokenType): nat
  {
    if kind == QuestionMark then 2 else OperatorStrength(kind)
  }

  /** The rule each rule reads first. */
  function Below(rule: Rule): (r: Rule)
    requires rule != PrimaryRule
    ensures Rank(r) + 1 == Rank(rule)
    ensures MinStrength(r) >= MinStrength(rule)
  {
    match rule
    case ExpressionRule => CommaRule
    case TernaryRule => EqualityRule
    case UnaryRule => PrimaryRule
    case CommaRule | EqualityRule | ComparisonRule | TermRule | FactorRule => Operand(rule)
  }

  /** An outcome no rule at least as loose as `rule` continues: a failure,
      or a success followed by a token that binds less tightly than
      `rule`. */
  predicate Stops(rule: Rule, tokens: seq<Token>, o: Outcome)
    requires o.pos < |tokens|
  {
    o.result.Err? || Binding(tokens[o.pos].tokenType) < MinStrength(rule)
  }

  /** A rule other than `unary` and `primary` gives back what the rule
      below it gave when that result stops there. */
  lemma StepDown(rule: Rule, readNumber: NumberReader, tokens: seq<Token>, pos: nat)
    requires Ready(readNumber, tokens, pos) && rule != PrimaryRule && rule != UnaryRule
    requires Stops(rule, tokens, ParseAt(Below(rule), readNumber, tokens, pos))
    ensures ParseAt(rule, readNumber, tokens, pos) == ParseAt(Below(rule), readNumber, tokens, pos)
  {
    if rule == TernaryRule {
      TernaryStops(readNumber, tokens, pos);
    } else if rule != ExpressionRule {
      BinaryStops(rule, readNumber, tokens, pos);
    }
  }

  lemma TernaryStops(readNumber: NumberReader, tokens: seq<Token>, pos: nat)
    requires Ready(readNumber, tokens, pos)
    requires Stops(TernaryRule, tokens, ParseAt(EqualityRule, readNumber, tokens, pos))
    ensures ParseAt(TernaryRule, readNumber, tokens, pos) == ParseAt(EqualityRule, readNumber, tokens, pos)
  {
    var o := ParseAt(EqualityRule, readNumber, tokens, pos);
    assert ParseAt(TernaryRule, readNumber, tokens, pos) == TernaryAt(readNumber, tokens, pos);
    if o.result.Ok? {
      assert !MatchesAny(tokens, o.pos, [QuestionMark]);
      assert TernaryRest(readNumber, tokens, o.pos, o.result.value) == o;
    }
  }

  lemma BinaryStops(rule: Rule, readNumber: NumberReader, tokens: seq<Token>, pos: nat)
    requires Ready(readNumber, tokens, pos) && IsBinaryRule(rule)
    requires Stops(rule, tokens, ParseAt(Operand(rule), readNumber, tokens, pos))
    ensures ParseAt(rule, readNumber, tokens, pos) == ParseAt(Operand(rule), readNumber, tokens, pos)
  {
    var o := ParseAt(Operand(rule), readNumber, tokens, pos);
    assert ParseAt(rule, readNumber, tokens, pos) == BinaryAt(Operators(rule), Operand(rule), readNumber, tokens, pos);
    if o.result.Ok? {
      forall t | t in Operators(rule)
        ensures OperatorStrength(t) == MinStrength(rule)
      {
        OperatorsBind(rule, t);
      }
      assert !MatchesAny(tokens, o.pos, Operators(rule));
      assert ChainRest(Operators(rule), Operand(rule), readNumber, tokens, o.pos, o.result.value) == o;
    }
  }

  /** A result of `inner` that stops at `rule` is the result of `rule` and
      of every rule in between. */
  lemma {:induction false} Settle(rule: Rule, inner: Rule, readNumber: NumberReader, tokens: seq<Token>, pos: nat)
    requires Ready(readNumber, tokens, pos) && inner != PrimaryRule && Rank(inner) <= Rank(rule)
    requires Stops(rule, tokens, ParseAt(inner, readNumber, tokens, pos))
    ensures ParseAt(rule, readNumber, tokens, pos) == ParseAt(inner, readNumber, tokens, pos)
    decreases Rank(rule)
  {
    if Rank(inner) < Rank(rule) {
      Settle(Below(rule), inner, readNumber, tokens, pos);
      StepDown(rule, readNumber, tokens, pos);
    }
  }

  /** A binary rule whose first operand was read goes on with the chain
      from where the operand ended. */
  lemma BinaryFirst(rule: Rule, readNumber: NumberReader, tokens: seq<Token>, pos: nat, left: Expr, q: nat)
    requires Ready(readNumber, tokens, pos) && IsBinaryRule(rule)
    requires ParseAt(Operand(rule), readNumber, tokens, pos) == Outcome(Ok(left), q)
    ensures ParseAt(rule, readNumber, tokens, pos) == ChainRest(Operators(rule), Operand(rule), readNumber, tokens, q, left)
  {
  }

  /** An operator and a successfully read right operand extend the chain. */
  lemma ChainOn(tokenTypes: seq<TokenType>, next: Rule, readNumber: NumberReader, tokens: seq<Token>, pos: nat, left: Expr, right: Expr, q: nat)
    requires Ready(readNumber, tokens, pos) && MatchesAny(tokens, pos, tokenTypes)
    requires ParseAt(next, readNumber, tokens, pos + 1) == Outcome(Ok(right), q)
    ensures ChainRest(tokenTypes, next, readNumber, tokens, pos, left)
      == ChainRest(tokenTypes, next, readNumber, tokens, q, Binary(left, tokens[pos], right))
  {
  }

  /** A chain ends at a token that is not one of its operators. */
  lemma ChainEnds(tokenTypes: seq<TokenType>, next: Rule, readNumber: NumberReader, tokens: seq<Token>, pos: nat, left: Expr)
    requires Ready(readNumber, tokens, pos) && !MatchesAny(tokens, pos, tokenTypes)
    ensures ChainRest(tokenTypes, next, readNumber, tokens, pos, left) == Outcome(Ok(left), pos)
  {
  }

  /** A ternary whose condition was read goes on from where it ended. */
  lemma TernaryFirst(readNumber: NumberReader, tokens: seq<Token>, pos: nat, condition: Expr, q: nat)
    requires Ready(readNumber, tokens, pos)
    requires ParseAt(EqualityRule, readNumber, tokens, pos) == Outcome(Ok(condition), q)
    ensures ParseAt(TernaryRule, readNumber, tokens, pos) == TernaryRest(readNumber, tokens, q, condition)
  {
  }

  /** A then branch read successfully is followed by the check for `:`. */
  lemma ThenRead(readNumber: NumberReader, tokens: seq<Token>, pos: nat, condition: Expr, thenBranch: Expr, q: nat)
    requires Ready(readNumber, tokens, pos)
    requires ParseAt(ExpressionRule, readNumber, tokens, pos) == Outcome(Ok(thenBranch), q)
    ensures TernaryBranches(readNumber, tokens, pos, condition) == TernaryElse(readNumber, tokens, q, condition, thenBranch)
  {
  }

  /** Without a prefix operator `unary` is `primary`. */
  lemma NoPrefix(readNumber: NumberReader, tokens: seq<Token>, pos: nat)
    requires Ready(readNumber, tokens, pos) && !MatchesAny(tokens, pos, [Bang, Minus])
    ensures ParseAt(UnaryRule, readNumber, tokens, pos) == PrimaryAt(readNumber, tokens, pos)
  {
  }

  /** The literal an atom token stands for. */
  function Atom(readNumber: NumberReader, tokens: seq<Token>, k: nat): Expr
    requires k < |tokens| && IsAtom(tokens[k].tokenType) && NumbersParse(readNumber, tokens)
  {
    Expr.Literal(AtomValue(readNumber, tokens[k]))
  }

  /** A literal followed by a token no rule up to `rule` continues is, for
      `rule`, just that literal. */
  lemma AtomAt(rule: Rule, readNumber: NumberReader, tokens: seq<Token>, pos: nat)
    requires Ready(readNumber, tokens, pos) && IsAtom(tokens[pos].tokenType)
    requires pos + 1 < |tokens| && Binding(tokens[pos + 1].tokenType) < MinStrength(rule)
    ensures ParseAt(rule, readNumber, tokens, pos) == Outcome(Ok(Atom(readNumber, tokens, pos)), pos + 1)
  {
    if rule != PrimaryRule {
      NoPrefix(readNumber, tokens, pos);
      Settle(rule, UnaryRule, readNumber, tokens, pos);
    }
  }

  /** A token that starts no expression is rejected by every rule, with the
      cursor left on it. */
  lemma NoExpressionAt(rule: Rule, readNumber: NumberReader, tokens: seq<Token>, pos: nat)
    requires Ready(readNumber, tokens, pos)
    requires !IsAtom(tokens[pos].tokenType) && tokens[pos].tokenType !in {LeftParen, Bang, Minus}
    ensures ParseAt(rule, readNumber, tokens, pos) == Outcome(Err(ParseError(tokens[pos], ExpectExpression)), pos)
  {
    if rule != PrimaryRule {
      NoPrefix(readNumber, tokens, pos);
      Settle(rule, UnaryRule, readNumber, tokens, pos);
    }
  }
}

/** What the parser makes of small token lists, given by their kinds. */
module ParsingExamples {
  import opened Wrappers
  import opened Tokens
  import opened Syntax
  import opened Parsing
  import opened ParsingFacts

  /** The token list has exactly these kinds, in this order. */
  predicate HasKinds(tokens: seq<Token>, kinds: seq<TokenType>)
  {
    |tokens| == |kinds| && forall k :: 0 <= k < |tokens| ==> tokens[k].tokenType == kinds[k]
  }

  /** A lone number is a literal of the value its lexeme reads as, and the
      cursor ends on the `Eof`. */
  lemma {:induction false} LoneNumber(readNumber: NumberReader, tokens: seq<Token>)
    requires HasKinds(tokens, [TokenType.Number, Eof]) && NumbersParse(readNumber, tokens)
    ensures ParseAt(ExpressionRule, readNumber, tokens, 0)
      == Outcome(Ok(Expr.Literal(Some(Tokens.Literal.Number(readNumber(tokens[0].lexeme).value)))), 1)
  {
    AtomAt(ExpressionRule, readNumber, tokens, 0);
  }

  /** Tokens after a complete expression are left where they are: two
      numbers in a row parse as the first, with the cursor on the second. */
  lemma {:induction false} TrailingTokens(readNumber: NumberReader, tokens: seq<Token>)
    requires HasKinds(tokens, [TokenType.Number, TokenType.Number, Eof]) && NumbersParse(readNumber, tokens)
    ensures ParseAt(ExpressionRule, readNumber, tokens, 0) == Outcome(Ok(Atom(readNumber, tokens, 0)), 1)
  {
    AtomAt(ExpressionRule, readNumber, tokens, 0);
  }

  /** `1 - 2 - 3` groups to the left: `(1 - 2) - 3`. */
  lemma {:induction false} LeftAssociative(readNumber: NumberReader, tokens: seq<Token>)
    requires HasKinds(tokens, [TokenType.Number, Minus, TokenType.Number, Minus, TokenType.Number, Eof])
    requires NumbersParse(readNumber, tokens)
    ensures ParseAt(ExpressionRule, readNumber, tokens, 0)
      == Outcome(Ok(Binary(Binary(Atom(readNumber, tokens, 0), tokens[1], Atom(readNumber, tokens, 2)),
                           tokens[3], Atom(readNumber, tokens, 4))), 5)
  {
    LeftAssociativeTerm(readNumber, tokens);
    Settle(ExpressionRule, TermRule, readNumber, tokens, 0);
  }

  lemma {:induction false} LeftAssociativeTerm(readNumber: NumberReader, tokens: seq<Token>)
    requires HasKinds(tokens, [TokenType.Number, Minus, TokenType.Number, Minus, TokenType.Number, Eof])
    requires NumbersParse(readNumber, tokens)
    ensures ParseAt(TermRule, readNumber, tokens, 0)
      == Outcome(Ok(Binary(Binary(Atom(readNumber, tokens, 0), tokens[1], Atom(readNumber, tokens, 2)),
                           tokens[3], Atom(readNumber, tokens, 4))), 5)
  {
    var ops := Operators(TermRule);
    var first := Binary(Atom(readNumber, tokens, 0), tokens[1], Atom(readNumber, tokens, 2));
    var whole := Binary(first, tokens[3], Atom(readNumber, tokens, 4));
    AtomAt(FactorRule, readNumber, tokens, 0);
    AtomAt(FactorRule, readNumber, tokens, 2);
    AtomAt(FactorRule, readNumber, tokens, 4);
    BinaryFirst(TermRule, readNumber, tokens, 0, Atom(readNumber, tokens, 0), 1);
    ChainOn(ops, FactorRule, readNumber, tokens, 1, Atom(readNumber, tokens, 0), Atom(readNumber, tokens, 2), 3);
    ChainOn(ops, FactorRule, readNumber, tokens, 3, first, Atom(readNumber, tokens, 4), 5);
    ChainEnds(ops, FactorRule, readNumber, tokens, 5, whole);
  }

  /** `1 < 3 + 4` binds the sum first: `1 < (3 + 4)`. */
  lemma {:induction false} SumBeforeComparison(readNumber: NumberReader, tokens: seq<Token>)
    requires HasKinds(tokens, [TokenType.Number, Less, TokenType.Number, Plus, TokenType.Number, Eof])
    requires NumbersParse(readNumber, tokens)
    ensures ParseAt(ExpressionRule, readNumber, tokens, 0)
      == Outcome(Ok(Binary(Atom(readNumber, tokens, 0), tokens[1],
                           Binary(Atom(readNumber, tokens, 2), tokens[3], Atom(readNumber, tokens, 4)))), 5)
  {
    SumBeforeComparisonAt(readNumber, tokens);
    Settle(ExpressionRule, ComparisonRule, readNumber, tokens, 0);
  }

  lemma {:induction false} SumBeforeComparisonAt(readNumber: NumberReader, tokens: seq<Token>)
    requires HasKinds(tokens, [TokenType.Number, Less, TokenType.Number, Plus, TokenType.Number, Eof])
    requires NumbersParse(readNumber, tokens)
    ensures ParseAt(ComparisonRule, readNumber, tokens, 0)
      == Outcome(Ok(Binary(Atom(readNumber, tokens, 0), tokens[1],
                           Binary(Atom(readNumber, tokens, 2), tokens[3], Atom(readNumber, tokens, 4)))), 5)
  {
    var ops := Operators(ComparisonRule);
    var sum := Binary(Atom(readNumber, tokens, 2), tokens[3], Atom(readNumber, tokens, 4));
    var whole := Binary(Atom(readNumber, tokens, 0), tokens[1], sum);
    SumAt(readNumber, tokens);
    AtomAt(TermRule, readNumber, tokens, 0);
    BinaryFirst(ComparisonRule, readNumber, tokens, 0, Atom(readNumber, tokens, 0), 1);
    ChainOn(ops, TermRule, readNumber, tokens, 1, Atom(readNumber, tokens, 0), sum, 5);
    ChainEnds(ops, TermRule, readNumber, tokens, 5, whole);
  }

  lemma {:induction false} SumAt(readNumber: NumberReader, tokens: seq<Token>)
    requires HasKinds(tokens, [TokenType.Number, Less, TokenType.Number, Plus, TokenType.Number, Eof])
    requires NumbersParse(readNumber, tokens)
    ensures ParseAt(TermRule, readNumber, tokens, 2)
      == Outcome(Ok(Binary(Atom(readNumber, tokens, 2), tokens[3], Atom(readNumber, tokens, 4))), 5)
  {
    var ops := Operators(TermRule);
    var sum := Binary(Atom(readNumber, tokens, 2), tokens[3], Atom(readNumber, tokens, 4));
    AtomAt(FactorRule, readNumber, tokens, 2);
    AtomAt(FactorRule, readNumber, tokens, 4);
    BinaryFirst(TermRule, readNumber, tokens, 2, Atom(readNumber, tokens, 2), 3);
    ChainOn(ops, FactorRule, readNumber, tokens, 3, Atom(readNumber, tokens, 2), Atom(readNumber, tokens, 4), 5);
    ChainEnds(ops, FactorRule, readNumber, tokens, 5, sum);
  }

  /** `- - 1` nests the prefix operators to the right. */
  lemma {:induction false} DoubleNegation(readNumber: NumberReader, tokens: seq<Token>)
    requires HasKinds(tokens, [Minus, Minus, TokenType.Number, Eof]) && NumbersParse(readNumber, tokens)
    ensures ParseAt(ExpressionRule, readNumber, tokens, 0)
      == Outcome(Ok(Expr.Unary(tokens[0], Expr.Unary(tokens[1], Atom(readNumber, tokens, 2)))), 3)
  {
    AtomAt(UnaryRule, readNumber, tokens, 2);
    UnaryStep(readNumber, tokens, 1, 2, ParseAt(UnaryRule, readNumber, tokens, 2));
    UnaryStep(readNumber, tokens, 0, 1, ParseAt(UnaryRule, readNumber, tokens, 1));
    Settle(ExpressionRule, UnaryRule, readNumber, tokens, 0);
  }

  /** `a , b` is a binary node of the comma operator. */
  lemma {:induction false} CommaPair(readNumber: NumberReader, tokens: seq<Token>)
    requires HasKinds(tokens, [TokenType.Number, TokenType.Comma, TokenType.Number, Eof]) && NumbersParse(readNumber, tokens)
    ensures ParseAt(ExpressionRule, readNumber, tokens, 0)
      == Outcome(Ok(Binary(Atom(readNumber, tokens, 0), tokens[1], Atom(readNumber, tokens, 2))), 3)
  {
    var ops := Operators(CommaRule);
    var pair := Binary(Atom(readNumber, tokens, 0), tokens[1], Atom(readNumber, tokens, 2));
    AtomAt(TernaryRule, readNumber, tokens, 0);
    AtomAt(TernaryRule, readNumber, tokens, 2);
    BinaryFirst(CommaRule, readNumber, tokens, 0, Atom(readNumber, tokens, 0), 1);
    ChainOn(ops, TernaryRule, readNumber, tokens, 1, Atom(readNumber, tokens, 0), Atom(readNumber, tokens, 2), 3);
    ChainEnds(ops, TernaryRule, readNumber, tokens, 3, pair);
  }

  /** `true ? 1 : 2` is a ternary of the three literals. */
  lemma {:induction false} Conditional(readNumber: NumberReader, tokens: seq<Token>)
    requires HasKinds(tokens, [True, QuestionMark, TokenType.Number, Colon, TokenType.Number, Eof])
    requires NumbersParse(readNumber, tokens)
    ensures ParseAt(ExpressionRule, readNumber, tokens, 0)
      == Outcome(Ok(Expr.Ternary(Atom(readNumber, tokens, 0), Atom(readNumber, tokens, 2), Atom(readNumber, tokens, 4))), 5)
  {
    ConditionalAt(readNumber, tokens);
    Settle(ExpressionRule, TernaryRule, readNumber, tokens, 0);
  }

  lemma {:induction false} ConditionalAt(readNumber: NumberReader, tokens: seq<Token>)
    requires HasKinds(tokens, [True, QuestionMark, TokenType.Number, Colon, TokenType.Number, Eof])
    requires NumbersParse(readNumber, tokens)
    ensures ParseAt(TernaryRule, readNumber, tokens, 0)
      == Outcome(Ok(Expr.Ternary(Atom(readNumber, tokens, 0), Atom(readNumber, tokens, 2), Atom(readNumber, tokens, 4))), 5)
  {
    var condition := Atom(readNumber, tokens, 0);
    AtomAt(EqualityRule, readNumber, tokens, 0);
    TernaryFirst(readNumber, tokens, 0, condition, 1);
    TernaryStep(readNumber, tokens, 1, 2, condition);
    ConditionalBranches(readNumber, tokens);
  }

  lemma {:induction false} ConditionalBranches(readNumber: NumberReader, tokens: seq<Token>)
    requires HasKinds(tokens, [True, QuestionMark, TokenType.Number, Colon, TokenType.Number, Eof])
    requires NumbersParse(readNumber, tokens)
    ensures TernaryBranches(readNumber, tokens, 2, Atom(readNumber, tokens, 0))
      == Outcome(Ok(Expr.Ternary(Atom(readNumber, tokens, 0), Atom(readNumber, tokens, 2), Atom(readNumber, tokens, 4))), 5)
  {
    AtomAt(ExpressionRule, readNumber, tokens, 2);
    ThenRead(readNumber, tokens, 2, Atom(readNumber, tokens, 0), Atom(readNumber, tokens, 2), 3);
    ConditionalElse(readNumber, tokens);
  }

  lemma {:induction false} ConditionalElse(readNumber: NumberReader, tokens: seq<Token>)
    requires HasKinds(tokens, [True, QuestionMark, TokenType.Number, Colon, TokenType.Number, Eof])
    requires NumbersParse(readNumber, tokens)
    ensures TernaryElse(readNumber, tokens, 3, Atom(readNumber, tokens, 0), Atom(readNumber, tokens, 2))
      == Outcome(Ok(Expr.Ternary(Atom(readNumber, tokens, 0), Atom(readNumber, tokens, 2), Atom(readNumber, tokens, 4))), 5)
  {
    AtomAt(ExpressionRule, readNumber, tokens, 4);
    ElseStep(readNumber, tokens, 3, 4, Atom(readNumber, tokens, 0), Atom(readNumber, tokens, 2), ParseAt(ExpressionRule, readNumber, tokens, 4));
  }

  /** `true ? 1` without the `:` fails at the token where the `:` was
      expected, here the `Eof`. */
  lemma {:induction false} MissingColon(readNumber: NumberReader, tokens: seq<Token>)
    requires HasKinds(tokens, [True, QuestionMark, TokenType.Number, Eof]) && NumbersParse(readNumber, tokens)
    ensures ParseAt(ExpressionRule, readNumber, tokens, 0) == Outcome(Err(ParseError(tokens[3], ExpectColon)), 3)
  {
    MissingColonAt(readNumber, tokens);
    Settle(ExpressionRule, TernaryRule, readNumber, tokens, 0);
  }

  lemma {:induction false} MissingColonAt(readNumber: NumberReader, tokens: seq<Token>)
    requires HasKinds(tokens, [True, QuestionMark, TokenType.Number, Eof]) && NumbersParse(readNumber, tokens)
    ensures ParseAt(TernaryRule, readNumber, tokens, 0) == Outcome(Err(ParseError(tokens[3], ExpectColon)), 3)
  {
    var condition := Atom(readNumber, tokens, 0);
    AtomAt(EqualityRule, readNumber, tokens, 0);
    TernaryFirst(readNumber, tokens, 0, condition, 1);
    TernaryStep(readNumber, tokens, 1, 2, condition);
    MissingColonBranches(readNumber, tokens);
  }

  lemma {:induction false} MissingColonBranches(readNumber: NumberReader, tokens: seq<Token>)
    requires HasKinds(tokens, [True, QuestionMark, TokenType.Number, Eof]) && NumbersParse(readNumber, tokens)
    ensures TernaryBranches(readNumber, tokens, 2, Atom(readNumber, tokens, 0))
      == Outcome(Err(ParseError(tokens[3], ExpectColon)), 3)
  {
    AtomAt(ExpressionRule, readNumber, tokens, 2);
    ThenRead(readNumber, tokens, 2, Atom(readNumber, tokens, 0), Atom(readNumber, tokens, 2), 3);
  }

  /** An identifier does not start an expression in this grammar. */
  lemma {:induction false} IdentifierRejected(readNumber: NumberReader, tokens: seq<Token>)
    requires HasKinds(tokens, [TokenType.Identifier, Eof]) && NumbersParse(readNumber, tokens)
    ensures ParseAt(ExpressionRule, readNumber, tokens, 0) == Outcome(Err(ParseError(tokens[0], ExpectExpression)), 0)
  {
    NoExpressionAt(ExpressionRule, readNumber, tokens, 0);
  }

  /** `(1` without the `)` fails at the `Eof`. */
  lemma {:induction false} UnclosedGroup(readNumber: NumberReader, tokens: seq<Token>)
    requires HasKinds(tokens, [LeftParen, TokenType.Number, Eof]) && NumbersParse(readNumber, tokens)
    ensures ParseAt(ExpressionRule, readNumber, tokens, 0) == Outcome(Err(ParseError(tokens[2], ExpectRightParen)), 2)
  {
    UnclosedGroupAt(readNumber, tokens);
    Settle(ExpressionRule, UnaryRule, readNumber, tokens, 0);
  }

  lemma {:induction false} UnclosedGroupAt(readNumber: NumberReader, tokens: seq<Token>)
    requires HasKinds(tokens, [LeftParen, TokenType.Number, Eof]) && NumbersParse(readNumber, tokens)
    ensures ParseAt(UnaryRule, readNumber, tokens, 0) == Outcome(Err(ParseError(tokens[2], ExpectRightParen)), 2)
  {
    AtomAt(ExpressionRule, readNumber, tokens, 1);
    GroupingStep(readNumber, tokens, 0, 1);
    NoPrefix(readNumber, tokens, 0);
  }
}
