/** The recursive-descent parser: turns a token list ending in `Eof` into an
    expression tree, one precedence level per method.

    `ParseAt` specifies what each grammar rule produces from a cursor
    position and where it leaves the cursor; the `Parser` class is the
    imperative parser with its mutable cursor `current`, and each of its
    rule methods is proved to agree with `ParseAt`. */
module Parsing {
  import opened Wrappers
  import opened Tokens
  import opened Syntax

  datatype ParseError = ParseError(token: Token, message: string)

  const ExpectExpression := "Expect expression."
  const ExpectRightParen := "Expect ')' after expression."
  const ExpectColon := "Expected ':' after then branch"

  // ---------------------------------------------------------------------
  // What the parser demands of its token list
  // ---------------------------------------------------------------------

  predicate EndsWithEof(tokens: seq<Token>)
  {
    |tokens| > 0 && tokens[|tokens| - 1].tokenType == Eof
  }

  /** How a Number lexeme is read as a value (`str::parse::<f64>` in the
      source). The parser is modelled for any reader; `Numbers.ParseFloat`
      is the one that agrees with the scanner. */
  type NumberReader = string -> Option<real>

  /** Every Number token's lexeme reads as a value; the source unwraps the
      reading and would panic otherwise. */
  predicate NumbersParse(readNumber: NumberReader, tokens: seq<Token>)
  {
    forall k :: 0 <= k < |tokens| && tokens[k].tokenType == TokenType.Number ==>
      readNumber(tokens[k].lexeme).Some?
  }

  /** What parsing from `pos` needs: the list ends with `Eof`, the cursor
      is in bounds, and Number lexemes parse. */
  predicate Ready(readNumber: NumberReader, tokens: seq<Token>, pos: nat)
  {
    EndsWithEof(tokens) && pos < |tokens| && NumbersParse(readNumber, tokens)
  }

  predicate AtEnd(tokens: seq<Token>, pos: nat)
    requires pos < |tokens|
  {
    tokens[pos].tokenType == Eof
  }

  /** `next_matches`: the token at the cursor has one of the given kinds,
      and the cursor is not at the end. */
  predicate MatchesAny(tokens: seq<Token>, pos: nat, tokenTypes: seq<TokenType>)
    requires pos < |tokens|
  {
    !AtEnd(tokens, pos) && tokens[pos].tokenType in tokenTypes
  }

  // ---------------------------------------------------------------------
  // The grammar
  // ---------------------------------------------------------------------

  /** The grammar rules, from the loosest to the tightest. */
  datatype Rule =
    | ExpressionRule | CommaRule | TernaryRule | EqualityRule | ComparisonRule
    | TermRule | FactorRule | UnaryRule | PrimaryRule

  function Rank(rule: Rule): nat
  {
    match rule
    case ExpressionRule => 8
    case CommaRule => 7
    case TernaryRule => 6
    case EqualityRule => 5
    case ComparisonRule => 4
    case TermRule => 3
    case FactorRule => 2
    case UnaryRule => 1
    case PrimaryRule => 0
  }

  /** The rules built by `create_left_associative_binary_expression`. */
  predicate IsBinaryRule(rule: Rule)
  {
    rule in {CommaRule, EqualityRule, ComparisonRule, TermRule, FactorRule}
  }

  /** The operator kinds a binary rule folds over. */
  function Operators(rule: Rule): seq<TokenType>
    requires IsBinaryRule(rule)
  {
    match rule
    case CommaRule => [Comma]
    case EqualityRule => [BangEqual, EqualEqual]
    case ComparisonRule => [Greater, GreaterEqual, Less, LessEqual]
    case TermRule => [Minus, Plus]
    case FactorRule => [Slash, Star]
  }

  /** The rule a binary rule reads its operands with. */
  function Operand(rule: Rule): (next: Rule)
    requires IsBinaryRule(rule)
    ensures Rank(next) < Rank(rule)
    ensures MinStrength(next) > MinStrength(rule)
  {
    match rule
    case CommaRule => TernaryRule
    case EqualityRule => ComparisonRule
    case ComparisonRule => TermRule
    case TermRule => FactorRule
    case FactorRule => UnaryRule
  }

  // ---------------------------------------------------------------------
  // Precedence as a property of trees
  // ---------------------------------------------------------------------

  /** How tightly a binary operator binds; 0 for kinds that are not binary
      operators. */
  function OperatorStrength(t: TokenType): nat
  {
    if t == Comma then 1
    else if t in {BangEqual, EqualEqual} then 3
    else if t in {Greater, GreaterEqual, Less, LessEqual} then 4
    else if t in {Minus, Plus} then 5
    else if t in {Slash, Star} then 6
    else 0
  }

  /** How tightly a tree's root binds: comma 1, ternary 2, equality 3,
      comparison 4, term 5, factor 6, unary 7, literals and groupings 8. */
  function Strength(e: Expr): nat
  {
    match e
    case Binary(_, operator, _) => OperatorStrength(operator.tokenType)
    case Ternary(_, _, _) => 2
    case Unary(_, _) => 7
    case Grouping(_) => 8
    case Literal(_) => 8
  }

  /** The least strength a rule's result can have. */
  function MinStrength(rule: Rule): nat
  {
    match rule
    case ExpressionRule => 1
    case CommaRule => 1
    case TernaryRule => 2
    case EqualityRule => 3
    case ComparisonRule => 4
    case TermRule => 5
    case FactorRule => 6
    case UnaryRule => 7
    case PrimaryRule => 8
  }
  /** Each operator a binary rule folds binds exactly as tightly as the
      rule. */
  lemma OperatorsBind(rule: Rule, t: TokenType)
    requires IsBinaryRule(rule) && t in Operators(rule)
    ensures OperatorStrength(t) == MinStrength(rule)
  {
  }


  /** The shape precedence and left associativity give a tree: a binary
      node's left operand binds at least as tightly as the node and its right
      operand strictly more tightly, a prefix operator applies to a unary
      or atomic operand, a ternary's condition is an equality or tighter, and
      no literal is an identifier. */
  predicate WellNested(e: Expr)
  {
    match e
    case Binary(left, operator, right) =>
      && OperatorStrength(operator.tokenType) > 0
      && WellNested(left) && WellNested(right)
      && Strength(left) >= Strength(e) && Strength(right) > Strength(e)
    case Unary(operator, right) =>
      operator.tokenType in {Bang, Minus} && WellNested(right) && Strength(right) >= 7
    case Ternary(condition, thenBranch, elseBranch) =>
      WellNested(condition) && WellNested(thenBranch) && WellNested(elseBranch) && Strength(condition) >= 3
    case Grouping(inner) => WellNested(inner)
    case Literal(value) => !(value.Some? && value.value.Identifier?)
  }

  // ---------------------------------------------------------------------
  // What each rule produces
  // ---------------------------------------------------------------------

  /** A rule's result and where it leaves the cursor, on success and on
      failure alike. */
  datatype Outcome = Outcome(result: Result<Expr, ParseError>, pos: nat)

  /** A success is a well-nested tree at least as tight as the rule. */
  predicate Shaped(rule: Rule, o: Outcome)
  {
    o.result.Ok? ==> WellNested(o.result.value) && Strength(o.result.value) >= MinStrength(rule)
  }

  /** A failure is one of the three errors and names the token under the
      cursor where parsing stopped. */
  predicate Reported(tokens: seq<Token>, o: Outcome)
    requires o.pos < |tokens|
  {
    o.result.Err? ==>
      && o.result.error.token == tokens[o.pos]
      && o.result.error.message in {ExpectExpression, ExpectRightParen, ExpectColon}
  }

  /** Rule `rule` applied at cursor `pos`. The cursor only moves forward,
      never past the `Eof`, and moves at least one token on success. */
  function ParseAt(rule: Rule, readNumber: NumberReader, tokens: seq<Token>, pos: nat): (o: Outcome)
    requires Ready(readNumber, tokens, pos)
    ensures pos <= o.pos < |tokens|
    ensures o.result.Ok? ==> pos < o.pos
    decreases |tokens| - pos, 4 * Rank(rule) + 3
  {
    match rule
    case ExpressionRule => ParseAt(CommaRule, readNumber, tokens, pos)
    case TernaryRule => TernaryAt(readNumber, tokens, pos)
    case UnaryRule => UnaryAt(readNumber, tokens, pos)
    case PrimaryRule => PrimaryAt(readNumber, tokens, pos)
    case _ => BinaryAt(Operators(rule), Operand(rule), readNumber, tokens, pos)
  }

  /** `create_left_associative_binary_expression`: an operand read with
      `next`, then the chain of `tokenTypes` operators and operands folded to
      the left. */
  function BinaryAt(tokenTypes: seq<TokenType>, next: Rule, readNumber: NumberReader, tokens: seq<Token>, pos: nat): (o: Outcome)
    requires Ready(readNumber, tokens, pos)
    ensures pos <= o.pos < |tokens|
    ensures o.result.Ok? ==> pos < o.pos
    decreases |tokens| - pos, 4 * Rank(next) + 5
  {
    var first := ParseAt(next, readNumber, tokens, pos);
    if first.result.Err? then first
    else ChainRest(tokenTypes, next, readNumber, tokens, first.pos, first.result.value)
  }

  /** The loop of `create_left_associative_binary_expression`: while the
      cursor is on one of the operators, consume it, read the right operand
      and make the tree so far the left operand of a new node. */
  function ChainRest(tokenTypes: seq<TokenType>, next: Rule, readNumber: NumberReader, tokens: seq<Token>, pos: nat, left: Expr): (o: Outcome)
    requires Ready(readNumber, tokens, pos)
    ensures pos <= o.pos < |tokens|
    decreases |tokens| - pos, 4 * Rank(next) + 4
  {
    if MatchesAny(tokens, pos, tokenTypes) then
      var right := ParseAt(next, readNumber, tokens, pos + 1);
      if right.result.Err? then right
      else ChainRest(tokenTypes, next, readNumber, tokens, right.pos, Binary(left, tokens[pos], right.result.value))
    else
      Outcome(Ok(left), pos)
  }

  /** One turn of the chain loop: an operator was matched and the right
      operand read. */
  lemma ChainStep(tokenTypes: seq<TokenType>, next: Rule, readNumber: NumberReader, tokens: seq<Token>, pos: nat, left: Expr, operand: nat, right: Outcome)
    requires Ready(readNumber, tokens, pos) && MatchesAny(tokens, pos, tokenTypes) && operand == pos + 1
    requires right == ParseAt(next, readNumber, tokens, operand)
    ensures right.result.Err? ==> ChainRest(tokenTypes, next, readNumber, tokens, pos, left) == right
    ensures right.result.Ok? ==>
      ChainRest(tokenTypes, next, readNumber, tokens, pos, left)
        == ChainRest(tokenTypes, next, readNumber, tokens, right.pos, Binary(left, tokens[pos], right.result.value))
  {
  }

  /** `ternary`: an equality, optionally followed by `? expression :
      expression`. */
  function TernaryAt(readNumber: NumberReader, tokens: seq<Token>, pos: nat): (o: Outcome)
    requires Ready(readNumber, tokens, pos)
    ensures pos <= o.pos < |tokens|
    ensures o.result.Ok? ==> pos < o.pos
    decreases |tokens| - pos, 4 * Rank(TernaryRule) + 2
  {
    var condition := ParseAt(EqualityRule, readNumber, tokens, pos);
    if condition.result.Err? then condition
    else TernaryRest(readNumber, tokens, condition.pos, condition.result.value)
  }

  /** The optional `? expression : expression` after a ternary's condition. */
  function TernaryRest(readNumber: NumberReader, tokens: seq<Token>, pos: nat, condition: Expr): (o: Outcome)
    requires Ready(readNumber, tokens, pos)
    ensures pos <= o.pos < |tokens|
    decreases |tokens| - pos, 0
  {
    if MatchesAny(tokens, pos, [QuestionMark]) then TernaryBranches(readNumber, tokens, pos + 1, condition)
    else Outcome(Ok(condition), pos)
  }

  /** After the `?`: the then branch, then the rest. */
  function TernaryBranches(readNumber: NumberReader, tokens: seq<Token>, pos: nat, condition: Expr): (o: Outcome)
    requires Ready(readNumber, tokens, pos)
    ensures pos <= o.pos < |tokens|
    decreases |tokens| - pos, 4 * Rank(ExpressionRule) + 4
  {
    var thenBranch := ParseAt(ExpressionRule, readNumber, tokens, pos);
    if thenBranch.result.Err? then thenBranch
    else TernaryElse(readNumber, tokens, thenBranch.pos, condition, thenBranch.result.value)
  }

  /** After the then branch: the `:` the source demands, then the else
      branch. */
  function TernaryElse(readNumber: NumberReader, tokens: seq<Token>, pos: nat, condition: Expr, thenBranch: Expr): (o: Outcome)
    requires Ready(readNumber, tokens, pos)
    ensures pos <= o.pos < |tokens|
    decreases |tokens| - pos, 0
  {
    if !MatchesAny(tokens, pos, [Colon]) then Outcome(Err(ParseError(tokens[pos], ExpectColon)), pos)
    else
      var elseBranch := ParseAt(ExpressionRule, readNumber, tokens, pos + 1);
      if elseBranch.result.Err? then elseBranch
      else Outcome(Ok(Expr.Ternary(condition, thenBranch, elseBranch.result.value)), elseBranch.pos)
  }

  /** `unary`: prefix `!` and `-` nest to the right over a primary. */
  function UnaryAt(readNumber: NumberReader, tokens: seq<Token>, pos: nat): (o: Outcome)
    requires Ready(readNumber, tokens, pos)
    ensures pos <= o.pos < |tokens|
    ensures o.result.Ok? ==> pos < o.pos
    decreases |tokens| - pos, 4 * Rank(UnaryRule) + 2
  {
    if MatchesAny(tokens, pos, [Bang, Minus]) then
      var right := ParseAt(UnaryRule, readNumber, tokens, pos + 1);
      if right.result.Err? then right
      else Outcome(Ok(Expr.Unary(tokens[pos], right.result.value)), right.pos)
    else
      PrimaryAt(readNumber, tokens, pos)
  }

  /** The kinds `primary` turns into a literal by themselves. */
  predicate IsAtom(kind: TokenType)
  {
    kind in {False, True, Nil, TokenType.Number, TokenType.String}
  }

  /** The literal value of an atom: the Boolean or nil it names, the number
      its lexeme reads as, or the string lexeme itself. */
  function AtomValue(readNumber: NumberReader, token: Token): Option<Tokens.Literal>
    requires IsAtom(token.tokenType)
    requires token.tokenType == TokenType.Number ==> readNumber(token.lexeme).Some?
  {
    if token.tokenType == False then Some(Boolean(false))
    else if token.tokenType == True then Some(Boolean(true))
    else if token.tokenType == Nil then None
    else if token.tokenType == TokenType.Number then Some(Tokens.Literal.Number(readNumber(token.lexeme).value))
    else Some(Tokens.Literal.String(token.lexeme))
  }

  /** `primary`: a literal, or a parenthesised expression. */
  function PrimaryAt(readNumber: NumberReader, tokens: seq<Token>, pos: nat): (o: Outcome)
    requires Ready(readNumber, tokens, pos)
    ensures pos <= o.pos < |tokens|
    ensures o.result.Ok? ==> pos < o.pos
    decreases |tokens| - pos, 0
  {
    var token := tokens[pos];
    var kind := token.tokenType;
    if IsAtom(kind) then Outcome(Ok(Expr.Literal(AtomValue(readNumber, token))), pos + 1)
    else if kind == LeftParen then GroupingAt(readNumber, tokens, pos + 1)
    else Outcome(Err(ParseError(token, ExpectExpression)), pos)
  }

  /** After a `(`: an expression, then the `)` the source demands. */
  function GroupingAt(readNumber: NumberReader, tokens: seq<Token>, pos: nat): (o: Outcome)
    requires Ready(readNumber, tokens, pos)
    ensures pos <= o.pos < |tokens|
    ensures o.result.Ok? ==> pos < o.pos
    decreases |tokens| - pos, 4 * Rank(ExpressionRule) + 4
  {
    var inner := ParseAt(ExpressionRule, readNumber, tokens, pos);
    if inner.result.Err? then inner
    else if !MatchesAny(tokens, inner.pos, [RightParen]) then
      Outcome(Err(ParseError(tokens[inner.pos], ExpectRightParen)), inner.pos)
    else
      Outcome(Ok(Grouping(inner.result.value)), inner.pos + 1)
  }

  /** A prefix operator was matched and its operand read. */
  lemma UnaryStep(readNumber: NumberReader, tokens: seq<Token>, pos: nat, operand: nat, right: Outcome)
    requires Ready(readNumber, tokens, pos) && MatchesAny(tokens, pos, [Bang, Minus]) && operand == pos + 1
    requires right == UnaryAt(readNumber, tokens, operand)
    ensures right.result.Err? ==> UnaryAt(readNumber, tokens, pos) == right
    ensures right.result.Ok? ==>
      UnaryAt(readNumber, tokens, pos) == Outcome(Ok(Expr.Unary(tokens[pos], right.result.value)), right.pos)
  {
  }

  /** After a `?` the rest of a ternary starts one token on. */
  lemma TernaryStep(readNumber: NumberReader, tokens: seq<Token>, pos: nat, operand: nat, condition: Expr)
    requires Ready(readNumber, tokens, pos) && MatchesAny(tokens, pos, [QuestionMark]) && operand == pos + 1
    ensures TernaryRest(readNumber, tokens, pos, condition) == TernaryBranches(readNumber, tokens, operand, condition)
  {
  }

  /** The `:` was consumed and the else branch read. */
  lemma ElseStep(readNumber: NumberReader, tokens: seq<Token>, pos: nat, operand: nat, condition: Expr, thenBranch: Expr, elseBranch: Outcome)
    requires Ready(readNumber, tokens, pos) && MatchesAny(tokens, pos, [Colon]) && operand == pos + 1
    requires elseBranch == ParseAt(ExpressionRule, readNumber, tokens, operand)
    ensures elseBranch.result.Err? ==> TernaryElse(readNumber, tokens, pos, condition, thenBranch) == elseBranch
    ensures elseBranch.result.Ok? ==>
      TernaryElse(readNumber, tokens, pos, condition, thenBranch)
        == Outcome(Ok(Expr.Ternary(condition, thenBranch, elseBranch.result.value)), elseBranch.pos)
  {
  }

  /** After a `(` a grouping starts one token on. */
  lemma GroupingStep(readNumber: NumberReader, tokens: seq<Token>, pos: nat, operand: nat)
    requires Ready(readNumber, tokens, pos) && tokens[pos].tokenType == LeftParen && operand == pos + 1
    ensures PrimaryAt(readNumber, tokens, pos) == GroupingAt(readNumber, tokens, operand)
  {
  }

  // ---------------------------------------------------------------------
  // What precedence and associativity make of the tree
  // ---------------------------------------------------------------------

  /** Every tree a rule builds is well nested and at least as tight as the
      rule. */
  lemma {:induction false} ParseAtShape(rule: Rule, readNumber: NumberReader, tokens: seq<Token>, pos: nat)
    requires Ready(readNumber, tokens, pos)
    ensures Shaped(rule, ParseAt(rule, readNumber, tokens, pos))
    decreases |tokens| - pos, 4 * Rank(rule) + 3
  {
    match rule
    case ExpressionRule => ParseAtShape(CommaRule, readNumber, tokens, pos);
    case TernaryRule => TernaryAtShape(readNumber, tokens, pos);
    case UnaryRule => UnaryAtShape(readNumber, tokens, pos);
    case PrimaryRule => PrimaryAtShape(readNumber, tokens, pos);
    case _ => BinaryAtShape(rule, readNumber, tokens, pos);
  }

  lemma {:induction false} BinaryAtShape(rule: Rule, readNumber: NumberReader, tokens: seq<Token>, pos: nat)
    requires IsBinaryRule(rule) && Ready(readNumber, tokens, pos)
    ensures Shaped(rule, BinaryAt(Operators(rule), Operand(rule), readNumber, tokens, pos))
    decreases |tokens| - pos, 4 * Rank(rule) + 2
  {
    ParseAtShape(Operand(rule), readNumber, tokens, pos);
    var first := ParseAt(Operand(rule), readNumber, tokens, pos);
    if first.result.Ok? {
      ChainRestShape(rule, readNumber, tokens, first.pos, first.result.value);
    }
  }

  /** Folding a chain keeps the tree well nested, given a well-nested left
      operand at least as tight as the chain: each new node's operator binds
      exactly as tightly as the chain, and its right operand more tightly. */
  lemma {:induction false} ChainRestShape(rule: Rule, readNumber: NumberReader, tokens: seq<Token>, pos: nat, left: Expr)
    requires IsBinaryRule(rule) && Ready(readNumber, tokens, pos)
    requires WellNested(left) && Strength(left) >= MinStrength(rule)
    ensures Shaped(rule, ChainRest(Operators(rule), Operand(rule), readNumber, tokens, pos, left))
    decreases |tokens| - pos, 4 * Rank(rule) + 1
  {
    if MatchesAny(tokens, pos, Operators(rule)) {
      ParseAtShape(Operand(rule), readNumber, tokens, pos + 1);
      var right := ParseAt(Operand(rule), readNumber, tokens, pos + 1);
      if right.result.Ok? {
        OperatorsBind(rule, tokens[pos].tokenType);
        ChainRestShape(rule, readNumber, tokens, right.pos, Binary(left, tokens[pos], right.result.value));
      }
    }
  }

  lemma {:induction false} TernaryAtShape(readNumber: NumberReader, tokens: seq<Token>, pos: nat)
    requires Ready(readNumber, tokens, pos)
    ensures Shaped(TernaryRule, TernaryAt(readNumber, tokens, pos))
    decreases |tokens| - pos, 4 * Rank(TernaryRule) + 2
  {
    ParseAtShape(EqualityRule, readNumber, tokens, pos);
    var condition := ParseAt(EqualityRule, readNumber, tokens, pos);
    if condition.result.Ok? {
      TernaryRestShape(readNumber, tokens, condition.pos, condition.result.value);
    }
  }

  lemma {:induction false} TernaryRestShape(readNumber: NumberReader, tokens: seq<Token>, pos: nat, condition: Expr)
    requires Ready(readNumber, tokens, pos)
    requires WellNested(condition) && Strength(condition) >= MinStrength(EqualityRule)
    ensures Shaped(TernaryRule, TernaryRest(readNumber, tokens, pos, condition))
    decreases |tokens| - pos, 0
  {
    if MatchesAny(tokens, pos, [QuestionMark]) {
      TernaryBranchesShape(readNumber, tokens, pos + 1, condition);
    }
  }

  lemma {:induction false} TernaryBranchesShape(readNumber: NumberReader, tokens: seq<Token>, pos: nat, condition: Expr)
    requires Ready(readNumber, tokens, pos)
    requires WellNested(condition) && Strength(condition) >= MinStrength(EqualityRule)
    ensures Shaped(TernaryRule, TernaryBranches(readNumber, tokens, pos, condition))
    decreases |tokens| - pos, 4 * Rank(ExpressionRule) + 4
  {
    ParseAtShape(ExpressionRule, readNumber, tokens, pos);
    var thenBranch := ParseAt(ExpressionRule, readNumber, tokens, pos);
    if thenBranch.result.Ok? {
      TernaryElseShape(readNumber, tokens, thenBranch.pos, condition, thenBranch.result.value);
    }
  }

  lemma {:induction false} TernaryElseShape(readNumber: NumberReader, tokens: seq<Token>, pos: nat, condition: Expr, thenBranch: Expr)
    requires Ready(readNumber, tokens, pos)
    requires WellNested(condition) && Strength(condition) >= MinStrength(EqualityRule) && WellNested(thenBranch)
    ensures Shaped(TernaryRule, TernaryElse(readNumber, tokens, pos, condition, thenBranch))
    decreases |tokens| - pos, 0
  {
    if MatchesAny(tokens, pos, [Colon]) {
      ParseAtShape(ExpressionRule, readNumber, tokens, pos + 1);
    }
  }

  lemma {:induction false} UnaryAtShape(readNumber: NumberReader, tokens: seq<Token>, pos: nat)
    requires Ready(readNumber, tokens, pos)
    ensures Shaped(UnaryRule, UnaryAt(readNumber, tokens, pos))
    decreases |tokens| - pos, 4 * Rank(UnaryRule) + 2
  {
    if MatchesAny(tokens, pos, [Bang, Minus]) {
      ParseAtShape(UnaryRule, readNumber, tokens, pos + 1);
    } else {
      PrimaryAtShape(readNumber, tokens, pos);
    }
  }

  lemma {:induction false} PrimaryAtShape(readNumber: NumberReader, tokens: seq<Token>, pos: nat)
    requires Ready(readNumber, tokens, pos)
    ensures Shaped(PrimaryRule, PrimaryAt(readNumber, tokens, pos))
    decreases |tokens| - pos, 0
  {
    if tokens[pos].tokenType == LeftParen {
      GroupingAtShape(readNumber, tokens, pos + 1);
    }
  }

  lemma {:induction false} GroupingAtShape(readNumber: NumberReader, tokens: seq<Token>, pos: nat)
    requires Ready(readNumber, tokens, pos)
    ensures Shaped(PrimaryRule, GroupingAt(readNumber, tokens, pos))
    decreases |tokens| - pos, 4 * Rank(ExpressionRule) + 4
  {
    ParseAtShape(ExpressionRule, readNumber, tokens, pos);
  }

  // ---------------------------------------------------------------------
  // What errors report
  // ---------------------------------------------------------------------

  /** Every error a rule returns is one of the three messages and carries
      the token under the cursor where parsing stopped. */
  lemma {:induction false} ParseAtReported(rule: Rule, readNumber: NumberReader, tokens: seq<Token>, pos: nat)
    requires Ready(readNumber, tokens, pos)
    ensures Reported(tokens, ParseAt(rule, readNumber, tokens, pos))
    decreases |tokens| - pos, 4 * Rank(rule) + 3
  {
    match rule
    case ExpressionRule => ParseAtReported(CommaRule, readNumber, tokens, pos);
    case TernaryRule => TernaryAtReported(readNumber, tokens, pos);
    case UnaryRule => UnaryAtReported(readNumber, tokens, pos);
    case PrimaryRule => PrimaryAtReported(readNumber, tokens, pos);
    case _ => BinaryAtReported(rule, readNumber, tokens, pos);
  }

  lemma {:induction false} BinaryAtReported(rule: Rule, readNumber: NumberReader, tokens: seq<Token>, pos: nat)
    requires IsBinaryRule(rule) && Ready(readNumber, tokens, pos)
    ensures Reported(tokens, BinaryAt(Operators(rule), Operand(rule), readNumber, tokens, pos))
    decreases |tokens| - pos, 4 * Rank(rule) + 2
  {
    ParseAtReported(Operand(rule), readNumber, tokens, pos);
    var first := ParseAt(Operand(rule), readNumber, tokens, pos);
    if first.result.Ok? {
      ChainRestReported(rule, readNumber, tokens, first.pos, first.result.value);
    }
  }

  lemma {:induction false} ChainRestReported(rule: Rule, readNumber: NumberReader, tokens: seq<Token>, pos: nat, left: Expr)
    requires IsBinaryRule(rule) && Ready(readNumber, tokens, pos)
    ensures Reported(tokens, ChainRest(Operators(rule), Operand(rule), readNumber, tokens, pos, left))
    decreases |tokens| - pos, 4 * Rank(rule) + 1
  {
    if MatchesAny(tokens, pos, Operators(rule)) {
      ParseAtReported(Operand(rule), readNumber, tokens, pos + 1);
      var right := ParseAt(Operand(rule), readNumber, tokens, pos + 1);
      if right.result.Ok? {
        ChainRestReported(rule, readNumber, tokens, right.pos, Binary(left, tokens[pos], right.result.value));
      }
    }
  }

  lemma {:induction false} TernaryAtReported(readNumber: NumberReader, tokens: seq<Token>, pos: nat)
    requires Ready(readNumber, tokens, pos)
    ensures Reported(tokens, TernaryAt(readNumber, tokens, pos))
    decreases |tokens| - pos, 4 * Rank(TernaryRule) + 2
  {
    ParseAtReported(EqualityRule, readNumber, tokens, pos);
    var condition := ParseAt(EqualityRule, readNumber, tokens, pos);
    if condition.result.Ok? {
      TernaryRestReported(readNumber, tokens, condition.pos, condition.result.value);
    }
  }

  lemma {:induction false} TernaryRestReported(readNumber: NumberReader, tokens: seq<Token>, pos: nat, condition: Expr)
    requires Ready(readNumber, tokens, pos)
    ensures Reported(tokens, TernaryRest(readNumber, tokens, pos, condition))
    decreases |tokens| - pos, 0
  {
    if MatchesAny(tokens, pos, [QuestionMark]) {
      TernaryBranchesReported(readNumber, tokens, pos + 1, condition);
    }
  }

  lemma {:induction false} TernaryBranchesReported(readNumber: NumberReader, tokens: seq<Token>, pos: nat, condition: Expr)
    requires Ready(readNumber, tokens, pos)
    ensures Reported(tokens, TernaryBranches(readNumber, tokens, pos, condition))
    decreases |tokens| - pos, 4 * Rank(ExpressionRule) + 4
  {
    ParseAtReported(ExpressionRule, readNumber, tokens, pos);
    var thenBranch := ParseAt(ExpressionRule, readNumber, tokens, pos);
    if thenBranch.result.Ok? {
      TernaryElseReported(readNumber, tokens, thenBranch.pos, condition, thenBranch.result.value);
    }
  }

  lemma {:induction false} TernaryElseReported(readNumber: NumberReader, tokens: seq<Token>, pos: nat, condition: Expr, thenBranch: Expr)
    requires Ready(readNumber, tokens, pos)
    ensures Reported(tokens, TernaryElse(readNumber, tokens, pos, condition, thenBranch))
    decreases |tokens| - pos, 0
  {
    if MatchesAny(tokens, pos, [Colon]) {
      ParseAtReported(ExpressionRule, readNumber, tokens, pos + 1);
    }
  }

  lemma {:induction false} UnaryAtReported(readNumber: NumberReader, tokens: seq<Token>, pos: nat)
    requires Ready(readNumber, tokens, pos)
    ensures Reported(tokens, UnaryAt(readNumber, tokens, pos))
    decreases |tokens| - pos, 4 * Rank(UnaryRule) + 2
  {
    if MatchesAny(tokens, pos, [Bang, Minus]) {
      ParseAtReported(UnaryRule, readNumber, tokens, pos + 1);
    } else {
      PrimaryAtReported(readNumber, tokens, pos);
    }
  }

  lemma {:induction false} PrimaryAtReported(readNumber: NumberReader, tokens: seq<Token>, pos: nat)
    requires Ready(readNumber, tokens, pos)
    ensures Reported(tokens, PrimaryAt(readNumber, tokens, pos))
    decreases |tokens| - pos, 0
  {
    if tokens[pos].tokenType == LeftParen {
      GroupingAtReported(readNumber, tokens, pos + 1);
    }
  }

  lemma {:induction false} GroupingAtReported(readNumber: NumberReader, tokens: seq<Token>, pos: nat)
    requires Ready(readNumber, tokens, pos)
    ensures Reported(tokens, GroupingAt(readNumber, tokens, pos))
    decreases |tokens| - pos, 4 * Rank(ExpressionRule) + 4
  {
    ParseAtReported(ExpressionRule, readNumber, tokens, pos);
  }

  /** Where `syncronise` stops looking: at the end, right after a semicolon,
      or before a token that starts a statement. */
  predicate SyncStop(tokens: seq<Token>, pos: nat)
    requires 0 < pos < |tokens|
  {
    || AtEnd(tokens, pos)
    || tokens[pos - 1].tokenType == Semicolon
    || tokens[pos].tokenType in {Class, Fun, Var, For, If, While, Print, Return}
  }

  /** The first stopping point at or after `pos`. */
  function SyncFrom(tokens: seq<Token>, pos: nat): (q: nat)
    requires EndsWithEof(tokens) && 0 < pos < |tokens|
    ensures pos <= q < |tokens| && SyncStop(tokens, q)
    ensures forall r :: pos <= r < q ==> !SyncStop(tokens, r)
    decreases |tokens| - pos
  {
    if SyncStop(tokens, pos) then pos else SyncFrom(tokens, pos + 1)
  }

  /** The cursor after `advance`, which does not move at the end. */
  function Advanced(tokens: seq<Token>, pos: nat): nat
    requires pos < |tokens|
  {
    if AtEnd(tokens, pos) then pos else pos + 1
  }

  // ---------------------------------------------------------------------
  // The parser
  // ---------------------------------------------------------------------

  /** The parser over a token list, with its cursor. */
  class Parser {
    const tokens: seq<Token>
    const readNumber: NumberReader
    var current: nat

    constructor (tokens: seq<Token>, readNumber: NumberReader)
      ensures this.tokens == tokens && this.readNumber == readNumber && current == 0
    {
      this.tokens := tokens;
      this.readNumber := readNumber;
      current := 0;
    }

    /** The token list ends with `Eof`, the cursor is in bounds, and every
        Number lexeme reads as a value. */
    predicate Valid()
      reads this
    {
      Ready(readNumber, tokens, current)
    }

    /** `parse`: one expression from the cursor; tokens after it are left
        where they are. */
    method Parse() returns (r: Result<Expr, ParseError>)
      requires Valid()
      modifies this
      ensures Valid()
      ensures Outcome(r, current) == ParseAt(ExpressionRule, readNumber, tokens, old(current))
    {
      r := Expression();
    }

    /** The rule method named by `rule`; the source passes these methods
        around as function values. */
    method Apply(rule: Rule) returns (r: Result<Expr, ParseError>)
      requires Valid()
      modifies this
      ensures Valid()
      ensures Outcome(r, current) == ParseAt(rule, readNumber, tokens, old(current))
      decreases |tokens| - current, 4 * Rank(rule) + 3
    {
      match rule
      case ExpressionRule => r := Expression();
      case CommaRule => r := Comma();
      case TernaryRule => r := Ternary();
      case EqualityRule => r := Equality();
      case ComparisonRule => r := Comparison();
      case TermRule => r := Term();
      case FactorRule => r := Factor();
      case UnaryRule => r := Unary();
      case PrimaryRule => r := Primary();
    }

    /** Reads an operand with `next`, then folds further operators of
        `tokenTypes` and operands to the left. `level` names the rule this
        chain implements. */
    method CreateLeftAssociativeBinaryExpression(tokenTypes: seq<TokenType>, next: Rule)
      returns (r: Result<Expr, ParseError>)
      requires Valid()
      modifies this
      ensures Valid()
      ensures Outcome(r, current) == BinaryAt(tokenTypes, next, readNumber, tokens, old(current))
      decreases |tokens| - current, 4 * Rank(next) + 5
    {
      var first := Apply(next);
      if first.Err? {
        return first;
      }
      r := FoldOperators(tokenTypes, next, first.value);
    }

    method FoldOperators(tokenTypes: seq<TokenType>, next: Rule, left: Expr)
      returns (r: Result<Expr, ParseError>)
      requires Valid()
      modifies this
      ensures Valid()
      ensures Outcome(r, current) == ChainRest(tokenTypes, next, readNumber, tokens, old(current), left)
      decreases |tokens| - current, 4 * Rank(next) + 4
    {
      var expr := left;
      while true
        invariant Valid() && old(current) <= current
        invariant ChainRest(tokenTypes, next, readNumber, tokens, current, expr) == ChainRest(tokenTypes, next, readNumber, tokens, old(current), left)
        decreases |tokens| - current
      {
        ghost var before := current;
        var matched := NextMatches(tokenTypes);
        if !matched {
          break;
        }
        var operator := GetPrevious();
        ghost var operand := current;
        var right := Apply(next);
        ChainStep(tokenTypes, next, readNumber, tokens, before, expr, operand, Outcome(right, current));
        if right.Err? {
          return right;
        }
        expr := Binary(expr, operator, right.value);
      }
      r := Ok(expr);
    }

    method Expression() returns (r: Result<Expr, ParseError>)
      requires Valid()
      modifies this
      ensures Valid()
      ensures Outcome(r, current) == ParseAt(ExpressionRule, readNumber, tokens, old(current))
      decreases |tokens| - current, 4 * Rank(ExpressionRule) + 2
    {
      r := Comma();
    }

    method Comma() returns (r: Result<Expr, ParseError>)
      requires Valid()
      modifies this
      ensures Valid()
      ensures Outcome(r, current) == ParseAt(CommaRule, readNumber, tokens, old(current))
      decreases |tokens| - current, 4 * Rank(CommaRule) + 2
    {
      r := CreateLeftAssociativeBinaryExpression([TokenType.Comma], TernaryRule);
    }

    method Ternary() returns (r: Result<Expr, ParseError>)
      requires Valid()
      modifies this
      ensures Valid()
      ensures Outcome(r, current) == TernaryAt(readNumber, tokens, old(current))
      decreases |tokens| - current, 4 * Rank(TernaryRule) + 2
    {
      var condition := Equality();
      if condition.Err? {
        return condition;
      }
      var expr := condition.value;
      ghost var afterCondition := current;
      var question := NextMatches([QuestionMark]);
      if question {
        ghost var thenStart := current;
        TernaryStep(readNumber, tokens, afterCondition, thenStart, expr);
        var thenBranch := Expression();
        if thenBranch.Err? {
          return thenBranch;
        }
        ghost var afterThen := current;
        var colon := Consume(Colon, ExpectColon);
        if colon.Err? {
          return Err(colon.error);
        }
        ghost var elseStart := current;
        var elseBranch := Expression();
        ElseStep(readNumber, tokens, afterThen, elseStart, expr, thenBranch.value, Outcome(elseBranch, current));
        if elseBranch.Err? {
          return elseBranch;
        }
        expr := Expr.Ternary(expr, thenBranch.value, elseBranch.value);
      }
      r := Ok(expr);
    }

    method Equality() returns (r: Result<Expr, ParseError>)
      requires Valid()
      modifies this
      ensures Valid()
      ensures Outcome(r, current) == ParseAt(EqualityRule, readNumber, tokens, old(current))
      decreases |tokens| - current, 4 * Rank(EqualityRule) + 2
    {
      r := CreateLeftAssociativeBinaryExpression([BangEqual, EqualEqual], ComparisonRule);
    }

    method Comparison() returns (r: Result<Expr, ParseError>)
      requires Valid()
      modifies this
      ensures Valid()
      ensures Outcome(r, current) == ParseAt(ComparisonRule, readNumber, tokens, old(current))
      decreases |tokens| - current, 4 * Rank(ComparisonRule) + 2
    {
      r := CreateLeftAssociativeBinaryExpression([Greater, GreaterEqual, Less, LessEqual], TermRule);
    }

    method Term() returns (r: Result<Expr, ParseError>)
      requires Valid()
      modifies this
      ensures Valid()
      ensures Outcome(r, current) == ParseAt(TermRule, readNumber, tokens, old(current))
      decreases |tokens| - current, 4 * Rank(TermRule) + 2
    {
      r := CreateLeftAssociativeBinaryExpression([Minus, Plus], FactorRule);
    }

    method Factor() returns (r: Result<Expr, ParseError>)
      requires Valid()
      modifies this
      ensures Valid()
      ensures Outcome(r, current) == ParseAt(FactorRule, readNumber, tokens, old(current))
      decreases |tokens| - current, 4 * Rank(FactorRule) + 2
    {
      r := CreateLeftAssociativeBinaryExpression([Slash, Star], UnaryRule);
    }

    method Unary() returns (r: Result<Expr, ParseError>)
      requires Valid()
      modifies this
      ensures Valid()
      ensures Outcome(r, current) == UnaryAt(readNumber, tokens, old(current))
      decreases |tokens| - current, 4 * Rank(UnaryRule) + 2
    {
      var matched := NextMatches([Bang, Minus]);
      if matched {
        var operator := GetPrevious();
        ghost var operand := current;
        var right := Unary();
        UnaryStep(readNumber, tokens, old(current), operand, Outcome(right, current));
        if right.Err? {
          return right;
        }
        return Ok(Expr.Unary(operator, right.value));
      }
      r := Primary();
    }

    method Primary() returns (r: Result<Expr, ParseError>)
      requires Valid()
      modifies this
      ensures Valid()
      ensures Outcome(r, current) == PrimaryAt(readNumber, tokens, old(current))
      decreases |tokens| - current, 4 * Rank(PrimaryRule) + 2
    {
      var token := Peek();
      var kind := token.tokenType;
      if kind == False {
        var previous := Advance();
        r := Ok(Expr.Literal(Some(Boolean(false))));
      } else if kind == True {
        var previous := Advance();
        r := Ok(Expr.Literal(Some(Boolean(true))));
      } else if kind == Nil {
        var previous := Advance();
        r := Ok(Expr.Literal(None));
      } else if kind == TokenType.Number {
        var previous := Advance();
        r := Ok(Expr.Literal(Some(Tokens.Literal.Number(readNumber(previous.lexeme).value))));
      } else if kind == TokenType.String {
        var previous := Advance();
        r := Ok(Expr.Literal(Some(Tokens.Literal.String(previous.lexeme))));
      } else if kind == LeftParen {
        var previous := Advance();
        ghost var operand := current;
        GroupingStep(readNumber, tokens, old(current), operand);
        var inner := Expression();
        if inner.Err? {
          return inner;
        }
        var closed := Consume(RightParen, ExpectRightParen);
        if closed.Err? {
          return Err(closed.error);
        }
        r := Ok(Grouping(inner.value));
      } else {
        r := Err(ParseError(token, ExpectExpression));
      }
    }

    /** `next_matches`: tries each kind in turn and consumes the token on
        the first that the cursor is on. */
    method NextMatches(tokenTypes: seq<TokenType>) returns (matched: bool)
      requires Valid()
      modifies this
      ensures Valid()
      ensures matched == MatchesAny(tokens, old(current), tokenTypes)
      ensures current == if matched then old(current) + 1 else old(current)
    {
      for k := 0 to |tokenTypes|
        invariant current == old(current)
        invariant forall j :: 0 <= j < k ==> !CheckNext(tokenTypes[j])
      {
        if CheckNext(tokenTypes[k]) {
          var previous := Advance();
          return true;
        }
      }
      return false;
    }

    /** `consume`: steps over a token of the expected kind, or fails with
        `message` at the token under the cursor. */
    method Consume(tokenType: TokenType, message: string) returns (r: Result<(), ParseError>)
      requires Valid()
      modifies this
      ensures Valid()
      ensures MatchesAny(tokens, old(current), [tokenType]) ==> r == Ok(()) && current == old(current) + 1
      ensures !MatchesAny(tokens, old(current), [tokenType]) ==>
        r == Err(ParseError(tokens[current], message)) && current == old(current)
    {
      if CheckNext(tokenType) {
        var previous := Advance();
        r := Ok(());
      } else {
        r := Err(ParseError(Peek(), message));
      }
    }

    /** `check_next`: false at the end, whatever the expected kind. */
    function CheckNext(tokenType: TokenType): (b: bool)
      reads this
      requires Valid()
      ensures b ==> Ready(readNumber, tokens, current + 1)
      ensures b <==> MatchesAny(tokens, current, [tokenType])
    {
      if IsAtEnd() then false else Peek().tokenType == tokenType
    }

    /** `advance`: moves past the current token unless it is the `Eof`, and
        returns the token before the cursor. At the first position with
        nothing before it that read would underflow. */
    method Advance() returns (previous: Token)
      requires Valid() && (!IsAtEnd() || current > 0)
      modifies this
      ensures Valid()
      ensures current == Advanced(tokens, old(current)) && 0 < current
      ensures previous == tokens[current - 1]
      ensures !AtEnd(tokens, old(current)) ==> previous == tokens[old(current)]
    {
      if !IsAtEnd() {
        current := current + 1;
      }
      previous := GetPrevious();
    }

    function IsAtEnd(): bool
      reads this
      requires current < |tokens|
    {
      Peek().tokenType == Eof
    }

    function Peek(): Token
      reads this
      requires current < |tokens|
    {
      tokens[current]
    }

    function GetPrevious(): Token
      reads this
      requires 0 < current <= |tokens|
    {
      tokens[current - 1]
    }

    /** `syncronise`: advances once, then skips tokens until the previous
        token is a semicolon, the current one starts a statement, or the end
        is reached. */
    method Synchronise()
      requires Valid() && (!IsAtEnd() || current > 0)
      modifies this
      ensures Valid()
      ensures current == SyncFrom(tokens, Advanced(tokens, old(current)))
    {
      var previous := Advance();
      while !IsAtEnd()
        invariant Valid() && 0 < current
        invariant SyncFrom(tokens, current) == SyncFrom(tokens, Advanced(tokens, old(current)))
        decreases |tokens| - current
      {
        if GetPrevious().tokenType == Semicolon {
          return;
        }
        if Peek().tokenType in {Class, Fun, Var, For, If, While, Print, Return} {
          return;
        }
        previous := Advance();
      }
    }
  }
}
