/** The tree printer: an expression tree as a fully parenthesised prefix
    string, `(op child child)`, with literals printed bare. */
module AstPrinter {
  import opened Wrappers
  import opened Tokens
  import opened Syntax
  import opened Text

  // ---------------------------------------------------------------------
  // The printed form
  // ---------------------------------------------------------------------

  /** Each part preceded by one space, in order. */
  function Spaced(parts: seq<string>): string
  {
    if parts == [] then "" else Spaced(parts[..|parts| - 1]) + " " + parts[|parts| - 1]
  }

  /** What `parenthesise` builds: an open parenthesis, the name, each part
      after one space, a close parenthesis. */
  function Parenthesised(name: string, parts: seq<string>): (s: string)
    ensures |s| >= 2 && s[0] == '(' && s[|s| - 1] == ')'
  {
    "(" + name + Spaced(parts) + ")"
  }

  /** `print`: an operator node as its lexeme and its operands, a ternary
      as `ternary` and its three parts, a grouping as `group` and its
      inner tree, a literal as its display text. */
  function Print(e: Expr, numberText: real -> string): (s: string)
    ensures !e.Literal? ==> |s| >= 2 && s[0] == '(' && s[|s| - 1] == ')'
  {
    match e
    case Binary(left, operator, right) => Parenthesised(operator.lexeme, [Print(left, numberText), Print(right, numberText)])
    case Ternary(condition, thenBranch, elseBranch) =>
      Parenthesised("ternary", [Print(condition, numberText), Print(thenBranch, numberText), Print(elseBranch, numberText)])
    case Grouping(inner) => Parenthesised("group", [Print(inner, numberText)])
    case Literal(value) => ValueText(value, numberText)
    case Unary(operator, right) => Parenthesised(operator.lexeme, [Print(right, numberText)])
  }

  /** The printed form of each tree of a list. */
  function Prints(exprs: seq<Expr>, numberText: real -> string): seq<string>
  {
    seq(|exprs|, i requires 0 <= i < |exprs| => Print(exprs[i], numberText))
  }

  /** `parenthesise`, building the string in a buffer: `(` and the name,
      then a space and the printed form of each tree, then `)`. */
  method Parenthesise(name: string, exprs: seq<Expr>, numberText: real -> string) returns (result: string)
    ensures result == Parenthesised(name, Prints(exprs, numberText))
  {
    result := "(";
    result := result + name;
    for i := 0 to |exprs|
      invariant result == "(" + name + Spaced(Prints(exprs[..i], numberText))
    {
      PrintsExtend(exprs, i, numberText);
      result := result + " ";
      result := result + Print(exprs[i], numberText);
    }
    assert exprs[..|exprs|] == exprs;
    result := result + ")";
  }

  /** Printing one more tree of the list adds its printed form after a space. */
  lemma PrintsExtend(exprs: seq<Expr>, i: nat, numberText: real -> string)
    requires i < |exprs|
    ensures Spaced(Prints(exprs[..i + 1], numberText)) == Spaced(Prints(exprs[..i], numberText)) + " " + Print(exprs[i], numberText)
  {
    var texts := Prints(exprs[..i + 1], numberText);
    assert texts[..i] == Prints(exprs[..i], numberText);
  }

  // ---------------------------------------------------------------------
  // The shape of each node's text
  // ---------------------------------------------------------------------

  /** A binary node: its lexeme and both operands, one space before each. */
  lemma BinaryForm(left: Expr, operator: Token, right: Expr, numberText: real -> string)
    ensures Print(Binary(left, operator, right), numberText)
      == "(" + operator.lexeme + " " + Print(left, numberText) + " " + Print(right, numberText) + ")"
  {
    ParenthesisedPair(operator.lexeme, Print(left, numberText), Print(right, numberText));
  }

  /** A unary node: its lexeme and its operand after one space. */
  lemma UnaryForm(operator: Token, right: Expr, numberText: real -> string)
    ensures Print(Unary(operator, right), numberText) == "(" + operator.lexeme + " " + Print(right, numberText) + ")"
  {
    ParenthesisedOne(operator.lexeme, Print(right, numberText));
  }

  /** A grouping: `group` and the inner tree after one space. */
  lemma GroupingForm(inner: Expr, numberText: real -> string)
    ensures Print(Grouping(inner), numberText) == "(group " + Print(inner, numberText) + ")"
  {
    ParenthesisedOne("group", Print(inner, numberText));
    assert "(" + "group" + " " == "(group ";
  }

  /** A ternary: `ternary` and its three parts, one space before each. */
  lemma TernaryForm(condition: Expr, thenBranch: Expr, elseBranch: Expr, numberText: real -> string)
    ensures Print(Ternary(condition, thenBranch, elseBranch), numberText)
      == "(ternary " + Print(condition, numberText) + " " + Print(thenBranch, numberText)
         + " " + Print(elseBranch, numberText) + ")"
  {
    ParenthesisedTriple("ternary", Print(condition, numberText), Print(thenBranch, numberText), Print(elseBranch, numberText));
    assert "(" + "ternary" + " " == "(ternary ";
  }

  lemma ParenthesisedOne(name: string, a: string)
    ensures Parenthesised(name, [a]) == "(" + name + " " + a + ")"
  {
    assert [a][..0] == [];
    assert Spaced([a]) == "" + " " + a;
  }

  lemma ParenthesisedPair(name: string, a: string, b: string)
    ensures Parenthesised(name, [a, b]) == "(" + name + " " + a + " " + b + ")"
  {
    assert [a, b][..1] == [a];
    assert [a][..0] == [];
    assert Spaced([a]) == " " + a;
    assert Spaced([a, b]) == Spaced([a]) + " " + b;
  }

  lemma ParenthesisedTriple(name: string, a: string, b: string, d: string)
    ensures Parenthesised(name, [a, b, d]) == "(" + name + " " + a + " " + b + " " + d + ")"
  {
    assert [a, b, d][..2] == [a, b];
    assert [a, b][..1] == [a];
    assert [a][..0] == [];
    assert Spaced([a]) == " " + a;
    assert Spaced([a, b]) == Spaced([a]) + " " + b;
    assert Spaced([a, b, d]) == Spaced([a, b]) + " " + d;
  }

  /** Literals print bare: a string without quotes, an identifier as its
      name, a Boolean as `true` or `false`, absence as `nil`. */
  lemma BareLiterals(text: string, name: string, n: real, numberText: real -> string)
    ensures Print(Expr.Literal(Some(Tokens.Literal.String(text))), numberText) == text
    ensures Print(Expr.Literal(Some(Tokens.Literal.Identifier(name))), numberText) == name
    ensures Print(Expr.Literal(Some(Tokens.Literal.Number(n))), numberText) == numberText(n)
    ensures Print(Expr.Literal(Some(Boolean(true))), numberText) == "true"
    ensures Print(Expr.Literal(Some(Boolean(false))), numberText) == "false"
    ensures Print(Expr.Literal(None), numberText) == "nil"
  {
  }

  // ---------------------------------------------------------------------
  // Parentheses
  // ---------------------------------------------------------------------

  /** Number of operator, grouping and ternary nodes. */
  function Nodes(e: Expr): nat
  {
    match e
    case Binary(left, _, right) => 1 + Nodes(left) + Nodes(right)
    case Ternary(condition, thenBranch, elseBranch) => 1 + Nodes(condition) + Nodes(thenBranch) + Nodes(elseBranch)
    case Grouping(inner) => 1 + Nodes(inner)
    case Literal(_) => 0
    case Unary(_, right) => 1 + Nodes(right)
  }

  predicate NoParens(s: string)
  {
    '(' !in s && ')' !in s
  }

  /** No operator lexeme and no literal text of the tree has a parenthesis
      of its own (string literals may). */
  predicate ParenFree(e: Expr, numberText: real -> string)
  {
    match e
    case Binary(left, operator, right) => NoParens(operator.lexeme) && ParenFree(left, numberText) && ParenFree(right, numberText)
    case Ternary(condition, thenBranch, elseBranch) =>
      ParenFree(condition, numberText) && ParenFree(thenBranch, numberText) && ParenFree(elseBranch, numberText)
    case Grouping(inner) => ParenFree(inner, numberText)
    case Literal(value) => NoParens(ValueText(value, numberText))
    case Unary(operator, right) => NoParens(operator.lexeme) && ParenFree(right, numberText)
  }

  /** Total occurrences of `c` in a list of strings. */
  function CountAll(parts: seq<string>, c: char): nat
  {
    if parts == [] then 0 else CountAll(parts[..|parts| - 1], c) + Count(parts[|parts| - 1], c)
  }

  lemma {:induction false} CountSpaced(parts: seq<string>, c: char)
    requires c != ' '
    ensures Count(Spaced(parts), c) == CountAll(parts, c)
  {
    if parts != [] {
      var last := parts[|parts| - 1];
      CountSpaced(parts[..|parts| - 1], c);
      CountConcat(Spaced(parts[..|parts| - 1]) + " ", last, c);
      CountConcat(Spaced(parts[..|parts| - 1]), " ", c);
      CountOne(' ', c);
    }
  }

  /** A parenthesised name with no parentheses of its own adds exactly one
      `(` and one `)` to those of its parts. */
  lemma CountParenthesised(name: string, parts: seq<string>, c: char)
    requires NoParens(name) && (c == '(' || c == ')')
    ensures Count(Parenthesised(name, parts), c) == 1 + CountAll(parts, c)
  {
    CountConcat("(" + name + Spaced(parts), ")", c);
    CountConcat("(" + name, Spaced(parts), c);
    CountConcat("(", name, c);
    CountOne('(', c);
    CountOne(')', c);
    CountAbsent(name, c);
    CountSpaced(parts, c);
  }

  lemma OneBracket(name: string, a: string, c: char)
    requires NoParens(name) && (c == '(' || c == ')')
    ensures Count(Parenthesised(name, [a]), c) == 1 + Count(a, c)
  {
    assert [a][..0] == [];
    CountParenthesised(name, [a], c);
  }

  lemma PairBrackets(name: string, a: string, b: string, c: char)
    requires NoParens(name) && (c == '(' || c == ')')
    ensures Count(Parenthesised(name, [a, b]), c) == 1 + Count(a, c) + Count(b, c)
  {
    assert [a, b][..1] == [a];
    assert [a][..0] == [];
    assert CountAll([a], c) == Count(a, c);
    assert CountAll([a, b], c) == Count(a, c) + Count(b, c);
    CountParenthesised(name, [a, b], c);
  }

  lemma TripleBrackets(name: string, a: string, b: string, d: string, c: char)
    requires NoParens(name) && (c == '(' || c == ')')
    ensures Count(Parenthesised(name, [a, b, d]), c) == 1 + Count(a, c) + Count(b, c) + Count(d, c)
  {
    assert [a, b, d][..2] == [a, b];
    assert [a, b][..1] == [a];
    assert [a][..0] == [];
    assert CountAll([a], c) == Count(a, c);
    assert CountAll([a, b], c) == Count(a, c) + Count(b, c);
    assert CountAll([a, b, d], c) == Count(a, c) + Count(b, c) + Count(d, c);
    CountParenthesised(name, [a, b, d], c);
  }

  /** With no parenthesis in lexemes or literal texts, the printed form has
      one `(` and one `)` per node: the parentheses balance, one pair per
      operator, grouping and ternary. */
  lemma {:induction false} Brackets(e: Expr, numberText: real -> string, c: char)
    requires ParenFree(e, numberText) && (c == '(' || c == ')')
    ensures Count(Print(e, numberText), c) == Nodes(e)
  {
    match e
    case Binary(left, operator, right) =>
      Brackets(left, numberText, c);
      Brackets(right, numberText, c);
      BinaryBrackets(left, operator, right, numberText, c);
    case Ternary(condition, thenBranch, elseBranch) =>
      Brackets(condition, numberText, c);
      Brackets(thenBranch, numberText, c);
      Brackets(elseBranch, numberText, c);
      TernaryBrackets(condition, thenBranch, elseBranch, numberText, c);
    case Grouping(inner) =>
      Brackets(inner, numberText, c);
      GroupingBrackets(inner, numberText, c);
    case Literal(value) =>
      CountAbsent(ValueText(value, numberText), c);
    case Unary(operator, right) =>
      Brackets(right, numberText, c);
      UnaryBrackets(operator, right, numberText, c);
  }

  lemma BinaryBrackets(left: Expr, operator: Token, right: Expr, numberText: real -> string, c: char)
    requires NoParens(operator.lexeme) && (c == '(' || c == ')')
    ensures Count(Print(Binary(left, operator, right), numberText), c) == 1 + Count(Print(left, numberText), c) + Count(Print(right, numberText), c)
  {
    PairBrackets(operator.lexeme, Print(left, numberText), Print(right, numberText), c);
  }

  lemma TernaryBrackets(condition: Expr, thenBranch: Expr, elseBranch: Expr, numberText: real -> string, c: char)
    requires c == '(' || c == ')'
    ensures Count(Print(Ternary(condition, thenBranch, elseBranch), numberText), c)
      == 1 + Count(Print(condition, numberText), c) + Count(Print(thenBranch, numberText), c) + Count(Print(elseBranch, numberText), c)
  {
    assert Print(Ternary(condition, thenBranch, elseBranch), numberText)
      == Parenthesised("ternary", [Print(condition, numberText), Print(thenBranch, numberText), Print(elseBranch, numberText)]);
    TripleBrackets("ternary", Print(condition, numberText), Print(thenBranch, numberText), Print(elseBranch, numberText), c);
  }

  lemma GroupingBrackets(inner: Expr, numberText: real -> string, c: char)
    requires c == '(' || c == ')'
    ensures Count(Print(Grouping(inner), numberText), c) == 1 + Count(Print(inner, numberText), c)
  {
    OneBracket("group", Print(inner, numberText), c);
  }

  lemma UnaryBrackets(operator: Token, right: Expr, numberText: real -> string, c: char)
    requires NoParens(operator.lexeme) && (c == '(' || c == ')')
    ensures Count(Print(Unary(operator, right), numberText), c) == 1 + Count(Print(right, numberText), c)
  {
    OneBracket(operator.lexeme, Print(right, numberText), c);
  }

  // ---------------------------------------------------------------------
  // Example
  // ---------------------------------------------------------------------

  /** `-123 * (45.67)` prints as `(* (- 123) (group 45.67))` when numbers
      display as their shortest decimal text. */
  lemma ProductExample(numberText: real -> string)
    requires numberText(123.0) == "123" && numberText(45.67) == "45.67"
    ensures Print(Binary(Negation(), Token(Star, "*", None, 1), Group()), numberText) == "(* (- 123) (group 45.67))"
  {
    NegationText(numberText);
    GroupText(numberText);
    BinaryForm(Negation(), Token(Star, "*", None, 1), Group(), numberText);
    ProductText();
  }

  lemma ProductText()
    ensures "(" + "*" + " " + "(- 123)" + " " + "(group 45.67)" + ")" == "(* (- 123) (group 45.67))"
  {
  }

  function Negation(): Expr
  {
    Unary(Token(Minus, "-", None, 1), Expr.Literal(Some(Tokens.Literal.Number(123.0))))
  }

  function Group(): Expr
  {
    Grouping(Expr.Literal(Some(Tokens.Literal.Number(45.67))))
  }

  lemma NegationText(numberText: real -> string)
    requires numberText(123.0) == "123"
    ensures Print(Negation(), numberText) == "(- 123)"
  {
    UnaryForm(Token(Minus, "-", None, 1), Expr.Literal(Some(Tokens.Literal.Number(123.0))), numberText);
    assert "(" + "-" + " " + "123" + ")" == "(- 123)";
  }

  lemma GroupText(numberText: real -> string)
    requires numberText(45.67) == "45.67"
    ensures Print(Group(), numberText) == "(group 45.67)"
  {
    GroupingForm(Expr.Literal(Some(Tokens.Literal.Number(45.67))), numberText);
    assert "(group " + "45.67" + ")" == "(group 45.67)";
  }
}
