# loxide expression core, modelled in Dafny

loxide is a small Lox-style expression language. Source text goes
through three stages:

- the **scanner** turns graphemes into tokens or lexical errors, always
  ending with an `EOF` token;
- the **recursive-descent parser** turns a token list into an expression
  tree;
- the **tree-walk interpreter** evaluates that tree to an optional literal
  or a runtime error.

A separate **AST printer** renders a tree as a parenthesised prefix string.

The model follows each stage in the form its Rust code takes:

- `Lexer.Scanner` is a class with the scanner's line counter, its two
  lexeme cursors and its token buffer. Its loops are methods with
  invariants. Each method is proved equal to a functional specification:
  one turn of the main loop (`Lexer.ScanStep`) and the whole pass
  (`Lexer.Scan`). The lemmas in `LexerFacts` state what that pass does.
- `Parsing.Parser` is a class with the token list and a mutable cursor.
  Each grammar method is proved equal to a specification function such as
  `Parsing.ParseAt` or `Parsing.UnaryAt`. That function returns the result
  and where the cursor is left. `Parsing` and `ParsingFacts` prove the
  cursor bounds, the shape of the trees and the errors reported.
- `Interpreter` is pure: functions with contracts that state every error
  condition in both directions. `EvaluationFacts` relates evaluation to an
  independent arithmetic reference, to the branch structure of the ternary
  and to the trees the parser produces.
- `AstPrinter.Print` is a function. `AstPrinter.Parenthesise` is the
  buffer-building loop, proved to build what `Parenthesised` describes.
  The lemmas give each node's printed form and count its parentheses.

Modules:

| module | file | models |
|---|---|---|
| `Wrappers` | wrappers.dfy | `Option` and `Result` |
| `Text` | text.dfy | counting a character in a string |
| `Tokens` | token.dfy | token kinds, literals, tokens, literal display text |
| `Syntax` | expression.dfy | the expression tree, with its `Ternary` variant |
| `Numbers` | number.dfy | reading a plain decimal lexeme as a number |
| `Lexer`, `LexerFacts`, `LexerExamples` | scanner.dfy, scanner_facts.dfy | the scanner |
| `Parsing`, `ParsingFacts`, `ParsingExamples` | recursive_descent.dfy, parser_facts.dfy | the parser |
| `Interpreter`, `EvaluationFacts`, `EvaluationExamples` | tree_walk_interpreter.dfy, interpreter_facts.dfy | the evaluator |
| `AstPrinter` | ast_printer.dfy | the printer |

Where the code and its comments disagree, the model follows the code:

- The grammar comment at `src/frontend/parse/recursive_descent.rs:15` says
  comma operands are equalities. The code at lines 62-64 parses ternaries,
  and so does the model.
- The expression type in `src/frontend/parse/expression.rs` has no ternary
  variant. The parser, the interpreter and the printer all build or match
  one, so `Syntax.Expr` has it.
- The token file `src/frontend/lex/token.rs` has no literal field and no
  `?`/`:` kinds. The scanner and the parser use both.
- The scanner ends its output with `EOF`, while the parser stops at `Eof`.
  `Tokens.TokenType` keeps both kinds. The code hands the scanner's list,
  ending in `EOF`, straight to the parser (`src/frontend/mod.rs:37-41`).
  The model's parser accepts only lists that end in `Eof`, so that wiring
  is not covered (see "Left out").

A `//` comment bumps the line counter when it is skipped. The newline that
ends it bumps the counter again. The model keeps this double count
(`LexerFacts.LineComment`, `LexerExamples.CommentedIdentifier`).

## Model

Rows whose third column starts with "helper step" state a single arm of the scanner's loop or of a grammar rule. They are proof steps for the whole-pass and whole-parse results (`LexerFacts.ScanFromShape`, `Parsing.ParseAtShape`, the examples), not results of their own.

| member | source | states |
|---|---|---|
| `Lexer.Scanner.ScanTokens` | src/frontend/lex/scanner.rs:28-115 | the imperative scan of a source returns exactly `Scan(source)`, the pass from grapheme 0 with the line counter at 0 |
| `Lexer.Scanner.ScanGrapheme` | src/frontend/lex/scanner.rs:39-105 | one turn of the main loop appends exactly `ScanStep`'s output to the buffer, advances the iterator to its `next` and sets the line counter to its `line` |
| `Lexer.ScanStep` | src/frontend/lex/scanner.rs:39-105 | one turn always moves past the current grapheme, stays within the source and never decreases the line counter |
| `Lexer.Scanner.constructor` | src/frontend/lex/scanner.rs:28-34 | a new scanner has line 0, both lexeme cursors at 0 and an empty buffer |
| `Lexer.Scanner.GetLexeme` | src/frontend/lex/scanner.rs:120-122 | the lexeme runs from the start cursor through the current cursor, inclusive |
| `Lexer.Scanner.AddToken` | src/frontend/lex/scanner.rs:127-134 | appends one token with no literal, the current lexeme and line; nothing else changes |
| `Lexer.Scanner.AddLiteralToken` | src/frontend/lex/scanner.rs:139-146 | appends one token carrying the literal, the current lexeme and line |
| `Lexer.Scanner.NextMatches` | src/frontend/lex/scanner.rs:151-166 | matches iff the next grapheme exists and is the expected one; only then does it consume it and move the current cursor |
| `Lexer.Scanner.AddIfNextMatches` | src/frontend/lex/scanner.rs:66-69 | `!`, `=`, `<`, `>` push the two-grapheme kind when `=` follows and the one-grapheme kind otherwise, as `PairStep` says |
| `Lexer.Scanner.ParseString` | src/frontend/lex/scanner.rs:173-205 | the string loop has exactly `StringStep`'s effect: one String token or one unterminated-string error, with newlines inside counted |
| `Lexer.Scanner.ParseNumber` | src/frontend/lex/scanner.rs:213-245 | the number scan has exactly `NumberStep`'s effect: one Number token whose value is the lexeme read as a decimal, or an invalid-number error |
| `Lexer.Scanner.SkipNumber` | src/frontend/lex/scanner.rs:214-228 | the digit loop stops where `NumberEnd` says: digits and at most one point |
| `Lexer.Scanner.ParseIdentifier` | src/frontend/lex/scanner.rs:247-259 | the identifier loop has exactly `IdentifierStep`'s effect: one Identifier token whose literal is its own lexeme |
| `Lexer.FindFrom` | src/frontend/lex/scanner.rs:72-79 | the first occurrence of a grapheme at or after a position, or the end when there is none |
| `Lexer.NumberEnd` | src/frontend/lex/scanner.rs:214-228 | a number extends over digits and at most one `.`; it stops at a non-digit or at a second `.` |
| `Lexer.IdentifierEnd` | src/frontend/lex/scanner.rs:247-255 | an identifier extends over alphanumerics and `_` and stops at the first other grapheme |
| `Lexer.ArmOfDigit` | src/frontend/lex/scanner.rs:90-91 | helper step, one arm unfolded: a digit takes the number arm of the main loop |
| `Lexer.ArmOfAlpha` | src/frontend/lex/scanner.rs:93-94 | helper step, one arm unfolded: a letter or `_` takes the identifier arm |
| `LexerFacts.SingleTurn` | src/frontend/lex/scanner.rs:54-63 | helper step, one arm unfolded: each of `(){},.-+;*` yields one token of its kind with that grapheme as lexeme |
| `LexerFacts.OperatorTurn` | src/frontend/lex/scanner.rs:66-69 | helper step, one arm unfolded: `!`, `=`, `<`, `>` followed by `=` yield the two-grapheme token and consume both; otherwise the one-grapheme token |
| `LexerFacts.BlankTurn` | src/frontend/lex/scanner.rs:82 | helper step, one arm unfolded: space, `\r` and `\t` emit nothing and leave the line alone |
| `LexerFacts.NewlineTurn` | src/frontend/lex/scanner.rs:85 | helper step, one arm unfolded: a newline emits nothing and bumps the line counter |
| `LexerFacts.CommentTurn` | src/frontend/lex/scanner.rs:72-79 | helper step, one arm unfolded: `//` skips to the next newline, not past it, emits nothing and bumps the line counter |
| `LexerFacts.SlashTurn` | src/frontend/lex/scanner.rs:72-79 | helper step, one arm unfolded: `/` is a comment or a Slash token |
| `LexerFacts.QuoteTurn` | src/frontend/lex/scanner.rs:88 | helper step, one arm unfolded: a quote starts a string |
| `LexerFacts.DigitTurn` | src/frontend/lex/scanner.rs:91 | helper step, one arm unfolded: a digit starts a number |
| `LexerFacts.AlphaTurn` | src/frontend/lex/scanner.rs:94 | helper step, one arm unfolded: a letter or `_` starts an identifier |
| `LexerFacts.InvalidTurn` | src/frontend/lex/scanner.rs:97-104 | helper step, one arm unfolded: any other grapheme yields one invalid-token error naming it, and scanning goes on with the next grapheme |
| `LexerFacts.StepOfOther` | src/frontend/lex/scanner.rs:54-104 | every turn that is not a string, number or identifier emits only tokens without literals, or errors |
| `LexerFacts.StepWellFormed` | src/frontend/lex/scanner.rs:39-105 | everything one turn emits is well formed: never an EOF token; a Number token's lexeme is a decimal and its literal is that decimal's value; String and Identifier literals equal their lexemes |
| `LexerFacts.StepLines` | src/frontend/lex/scanner.rs:39-105 | outside comments, a turn raises the line counter by exactly the newlines it passes over |
| `LexerFacts.StringStepLines` | src/frontend/lex/scanner.rs:173-194 | a string raises the line counter by the newlines inside it |
| `LexerFacts.ScanFromShape` | src/frontend/lex/scanner.rs:28-115 | the pass from any position yields well-formed entries followed by a single EOF token on the final line |
| `LexerFacts.ScanEndsWithOneEof` | src/frontend/lex/scanner.rs:108-113 | the output ends with exactly one EOF token, with an empty lexeme, no literal and the final line; no earlier entry is EOF |
| `LexerFacts.ScanEntriesWellFormed` | src/frontend/lex/scanner.rs:28-115 | every entry before EOF is well formed, as `StepWellFormed` says |
| `LexerFacts.FinalLineCountsNewlines` | src/frontend/lex/scanner.rs:85 | without `/` in the source, the final line is the number of newlines in it |
| `LexerFacts.NumberToken` | src/frontend/lex/scanner.rs:213-245 | a scanned number always reads: its lexeme is a decimal, the token carries its value, and what follows is no digit and is a `.` only when the lexeme already holds one |
| `LexerFacts.TerminatedString` | src/frontend/lex/scanner.rs:173-194 | a closed string is one String token whose lexeme and literal exclude both quotes, on the line reached after its newlines; scanning resumes after the closing quote |
| `LexerFacts.NeverClosedString` | src/frontend/lex/scanner.rs:195-205 | an unclosed string yields exactly one error on the line reached at the end of input, and the only entry after it is EOF |
| `LexerFacts.LineComment` | src/frontend/lex/scanner.rs:72-79 | a comment produces no tokens; with its closing newline it raises the line counter by two |
| `LexerFacts.Whitespace` | src/frontend/lex/scanner.rs:82 | a blank changes nothing in the output |
| `LexerFacts.InvalidGrapheme` | src/frontend/lex/scanner.rs:97-104 | an unrecognised grapheme contributes one error entry, then the rest of the scan |
| `LexerFacts.SingleGraphemeToken` | src/frontend/lex/scanner.rs:54-63 | a single-grapheme token is followed by the scan of the next grapheme |
| `LexerFacts.OneOrTwoGraphemeOperator` | src/frontend/lex/scanner.rs:66-69 | the longer operator is chosen when `=` follows, and scanning resumes after it |
| `LexerFacts.NumberAt` | src/frontend/lex/scanner.rs:213-245 | a number is one token over its whole extent, valued by its reading, followed by the rest of the scan |
| `LexerFacts.IdentifierAt` | src/frontend/lex/scanner.rs:247-259 | an identifier is one Identifier token with literal `Identifier(lexeme)`, never a keyword |
| `LexerExamples.DigitAt` | src/frontend/lex/scanner.rs:213-245 | a lone digit is a Number token valued at that digit |
| `LexerExamples.SimpleDigits` | src/frontend/lex/scanner.rs:325-327 | `1 < 3 + 4` scans to Number 1, Less, Number 3, Plus, Number 4, EOF |
| `LexerExamples.DottedNumbers` | src/frontend/lex/scanner.rs:334-336 | `1.234.567.123` scans to Number "1.234", Dot, Number "567.123", EOF, with values 1.234 and 567.123 |
| `LexerExamples.CommentedIdentifier` | src/frontend/lex/scanner.rs:362-364 | `a1_b //c` scans to one Identifier "a1_b" and EOF; EOF is on line 1 because the comment bumped the counter |
| `LexerExamples.OpenString` | src/frontend/lex/scanner.rs:195-205 | `+"a` newline `b` scans to Plus, one unterminated-string error on line 1, EOF on line 1 |
| `Numbers.ParseFloatAcceptsDecimals` | src/frontend/lex/scanner.rs:230 | a lexeme reads as a number iff it is digits with at most one point and at least one digit |
| `Numbers.ParseWholeNumber` | src/frontend/lex/scanner.rs:230 | a digit string reads as its decimal value |
| `Numbers.ParsePointNumber` | src/frontend/lex/scanner.rs:230 | `whole.fraction` reads as whole plus fraction over ten to the fraction's length |
| `Parsing.Parser.constructor` | src/frontend/parse/recursive_descent.rs:32-34 | a new parser holds the tokens with its cursor at 0 |
| `Parsing.Parser.Parse` | src/frontend/parse/recursive_descent.rs:36-38 | parsing is the expression rule from the cursor: `ParseAt(ExpressionRule, ...)`, result and final cursor alike |
| `Parsing.Parser.Apply` | src/frontend/parse/recursive_descent.rs:58-125 | running any grammar rule yields `ParseAt` of that rule |
| `Parsing.Parser.CreateLeftAssociativeBinaryExpression` | src/frontend/parse/recursive_descent.rs:40-56 | the left-associative loop yields `BinaryAt`: one operand, then the left fold of each further operator and operand |
| `Parsing.Parser.FoldOperators` | src/frontend/parse/recursive_descent.rs:47-55 | the `while` loop yields `ChainRest` from the tree built so far |
| `Parsing.Parser.Expression` | src/frontend/parse/recursive_descent.rs:58-60 | the expression rule is the comma rule |
| `Parsing.Parser.Comma` | src/frontend/parse/recursive_descent.rs:62-64 | the comma rule folds ternaries over `,` |
| `Parsing.Parser.Ternary` | src/frontend/parse/recursive_descent.rs:66-81 | the ternary rule yields `TernaryAt` |
| `Parsing.Parser.Equality` | src/frontend/parse/recursive_descent.rs:83-88 | the equality rule folds comparisons over `!=` and `==` |
| `Parsing.Parser.Comparison` | src/frontend/parse/recursive_descent.rs:90-100 | the comparison rule folds terms over `>`, `>=`, `<`, `<=` |
| `Parsing.Parser.Term` | src/frontend/parse/recursive_descent.rs:102-107 | the term rule folds factors over `-` and `+` |
| `Parsing.Parser.Factor` | src/frontend/parse/recursive_descent.rs:109-114 | the factor rule folds unaries over `/` and `*` |
| `Parsing.Parser.Unary` | src/frontend/parse/recursive_descent.rs:116-125 | the unary rule yields `UnaryAt` |
| `Parsing.Parser.Primary` | src/frontend/parse/recursive_descent.rs:127-164 | the primary rule yields `PrimaryAt` |
| `Parsing.Parser.NextMatches` | src/frontend/parse/recursive_descent.rs:166-175 | matches iff the cursor is not at `Eof` and its token has one of the kinds; only then does the cursor move by one |
| `Parsing.Parser.Consume` | src/frontend/parse/recursive_descent.rs:177-187 | the expected kind moves the cursor by one; anything else fails with the message and the un-advanced current token |
| `Parsing.Parser.CheckNext` | src/frontend/parse/recursive_descent.rs:189-195 | true iff the cursor is not at `Eof` and the current token has the kind; then the next position is still in bounds |
| `Parsing.Parser.Advance` | src/frontend/parse/recursive_descent.rs:197-203 | the cursor moves by one except at `Eof`, and the previous token is returned |
| `Parsing.Parser.Synchronise` | src/frontend/parse/recursive_descent.rs:223-243 | after one advance, the cursor stops at the first point that is `Eof`, right after a `;`, or before a statement keyword |
| `Parsing.SyncFrom` | src/frontend/parse/recursive_descent.rs:226-242 | the stopping point found is the first one at or after the start, and no earlier position stops |
| `Parsing.ParseAt` | src/frontend/parse/recursive_descent.rs:58-164 | any rule leaves the cursor in bounds (never past `Eof`) and never moves it backwards; a success consumes at least one token |
| `Parsing.BinaryAt` | src/frontend/parse/recursive_descent.rs:40-56 | a binary level keeps the cursor in bounds and consumes a token on success |
| `Parsing.TernaryAt` | src/frontend/parse/recursive_descent.rs:66-81 | the ternary level keeps the cursor in bounds and consumes a token on success |
| `Parsing.UnaryAt` | src/frontend/parse/recursive_descent.rs:116-125 | the unary level keeps the cursor in bounds and consumes a token on success |
| `Parsing.PrimaryAt` | src/frontend/parse/recursive_descent.rs:127-164 | a primary keeps the cursor in bounds and consumes a token on success |
| `Parsing.GroupingAt` | src/frontend/parse/recursive_descent.rs:153-158 | a parenthesised expression keeps the cursor in bounds and consumes a token on success |
| `Parsing.Operand` | src/frontend/parse/recursive_descent.rs:62-114 | each binary level's operand rule is strictly lower on the ladder and binds strictly tighter |
| `Parsing.OperatorsBind` | src/frontend/parse/recursive_descent.rs:62-114 | each level's operators bind with that level's strength: comma, then equality, comparison, term, factor |
| `Parsing.ChainStep` | src/frontend/parse/recursive_descent.rs:47-53 | helper step, one arm unfolded: one more operator makes `Binary(left, operator, right)` the new left side, or stops at the operand's error |
| `Parsing.UnaryStep` | src/frontend/parse/recursive_descent.rs:116-121 | helper step, one arm unfolded: `!` or `-` wraps the unary that follows, or passes on its error |
| `Parsing.TernaryStep` | src/frontend/parse/recursive_descent.rs:69-70 | helper step, one arm unfolded: a `?` after the condition leads to the branches |
| `Parsing.ElseStep` | src/frontend/parse/recursive_descent.rs:72-79 | helper step, one arm unfolded: after `:`, the else branch is a full expression, and the result is the ternary of the three parts |
| `Parsing.GroupingStep` | src/frontend/parse/recursive_descent.rs:153-158 | helper step, one arm unfolded: `(` leads to a grouped expression |
| `Parsing.ParseAtShape` | src/frontend/parse/recursive_descent.rs:40-164 | every tree a rule returns is well nested and binds at least as tightly as the rule: binary chains fold left, operands of tighter operators nest inside, no identifier literal appears |
| `Parsing.ParseAtReported` | src/frontend/parse/recursive_descent.rs:66-187 | every failure is one of the three messages and names the token where the cursor stopped |
| `ParsingFacts.Settle` | src/frontend/parse/recursive_descent.rs:58-114 | when no operator of the levels above follows, a higher rule returns exactly what a lower one did |
| `ParsingFacts.StepDown` | src/frontend/parse/recursive_descent.rs:58-114 | one level down, when its result is not followed by an operator of this level |
| `ParsingFacts.TernaryStops` | src/frontend/parse/recursive_descent.rs:66-81 | without a following `?`, the ternary is just its condition |
| `ParsingFacts.BinaryStops` | src/frontend/parse/recursive_descent.rs:40-56 | without a following operator of its level, a binary level is just its operand |
| `ParsingFacts.BinaryFirst` | src/frontend/parse/recursive_descent.rs:45 | helper step, one arm unfolded: a binary level parses one operand and continues from there |
| `ParsingFacts.ChainOn` | src/frontend/parse/recursive_descent.rs:47-53 | helper step, one arm unfolded: a matching operator folds the next operand onto the left |
| `ParsingFacts.ChainEnds` | src/frontend/parse/recursive_descent.rs:47-55 | helper step, one arm unfolded: without a matching operator the tree so far is returned, with the cursor unmoved |
| `ParsingFacts.TernaryFirst` | src/frontend/parse/recursive_descent.rs:67 | helper step, one arm unfolded: the ternary reads an equality first |
| `ParsingFacts.ThenRead` | src/frontend/parse/recursive_descent.rs:70-72 | helper step, one arm unfolded: the then branch is a full expression |
| `ParsingFacts.NoPrefix` | src/frontend/parse/recursive_descent.rs:122-124 | helper step, one arm unfolded: without `!` or `-`, the unary rule is the primary rule |
| `ParsingFacts.AtomAt` | src/frontend/parse/recursive_descent.rs:129-152 | a literal token followed by a looser token parses to that literal at any level, consuming one token |
| `ParsingFacts.NoExpressionAt` | src/frontend/parse/recursive_descent.rs:159-162 | a token that starts no expression, identifiers included, fails every rule with "Expect expression." on that token, without advancing |
| `ParsingExamples.LoneNumber` | src/frontend/parse/recursive_descent.rs:250-273 | Number then `Eof` parses to that number's literal, leaving the cursor on `Eof` |
| `ParsingExamples.TrailingTokens` | src/frontend/parse/recursive_descent.rs:36-38 | two Numbers then `Eof` parse to the first number; the second is left unconsumed |
| `ParsingExamples.LeftAssociative` | src/frontend/parse/recursive_descent.rs:40-56 | `a - b - c` parses to `Binary(Binary(a, -, b), -, c)`, each node holding its own operator token |
| `ParsingExamples.SumBeforeComparison` | src/frontend/parse/recursive_descent.rs:90-107 | `1 < 3 + 4` parses to `Binary(1, <, Binary(3, +, 4))` |
| `ParsingExamples.DoubleNegation` | src/frontend/parse/recursive_descent.rs:116-125 | `- - n` parses to `Unary(-, Unary(-, n))` |
| `ParsingExamples.CommaPair` | src/frontend/parse/recursive_descent.rs:62-64 | `a , b` parses to a Binary node with the comma as operator |
| `ParsingExamples.Conditional` | src/frontend/parse/recursive_descent.rs:66-81 | `true ? a : b` parses to `Ternary(true, a, b)` |
| `ParsingExamples.MissingColon` | src/frontend/parse/recursive_descent.rs:72-79 | `true ? a` then `Eof` fails with "Expected ':' after then branch" on the `Eof` token |
| `ParsingExamples.IdentifierRejected` | src/frontend/parse/recursive_descent.rs:159-162 | a lone identifier fails with "Expect expression." on that token, cursor at 0 |
| `ParsingExamples.UnclosedGroup` | src/frontend/parse/recursive_descent.rs:153-187 | `( n` then `Eof` fails with "Expect ')' after expression." on the `Eof` token |
| `Interpreter.IsTruthy` | src/frontend/parse/tree_walk_interpreter.rs:193-199 | a value is truthy iff it is present and not `Boolean(false)`: numbers, every string and identifiers are truthy |
| `Interpreter.EvaluateEqual` | src/frontend/parse/tree_walk_interpreter.rs:201-219 | two values are equal iff they are the same value: nil equals only nil, different variants never match, same variants compare by contents |
| `Interpreter.EvaluateUnary` | src/frontend/parse/tree_walk_interpreter.rs:173-191 | `!` gives `Boolean(not truthy)` and never fails; `-` fails iff its operand is not a Number, with "Operands must be numbers." and the operator; other operators fail with "Unexpected operator"; `-` on a Number gives its negation |
| `Interpreter.EvaluateBinary` | src/frontend/parse/tree_walk_interpreter.rs:67-171 | each failure carries the operator token and one runtime message. Division by zero iff `/` on Numbers with divisor 0. "Operands must be numbers." iff `-`, `/`, `*` on a non-Number. The `+` message iff neither Numbers nor a String operand. "Unexpected operator" iff the kind is unhandled. `==`/`!=` give equality and its negation. `>`, `>=`, `<`, `<=` on two Numbers give the ordering of their values, and on anything else false. `+` with a String on the left appends the right side's display text (`nil` for absence); otherwise, unless both are Numbers, a String on the right gets the left side's display text in front |
| `Interpreter.Evaluate` | src/frontend/parse/tree_walk_interpreter.rs:35-65 | a failure always carries one of the operator tokens of the tree and one of the runtime messages |
| `Interpreter.Interpret` | src/frontend/parse/tree_walk_interpreter.rs:31-33 | interpreting a tree fails only at one of its operator tokens |
| `EvaluationFacts.TotalEvaluates` | src/frontend/parse/tree_walk_interpreter.rs:135-191 | a tree built only from literals, groupings, ternaries, `!`, comparisons and equalities always evaluates |
| `EvaluationFacts.ParsedTreeFailures` | src/frontend/parse/tree_walk_interpreter.rs:67-191 | a tree the parser can build fails only at `-`, `+`, `/`, `*` or `,`; and "Unexpected operator" only at `,` |
| `EvaluationFacts.TernaryTakesOneBranch` | src/frontend/parse/tree_walk_interpreter.rs:41-53 | a ternary returns the condition's error, else exactly the branch its truthiness picks |
| `EvaluationFacts.OperandOrder` | src/frontend/parse/tree_walk_interpreter.rs:67-76 | a binary evaluates left then right and returns the first error; with both values it applies the operator |
| `EvaluationFacts.NestedGroups` | src/frontend/parse/tree_walk_interpreter.rs:57-59 | any number of groupings evaluates to the inner value |
| `EvaluationFacts.OperationAgrees` | src/frontend/parse/tree_walk_interpreter.rs:78-133 | on two Numbers, `+`, `-`, `*` and a `/` by non-zero give the arithmetic result |
| `EvaluationFacts.ArithmeticAgrees` | src/frontend/parse/tree_walk_interpreter.rs:35-191 | every tree of numbers, negations, groupings and `+ - * /` that a reference arithmetic evaluates gets that value from the interpreter |
| `EvaluationExamples.LeftAssociativeValue` | src/frontend/parse/recursive_descent.rs:40-56 | the parse of `a - b - c` evaluates to `(a - b) - c` |
| `EvaluationExamples.CommaRejected` | src/frontend/parse/tree_walk_interpreter.rs:166 | `a , b` parses, and evaluating it fails with "Unexpected operator" at the comma |
| `EvaluationExamples.ConditionalValue` | src/frontend/parse/tree_walk_interpreter.rs:41-53 | the parse of `true ? a : b` evaluates to `a` |
| `EvaluationExamples.NegationCase` | src/frontend/parse/tree_walk_interpreter.rs:256-270 | `-1` is -1 |
| `EvaluationExamples.QuotientCase` | src/frontend/parse/tree_walk_interpreter.rs:317-359 | `6 / 3` is 2 |
| `EvaluationExamples.ConcatenationCases` | src/frontend/parse/tree_walk_interpreter.rs:295-315 | with 1 shown as "1": "hello" + 1 is "hello1", 1 + "hello" is "1hello", "hello" + true is "hellotrue" |
| `EvaluationExamples.StringOrderingCase` | src/frontend/parse/tree_walk_interpreter.rs:412-468 | `"hello" < "world"` is false, not an error |
| `EvaluationExamples.DivisionByZeroCase` | src/frontend/parse/tree_walk_interpreter.rs:512-531 | `1 / 0` fails with "Division by zero." at the slash |
| `AstPrinter.Parenthesise` | src/frontend/parse/ast_printer.rs:30-40 | the buffer loop builds `(`, the name, one space before each printed tree in order, and `)` |
| `AstPrinter.Parenthesised` | src/frontend/parse/ast_printer.rs:30-40 | the result starts with `(` and ends with `)` |
| `AstPrinter.Print` | src/frontend/parse/ast_printer.rs:6-28 | every non-literal node prints starting with `(` and ending with `)` |
| `AstPrinter.BinaryForm` | src/frontend/parse/ast_printer.rs:8-12 | a Binary prints as `(` lexeme ` ` left ` ` right `)` |
| `AstPrinter.UnaryForm` | src/frontend/parse/ast_printer.rs:26 | a Unary prints as `(` lexeme ` ` operand `)` |
| `AstPrinter.GroupingForm` | src/frontend/parse/ast_printer.rs:18 | a Grouping prints as `(group X)` |
| `AstPrinter.TernaryForm` | src/frontend/parse/ast_printer.rs:13-17 | a Ternary prints as `(ternary C T E)` |
| `AstPrinter.BareLiterals` | src/frontend/parse/ast_printer.rs:19-25 | literals print bare: a string without quotes, an identifier as its name, a number as its display text, `true`, `false`, and `nil` for absence |
| `AstPrinter.Brackets` | src/frontend/parse/ast_printer.rs:6-40 | with no parentheses in lexemes or literal texts, the output has exactly one `(` and one `)` per operator, grouping and ternary node |
| `AstPrinter.ProductExample` | src/frontend/parse/ast_printer.rs:48-74 | `-123 * (45.67)` prints as `(* (- 123) (group 45.67))` when 123 and 45.67 display as "123" and "45.67" |

## Left out

- `src/frontend/interactive.rs` is not part of this model. Its stdin thread, channel, Ctrl-C handler and quit flag are concurrency and I/O.
- `src/main.rs`, `src/lib.rs` and `src/frontend/mod.rs` are not part of this model. They handle command-line arguments, file reading, printing and the wiring between stages.
- `src/frontend/error_report.rs` and `src/frontend/script_error.rs` are not part of this model. They are display formatting and error conversions. Lexical errors are structured data (`Lexer.LexMessage`) rather than formatted text.
- Numbers are Dafny reals, not IEEE-754 doubles. Rounding, NaN, infinities and signed zero are not modelled, so `-0.0` and `0.0` coincide and `*`, `/` are exact.
- How a number is displayed (Rust's `Display` for `f64`) is a parameter `numberText` of the interpreter and the printer, not a definition.
- `Numbers.ParseFloat`: the scanner reads number lexemes with a plain decimal reader. It accepts exactly the lexemes the scanner can produce, which are digits with at most one point. Exponents, signs, `inf` and `nan`, which Rust's `f64` parser also accepts, never occur in scanner output and are not modelled.
- `Parsing.NumbersParse`: the parser reads Number lexemes through a reader parameter. Where the code would panic on an unreadable lexeme, the model requires every Number lexeme to read.
- Graphemes are single characters, and positions are grapheme indices rather than the byte offsets that `get_lexeme` slices by. Unicode grapheme segmentation is not modelled. Three consequences differ from the code:
  - In the code `"\r\n"` is one grapheme that matches neither the `"\r"` arm nor the `"\n"` arm (`src/frontend/lex/scanner.rs:82-85`). It becomes an invalid-token error and does not bump the line counter. In the model `\r` is a blank and `\n` a newline.
  - In the code a `//` comment skips past every CRLF to the end of input, because its skip loop stops only at a lone `"\n"` grapheme (`src/frontend/lex/scanner.rs:74`). In the model it stops at the first `\n`.
  - In the code `get_lexeme` slices up to `lexeme_current + 1` bytes (`src/frontend/lex/scanner.rs:121`), which panics when an identifier ends in a multi-byte letter such as `é`. In the model letters are ASCII, so `é` is an invalid token.
- `Lexer.IsAlpha`: letters are ASCII letters and `_`. Unicode alphabetic and alphanumeric classes are not modelled.
- The "Unexpected expression" errors of the interpreter's grouping, binary and unary helpers are not modelled. The dispatch in `evaluate_expression` never reaches them.
- The `Token` values in the interpreter's errors are compared as values. Rust's cloning is invisible here.
- `Parsing.Parser.Synchronise` is dead code in the source. It is modelled and proved, but nothing calls it.
- `Parsing.Parser.Advance` and `Parsing.Parser.Synchronise` require that the cursor is not at `Eof` or is past the first token. In the code, `get_previous` computes `current - 1` and panics on a list whose first token is `Eof` (`src/frontend/parse/recursive_descent.rs:197-203, 213-215`). No live caller of `advance` reaches that case. The unused `syncronise` does reach it on a list holding only `Eof`.
- `Parsing.Ready`: the parser is modelled only on token lists that end in `Eof`. The code also feeds it the scanner's output, which ends in `EOF` (`src/frontend/mod.rs:37-41`). There no rule matches the `EOF` token, so the cursor never passes it, although `is_at_end` never fires. The model does not cover parsing such a list.
- `Interpreter.Evaluate`: the contract states where failures come from, not which one. The exact outcome is given by `EvaluateBinary` and `EvaluateUnary` and the `EvaluationFacts` lemmas.
