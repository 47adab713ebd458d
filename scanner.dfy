/** The scanner: one left-to-right pass over the source's graphemes that
    produces tokens and lexical errors, always ending with an `EOF` token.
    Each grapheme is one `char`, and positions count graphemes.

    The pass is specified by `Scan`, which repeats `ScanStep` (what one turn
    of the main loop emits, where it leaves the iterator and the line counter)
    until the input is used up. `Scanner.ScanTokens` is the imperative scanner,
    proved to produce exactly `Scan(source)`. */
module Lexer {
  import W = Wrappers
  import opened Tokens
  import opened Text
  import opened Numbers

  /** What a lexical error reports. The source renders these as text; the
      rendering is not modelled. */
  datatype LexMessage =
    | InvalidToken(line: nat, pos: nat, grapheme: char)
    | UnterminatedString(line: nat, pos: nat)
    | InvalidNumber(line: nat, pos: nat)

  datatype LoxErrorReport = LoxErrorReport(lineNumber: nat, location: string, message: LexMessage)

  /** One entry of the scanner's output: a token or a lexical error. */
  datatype PossibleToken = Ok(token: Token) | Err(report: LoxErrorReport)

  /** Alphabetic or underscore (ASCII letters stand for Unicode alphabetics). */
  predicate IsAlpha(g: char)
  {
    'a' <= g <= 'z' || 'A' <= g <= 'Z' || g == '_'
  }

  predicate IsAlphanumeric(g: char)
  {
    IsAlpha(g) || IsDigit(g)
  }

  // ---------------------------------------------------------------------
  // Where the inner loops stop
  // ---------------------------------------------------------------------

  /** Index of the first `c` at or after `j`, or `|src|` when there is none. */
  function FindFrom(src: string, j: nat, c: char): (k: nat)
    requires j <= |src|
    ensures j <= k <= |src|
    ensures k < |src| ==> src[k] == c
    ensures forall m :: j <= m < k ==> src[m] != c
    decreases |src| - j
  {
    if j == |src| || src[j] == c then j else FindFrom(src, j + 1, c)
  }

  /** Where a number that continues at `j` ends: digits, and one decimal
      point unless `hasDecimal` says one was already taken. */
  function NumberEnd(src: string, j: nat, hasDecimal: bool): (k: nat)
    requires j <= |src|
    ensures j <= k <= |src|
    ensures forall m :: j <= m < k ==> IsDigit(src[m]) || src[m] == '.'
    ensures (if hasDecimal then 1 else 0) + Count(src[j..k], '.') <= 1
    ensures k < |src| ==> !IsDigit(src[k]) && (src[k] == '.' ==> hasDecimal || Count(src[j..k], '.') == 1)
    decreases |src| - j
  {
    if j < |src| && (IsDigit(src[j]) || (src[j] == '.' && !hasDecimal)) then
      var k := NumberEnd(src, j + 1, hasDecimal || src[j] == '.');
      assert src[j..k] == [src[j]] + src[j + 1..k];
      CountConcat([src[j]], src[j + 1..k], '.');
      k
    else
      j
  }

  /** Where an identifier that continues at `j` ends. */
  function IdentifierEnd(src: string, j: nat): (k: nat)
    requires j <= |src|
    ensures j <= k <= |src|
    ensures forall m :: j <= m < k ==> IsAlphanumeric(src[m])
    ensures k < |src| ==> !IsAlphanumeric(src[k])
    decreases |src| - j
  {
    if j < |src| && IsAlphanumeric(src[j]) then IdentifierEnd(src, j + 1) else j
  }

  // ---------------------------------------------------------------------
  // One turn of the main loop
  // ---------------------------------------------------------------------

  /** What one turn emits, where the grapheme iterator stands after it, and
      the line counter after it. */
  datatype Step = Step(emitted: seq<PossibleToken>, next: nat, line: nat)

  function Plain(tokenType: TokenType, lexeme: string, line: nat): PossibleToken
  {
    Ok(Token(tokenType, lexeme, W.None, line))
  }

  /** A one-grapheme token. */
  function SingleStep(src: string, i: nat, line: nat, tokenType: TokenType): Step
    requires i < |src|
  {
    Step([Plain(tokenType, [src[i]], line)], i + 1, line)
  }

  /** `!`, `=`, `<` or `>`: the two-grapheme token when `=` follows. */
  function PairStep(src: string, i: nat, line: nat, onTrue: TokenType, onFalse: TokenType): Step
    requires i < |src|
  {
    if i + 1 < |src| && src[i + 1] == '=' then
      Step([Plain(onTrue, [src[i], src[i + 1]], line)], i + 2, line)
    else
      SingleStep(src, i, line, onFalse)
  }

  /** `/`: a `//` comment is skipped up to (not including) the next newline
      and bumps the line counter; otherwise a Slash token. */
  function SlashStep(src: string, i: nat, line: nat): Step
    requires i < |src|
  {
    if i + 1 < |src| && src[i + 1] == '/' then
      Step([], FindFrom(src, i + 2, '\n'), line + 1)
    else
      SingleStep(src, i, line, Slash)
  }

  /** A string opened by the quote at `i`. */
  function StringStep(src: string, i: nat, line: nat): Step
    requires i < |src|
  {
    var close := FindFrom(src, i + 1, '"');
    var content := src[i + 1..close];
    var endLine := line + Count(content, '\n');
    if close < |src| then
      Step([Ok(Token(TokenType.String, content, W.Some(Literal.String(content)), endLine))], close + 1, endLine)
    else
      Step([Err(LoxErrorReport(endLine, "", UnterminatedString(endLine, i)))], |src|, endLine)
  }

  /** A number starting with the digit at `i`. */
  function NumberStep(src: string, i: nat, line: nat): Step
    requires i < |src|
  {
    var k := NumberEnd(src, i + 1, false);
    var lexeme := src[i..k];
    match ParseFloat(lexeme)
    case None => Step([Err(LoxErrorReport(line, "", InvalidNumber(line, i)))], k, line)
    case Some(v) => Step([Ok(Token(TokenType.Number, lexeme, W.Some(Literal.Number(v)), line))], k, line)
  }

  /** An identifier starting at `i`: always kind Identifier, never a keyword. */
  function IdentifierStep(src: string, i: nat, line: nat): Step
    requires i < |src|
  {
    var k := IdentifierEnd(src, i + 1);
    var lexeme := src[i..k];
    Step([Ok(Token(TokenType.Identifier, lexeme, W.Some(Literal.Identifier(lexeme)), line))], k, line)
  }

  function InvalidStep(src: string, i: nat, line: nat): Step
    requires i < |src|
  {
    Step([Err(LoxErrorReport(line, "", InvalidToken(line, i, src[i])))], i + 1, line)
  }

  /** Which arm of the main loop's `match` a grapheme takes. */
  datatype Arm =
    | SingleArm(kind: TokenType)
    | PairArm(onTrue: TokenType, onFalse: TokenType)
    | SlashArm
    | BlankArm
    | NewlineArm
    | QuoteArm
    | DigitArm
    | AlphaArm
    | InvalidArm

  function ArmOf(g: char): Arm
  {
    match g
    case '(' => SingleArm(LeftParen)
    case ')' => SingleArm(RightParen)
    case '{' => SingleArm(LeftBrace)
    case '}' => SingleArm(RightBrace)
    case ',' => SingleArm(Comma)
    case '.' => SingleArm(Dot)
    case '-' => SingleArm(Minus)
    case '+' => SingleArm(Plus)
    case ';' => SingleArm(Semicolon)
    case '*' => SingleArm(Star)
    case '!' => PairArm(BangEqual, Bang)
    case '=' => PairArm(EqualEqual, Equal)
    case '<' => PairArm(LessEqual, Less)
    case '>' => PairArm(GreaterEqual, Greater)
    case '/' => SlashArm
    case ' ' => BlankArm
    case '\r' => BlankArm
    case '\t' => BlankArm
    case '\n' => NewlineArm
    case '"' => QuoteArm
    case _ => if IsDigit(g) then DigitArm else if IsAlpha(g) then AlphaArm else InvalidArm
  }

  /** One turn of the main loop on the grapheme at `i`. */
  function ScanStep(src: string, i: nat, line: nat): (s: Step)
    requires i < |src|
    ensures i < s.next <= |src| && line <= s.line
  {
    match ArmOf(src[i])
    case SingleArm(kind) => SingleStep(src, i, line, kind)
    case PairArm(onTrue, onFalse) => PairStep(src, i, line, onTrue, onFalse)
    case SlashArm => SlashStep(src, i, line)
    case BlankArm => Step([], i + 1, line)
    case NewlineArm => Step([], i + 1, line + 1)
    case QuoteArm => StringStep(src, i, line)
    case DigitArm => NumberStep(src, i, line)
    case AlphaArm => IdentifierStep(src, i, line)
    case InvalidArm => InvalidStep(src, i, line)
  }

  /** The graphemes of the fallback arm. */
  lemma ArmOfDigit(g: char)
    requires IsDigit(g)
    ensures ArmOf(g) == DigitArm
  {
  }

  lemma ArmOfAlpha(g: char)
    requires IsAlpha(g)
    ensures ArmOf(g) == AlphaArm
  {
  }

  // ---------------------------------------------------------------------
  // The whole pass
  // ---------------------------------------------------------------------

  function EofToken(line: nat): PossibleToken
  {
    Plain(EOF, "", line)
  }

  /** What the scanner emits from grapheme `i` on, with the line counter at
      `line`: the turns' output followed by the EOF token. */
  function ScanFrom(src: string, i: nat, line: nat): seq<PossibleToken>
    requires i <= |src|
    decreases |src| - i
  {
    if i == |src| then
      [EofToken(line)]
    else
      var s := ScanStep(src, i, line);
      s.emitted + ScanFrom(src, s.next, s.line)
  }

  /** The line counter once the input is used up. */
  function FinalLine(src: string, i: nat, line: nat): nat
    requires i <= |src|
    decreases |src| - i
  {
    if i == |src| then line else var s := ScanStep(src, i, line); FinalLine(src, s.next, s.line)
  }

  /** `Scanner::scan_tokens` on `src`: the line counter starts at 0. */
  function Scan(src: string): seq<PossibleToken>
  {
    ScanFrom(src, 0, 0)
  }

  // ---------------------------------------------------------------------
  // The imperative scanner
  // ---------------------------------------------------------------------

  lemma ScanFromUnfold(src: string, i: nat, line: nat)
    requires i < |src|
    ensures var s := ScanStep(src, i, line);
      ScanFrom(src, i, line) == s.emitted + ScanFrom(src, s.next, s.line)
  {
  }

  /** A turn known to emit `emitted` and stop at `next` with the counter at
      `newLine`: the pass is that output, then the pass from there. */
  lemma ScanFromTurn(src: string, i: nat, line: nat, emitted: seq<PossibleToken>, next: nat, newLine: nat)
    requires i < |src| && ScanStep(src, i, line) == Step(emitted, next, newLine)
    ensures next <= |src|
    ensures ScanFrom(src, i, line) == emitted + ScanFrom(src, next, newLine)
  {
    ScanFromUnfold(src, i, line);
  }

  /** A turn that emits nothing leaves the output to the rest of the pass. */
  lemma ScanFromSilentTurn(src: string, i: nat, line: nat, next: nat, newLine: nat)
    requires i < |src| && ScanStep(src, i, line) == Step([], next, newLine)
    ensures next <= |src|
    ensures ScanFrom(src, i, line) == ScanFrom(src, next, newLine)
  {
    ScanFromTurn(src, i, line, [], next, newLine);
    EmptyEmitted(ScanFrom(src, next, newLine));
  }

  lemma EmptyEmitted(rest: seq<PossibleToken>)
    ensures [] + rest == rest
  {
  }

  lemma FinalLineUnfold(src: string, i: nat, line: nat)
    requires i < |src|
    ensures var s := ScanStep(src, i, line); FinalLine(src, i, line) == FinalLine(src, s.next, s.line)
  {
  }

  /** One turn of the main loop moves its output from what is left to do
      onto what is done. */
  lemma ScanFromAdvance(src: string, i: nat, line: nat, before: seq<PossibleToken>,
                        after: seq<PossibleToken>, next: nat, newLine: nat)
    requires i < |src|
    requires var s := ScanStep(src, i, line); after == before + s.emitted && next == s.next && newLine == s.line
    ensures next <= |src|
    ensures before + ScanFrom(src, i, line) == after + ScanFrom(src, next, newLine)
  {
    ScanFromUnfold(src, i, line);
    EmittedAssoc(before, ScanStep(src, i, line).emitted, ScanFrom(src, next, newLine));
  }

  lemma EmittedAssoc(a: seq<PossibleToken>, b: seq<PossibleToken>, c: seq<PossibleToken>)
    ensures a + (b + c) == (a + b) + c
  {
  }

  lemma CountSnoc(s: string, j: nat, k: nat, c: char)
    requires j <= k < |s|
    ensures Count(s[j..k + 1], c) == Count(s[j..k], c) + (if s[k] == c then 1 else 0)
  {
    assert s[j..k + 1] == s[j..k] + [s[k]];
    CountConcat(s[j..k], [s[k]], c);
  }

  class Scanner {
    var lineNumber: nat
    var lexemeStart: nat
    var lexemeCurrent: nat
    var tokens: seq<PossibleToken>

    constructor ()
      ensures lineNumber == 0 && lexemeStart == 0 && lexemeCurrent == 0 && tokens == []
    {
      lineNumber, lexemeStart, lexemeCurrent, tokens := 0, 0, 0, [];
    }

    /** The graphemes from the lexeme's start through the current one. */
    function GetLexeme(src: string): string
      reads this`lexemeStart, this`lexemeCurrent
      requires lexemeStart <= lexemeCurrent + 1 <= |src|
    {
      src[lexemeStart..lexemeCurrent + 1]
    }

    /** Scans the whole source. The grapheme iterator is the index `next` of
        the grapheme it yields next; each helper takes and returns it. */
    static method ScanTokens(source: string) returns (result: seq<PossibleToken>)
      ensures result == Scan(source)
    {
      var scanner := new Scanner();
      var next: nat := 0;
      while next < |source|
        invariant next <= |source|
        invariant scanner.tokens + ScanFrom(source, next, scanner.lineNumber) == Scan(source)
        decreases |source| - next
      {
        ghost var before, line, i := scanner.tokens, scanner.lineNumber, next;
        next := scanner.ScanGrapheme(source, next);
        ScanFromAdvance(source, i, line, before, scanner.tokens, next, scanner.lineNumber);
      }
      scanner.tokens := scanner.tokens + [Plain(EOF, "", scanner.lineNumber)];
      result := scanner.tokens;
    }

    /** One turn of the main loop: takes the grapheme at `next` and scans
        the token it starts. */
    method ScanGrapheme(source: string, next: nat) returns (next': nat)
      requires next < |source|
      modifies this
      ensures var s := ScanStep(source, next, old(lineNumber));
        tokens == old(tokens) + s.emitted && next' == s.next && lineNumber == s.line
    {
      ghost var s := ScanStep(source, next, lineNumber);
      var g := source[next];
      lexemeStart, lexemeCurrent := next, next;
      next' := next + 1;
      match ArmOf(g)
      case SingleArm(kind) =>
        assert GetLexeme(source) == [g];
        AddToken(kind, source);
      case PairArm(onTrue, onFalse) => next' := AddIfNextMatches(source, next', '=', onTrue, onFalse);
      case SlashArm =>
        var matched;
        matched, next' := NextMatches(source, next', '/');
        if matched {
          while next' < |source| && source[next'] != '\n'
            invariant next + 2 <= next' <= |source|
            invariant FindFrom(source, next', '\n') == FindFrom(source, next + 2, '\n')
            decreases |source| - next'
          {
            next' := next' + 1;
          }
          lineNumber := lineNumber + 1;
        } else {
          assert GetLexeme(source) == [g];
          AddToken(Slash, source);
        }
      case BlankArm =>
      case NewlineArm => lineNumber := lineNumber + 1;
      case QuoteArm => next' := ParseString(source, next');
      case DigitArm => next' := ParseNumber(source, next');
      case AlphaArm => next' := ParseIdentifier(source, next');
      case InvalidArm =>
        tokens := tokens + [Err(LoxErrorReport(lineNumber, "", InvalidToken(lineNumber, next, g)))];
    }

    method AddToken(tokenType: TokenType, src: string)
      requires lexemeStart <= lexemeCurrent < |src|
      modifies this`tokens
      ensures tokens == old(tokens) + [Plain(tokenType, GetLexeme(src), lineNumber)]
    {
      tokens := tokens + [Plain(tokenType, GetLexeme(src), lineNumber)];
    }

    method AddLiteralToken(tokenType: TokenType, literal: Literal, src: string)
      requires lexemeStart <= lexemeCurrent + 1 <= |src|
      modifies this`tokens
      ensures tokens == old(tokens) + [Ok(Token(tokenType, GetLexeme(src), W.Some(literal), lineNumber))]
    {
      tokens := tokens + [Ok(Token(tokenType, GetLexeme(src), W.Some(literal), lineNumber))];
    }

    /** Takes the next grapheme when it is `expected`. */
    method NextMatches(src: string, next: nat, expected: char) returns (matched: bool, next': nat)
      requires next <= |src|
      modifies this`lexemeCurrent
      ensures matched <==> next < |src| && src[next] == expected
      ensures next' == if matched then next + 1 else next
      ensures lexemeCurrent == if matched then next else old(lexemeCurrent)
    {
      matched, next' := false, next;
      if next < |src| && src[next] == expected {
        lexemeCurrent := next;
        matched, next' := true, next + 1;
      }
    }

    /** The closure `add_if_next_matches` of `scan_tokens`. */
    method AddIfNextMatches(src: string, next: nat, expected: char, onTrue: TokenType, onFalse: TokenType)
      returns (next': nat)
      requires 1 <= next <= |src| && lexemeStart == lexemeCurrent == next - 1 && expected == '='
      modifies this`tokens, this`lexemeCurrent
      ensures var s := PairStep(src, next - 1, lineNumber, onTrue, onFalse);
        tokens == old(tokens) + s.emitted && next' == s.next
    {
      var matched;
      matched, next' := NextMatches(src, next, expected);
      if matched {
        assert GetLexeme(src) == [src[next - 1], src[next]];
        AddToken(onTrue, src);
      } else {
        assert GetLexeme(src) == [src[next - 1]];
        AddToken(onFalse, src);
      }
    }

    /** Scans a string whose opening quote was just taken. */
    method ParseString(src: string, next: nat) returns (next': nat)
      requires 1 <= next <= |src| && lexemeStart == lexemeCurrent == next - 1
      modifies this
      ensures var s := StringStep(src, next - 1, old(lineNumber));
        tokens == old(tokens) + s.emitted && next' == s.next && lineNumber == s.line
    {
      next' := next;
      while next' < |src|
        invariant next <= next' <= |src|
        invariant lexemeStart == next - 1
        invariant lineNumber == old(lineNumber) + Count(src[next..next'], '\n')
        invariant forall m :: next <= m < next' ==> src[m] != '"'
        invariant tokens == old(tokens)
        decreases |src| - next'
      {
        var g := src[next'];
        lexemeCurrent := next';
        CountSnoc(src, next, next', '\n');
        next' := next' + 1;
        if g == '\n' {
          lineNumber := lineNumber + 1;
          continue;
        }
        if g == '"' {
          // Trim the quotes
          lexemeStart := lexemeStart + 1;
          lexemeCurrent := lexemeCurrent - 1;
          AddLiteralToken(TokenType.String, Literal.String(GetLexeme(src)), src);
          lexemeCurrent := lexemeCurrent + 1;
          lexemeStart := lexemeStart - 1;
          return;
        }
      }
      tokens := tokens + [Err(LoxErrorReport(lineNumber, "", UnterminatedString(lineNumber, lexemeStart)))];
    }

    /** Scans a number whose first digit was just taken. */
    method ParseNumber(src: string, next: nat) returns (next': nat)
      requires 1 <= next <= |src| && lexemeStart == lexemeCurrent == next - 1
      modifies this`tokens, this`lexemeCurrent
      ensures var s := NumberStep(src, next - 1, lineNumber);
        tokens == old(tokens) + s.emitted && next' == s.next
    {
      next' := SkipNumber(src, next);
      assert GetLexeme(src) == src[next - 1..next'];
      var parsed := ParseFloat(GetLexeme(src));
      if parsed.None? {
        tokens := tokens + [Err(LoxErrorReport(lineNumber, "", InvalidNumber(lineNumber, lexemeStart)))];
        return;
      }
      AddLiteralToken(TokenType.Number, Literal.Number(parsed.value), src);
    }

    /** The loop of `ParseNumber`: takes digits and at most one point. */
    method SkipNumber(src: string, next: nat) returns (next': nat)
      requires 1 <= next <= |src| && lexemeCurrent == next - 1
      modifies this`lexemeCurrent
      ensures next' == NumberEnd(src, next, false) && lexemeCurrent == next' - 1
    {
      var hasDecimal := false;
      next' := next;
      while next' < |src|
        invariant next <= next' <= |src|
        invariant lexemeCurrent == next' - 1
        invariant NumberEnd(src, next', hasDecimal) == NumberEnd(src, next, false)
        decreases |src| - next'
      {
        var g := src[next'];
        if g == '.' {
          if hasDecimal {
            break;
          }
          hasDecimal := true;
        } else if !IsDigit(g) {
          break;
        }
        lexemeCurrent := next';
        next' := next' + 1;
      }
    }

    /** Scans an identifier whose first grapheme was just taken. */
    method ParseIdentifier(src: string, next: nat) returns (next': nat)
      requires 1 <= next <= |src| && lexemeStart == lexemeCurrent == next - 1
      modifies this`tokens, this`lexemeCurrent
      ensures var s := IdentifierStep(src, next - 1, lineNumber);
        tokens == old(tokens) + s.emitted && next' == s.next
    {
      next' := next;
      while next' < |src| && IsAlphanumeric(src[next'])
        invariant next <= next' <= |src|
        invariant lexemeCurrent == next' - 1
        invariant IdentifierEnd(src, next') == IdentifierEnd(src, next)
        invariant tokens == old(tokens)
        decreases |src| - next'
      {
        lexemeCurrent := next';
        next' := next' + 1;
      }
      assert next' == IdentifierEnd(src, next);
      var literal := GetLexeme(src);
      AddLiteralToken(TokenType.Identifier, Literal.Identifier(literal), src);
    }
  }
}
