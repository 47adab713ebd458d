/** What the scanner promises about its output, stated on `Scan`, which
    `Scanner.ScanTokens` is proved to compute. */
module LexerFacts {
  import W = Wrappers
  import opened Tokens
  import opened Text
  import opened Numbers
  import opened Lexer

  /** The kinds of the operator and punctuation tokens, which carry no
      literal. */
  predicate PlainKind(t: TokenType)
  {
    t in {LeftParen, RightParen, LeftBrace, RightBrace, Comma, Dot, Minus, Plus, Semicolon,
          Slash, Star, Bang, BangEqual, Equal, EqualEqual, Greater, GreaterEqual, Less, LessEqual}
  }

  /** The kinds a scanner turn can emit: no keywords, no `?` or `:`, and no
      terminator. */
  predicate ScannedKind(t: TokenType)
  {
    PlainKind(t) || t in {TokenType.Identifier, TokenType.String, TokenType.Number}
  }

  /** An entry a scanner turn can emit. Numbers are plain decimals carrying
      their parsed value, identifiers carry their own text, strings carry
      their quote-free content, other tokens carry no literal, and no entry
      reports an invalid number. */
  predicate WellFormedEntry(e: PossibleToken)
  {
    match e
    case Ok(t) =>
      && ScannedKind(t.tokenType)
      && (t.tokenType == TokenType.Number ==>
            && |t.lexeme| > 0 && IsDigit(t.lexeme[0]) && IsDecimal(t.lexeme)
            && t.literal.Some? && t.literal.value.Number?
            && ParseFloat(t.lexeme) == W.Some(t.literal.value.number))
      && (t.tokenType == TokenType.Identifier ==>
            && |t.lexeme| > 0 && IsAlpha(t.lexeme[0])
            && (forall m :: 0 <= m < |t.lexeme| ==> IsAlphanumeric(t.lexeme[m]))
            && t.literal == W.Some(Literal.Identifier(t.lexeme)))
      && (t.tokenType == TokenType.String ==>
            '"' !in t.lexeme && t.literal == W.Some(Literal.String(t.lexeme)))
      && (t.tokenType !in {TokenType.Number, TokenType.Identifier, TokenType.String} ==>
            t.literal == W.None)
    case Err(r) => !r.message.InvalidNumber?
  }

  predicate IsEofEntry(e: PossibleToken)
  {
    e.Ok? && e.token.tokenType == EOF
  }

  // ---------------------------------------------------------------------
  // Numbers
  // ---------------------------------------------------------------------

  lemma {:induction false} CountPositiveMember(s: string, c: char)
    requires Count(s, c) > 0
    ensures c in s
  {
    if c !in s {
      CountAbsent(s, c);
    }
  }

  /** A number takes the digit at `i`, then digits and at most one point; it
      stops at the first grapheme that is neither, or at a second point.
      The lexeme always parses, so the scanner never reports an invalid
      number. */
  lemma NumberToken(src: string, i: nat, line: nat)
    requires i < |src| && IsDigit(src[i])
    ensures var s := NumberStep(src, i, line); var lexeme := src[i..s.next];
      && IsDecimal(lexeme)
      && ParseFloat(lexeme).Some?
      && s.emitted == [Ok(Token(TokenType.Number, lexeme, W.Some(Literal.Number(ParseFloat(lexeme).value)), line))]
      && s.line == line
      && (s.next < |src| ==> !IsDigit(src[s.next]) && (src[s.next] == '.' ==> '.' in lexeme))
  {
    var k := NumberEnd(src, i + 1, false);
    var lexeme := src[i..k];
    assert lexeme == [src[i]] + src[i + 1..k];
    CountConcat([src[i]], src[i + 1..k], '.');
    assert IsDigit(lexeme[0]);
    assert IsDecimal(lexeme);
    ParseFloatAcceptsDecimals(lexeme);
    if k < |src| && src[k] == '.' {
      CountPositiveMember(src[i + 1..k], '.');
      assert '.' in lexeme;
    }
  }

  // ---------------------------------------------------------------------
  // What one turn does, grapheme by grapheme
  // ---------------------------------------------------------------------

  /** The kind of each one-grapheme token, as a table. */
  function SingleKind(g: char): TokenType
    requires g in "(){},.-+;*"
  {
    match g
    case '(' => LeftParen
    case ')' => RightParen
    case '{' => LeftBrace
    case '}' => RightBrace
    case ',' => Comma
    case '.' => Dot
    case '-' => Minus
    case '+' => Plus
    case ';' => Semicolon
    case _ => Star
  }

  /** The kind of `!`, `=`, `<` or `>`, with or without a following `=`. */
  function OperatorKind(g: char, followedByEqual: bool): TokenType
    requires g in "!=<>"
  {
    match g
    case '!' => if followedByEqual then BangEqual else Bang
    case '=' => if followedByEqual then EqualEqual else Equal
    case '<' => if followedByEqual then LessEqual else Less
    case _ => if followedByEqual then GreaterEqual else Greater
  }

  /** The graphemes a scanner turn knows what to do with. */
  predicate Recognised(g: char)
  {
    g in "(){},.-+;*!=<>/ \r\t\n\"" || IsDigit(g) || IsAlpha(g)
  }

  /** A one-grapheme token is emitted with that grapheme as its lexeme. */
  lemma SingleTurn(src: string, i: nat, line: nat)
    requires i < |src| && src[i] in "(){},.-+;*"
    ensures ScanStep(src, i, line) == Step([Plain(SingleKind(src[i]), [src[i]], line)], i + 1, line)
  {
  }

  /** `!`, `=`, `<` and `>` take a following `=` into one two-grapheme
      token; otherwise they are one-grapheme tokens. */
  lemma OperatorTurn(src: string, i: nat, line: nat)
    requires i < |src| && src[i] in "!=<>"
    ensures var long := i + 1 < |src| && src[i + 1] == '=';
      var next := if long then i + 2 else i + 1;
      ScanStep(src, i, line) == Step([Plain(OperatorKind(src[i], long), src[i..next], line)], next, line)
  {
    assert src[i..i + 1] == [src[i]];
    if i + 1 < |src| {
      assert src[i..i + 2] == [src[i], src[i + 1]];
    }
  }

  /** Space, carriage return and tab emit nothing. */
  lemma BlankTurn(src: string, i: nat, line: nat)
    requires i < |src| && src[i] in {' ', '\r', '\t'}
    ensures ScanStep(src, i, line) == Step([], i + 1, line)
  {
  }

  /** A newline emits nothing and bumps the line counter. */
  lemma NewlineTurn(src: string, i: nat, line: nat)
    requires i < |src| && src[i] == '\n'
    ensures ScanStep(src, i, line) == Step([], i + 1, line + 1)
  {
  }

  /** `//` skips to, not past, the next newline and bumps the line counter. */
  lemma CommentTurn(src: string, i: nat, line: nat)
    requires i + 1 < |src| && src[i] == '/' && src[i + 1] == '/'
    ensures ScanStep(src, i, line) == Step([], FindFrom(src, i + 2, '\n'), line + 1)
  {
  }

  lemma QuoteTurn(src: string, i: nat, line: nat)
    requires i < |src| && src[i] == '"'
    ensures ScanStep(src, i, line) == StringStep(src, i, line)
  {
    assert ArmOf(src[i]) == QuoteArm;
  }

  lemma DigitTurn(src: string, i: nat, line: nat)
    requires i < |src| && IsDigit(src[i])
    ensures ScanStep(src, i, line) == NumberStep(src, i, line)
  {
    ArmOfDigit(src[i]);
  }

  lemma AlphaTurn(src: string, i: nat, line: nat)
    requires i < |src| && IsAlpha(src[i])
    ensures ScanStep(src, i, line) == IdentifierStep(src, i, line)
  {
    ArmOfAlpha(src[i]);
  }

  /** An unrecognised grapheme is one error entry naming it. */
  lemma InvalidTurn(src: string, i: nat, line: nat)
    requires i < |src| && !Recognised(src[i])
    ensures ScanStep(src, i, line) == Step([Err(LoxErrorReport(line, "", InvalidToken(line, i, src[i])))], i + 1, line)
  {
    assert ArmOf(src[i]) == InvalidArm;
  }

  // ---------------------------------------------------------------------
  // Every entry is well formed
  // ---------------------------------------------------------------------

  lemma SlashTurn(src: string, i: nat, line: nat)
    requires i < |src| && src[i] == '/'
    ensures ScanStep(src, i, line) == SlashStep(src, i, line)
  {
  }

  /** The entries of a turn that emits no number, string or identifier. */
  predicate PlainEntries(emitted: seq<PossibleToken>)
  {
    forall e :: e in emitted ==>
      && (e.Ok? ==> e.token.literal == W.None && PlainKind(e.token.tokenType))
      && (e.Err? ==> e.report.message.InvalidToken?)
  }

  /** A turn on any other grapheme emits nothing, one literal-free operator
      or punctuation token, or one invalid-grapheme error. */
  lemma StepOfOther(src: string, i: nat, line: nat)
    requires i < |src| && src[i] != '"' && !IsDigit(src[i]) && !IsAlpha(src[i])
    ensures PlainEntries(ScanStep(src, i, line).emitted)
  {
    var c := src[i];
    if c in "(){},.-+;*" {
      SingleTurn(src, i, line);
    } else if c in "!=<>" {
      OperatorTurn(src, i, line);
    } else if c == '/' {
      SlashTurn(src, i, line);
    } else if c in {' ', '\r', '\t'} {
      BlankTurn(src, i, line);
    } else if c == '\n' {
      NewlineTurn(src, i, line);
    } else {
      InvalidTurn(src, i, line);
    }
  }

  lemma StringStepWellFormed(src: string, i: nat, line: nat)
    requires i < |src|
    ensures forall e :: e in StringStep(src, i, line).emitted ==> WellFormedEntry(e)
  {
    var close := FindFrom(src, i + 1, '"');
    assert '"' !in src[i + 1..close];
  }

  lemma IdentifierStepWellFormed(src: string, i: nat, line: nat)
    requires i < |src| && IsAlpha(src[i])
    ensures forall e :: e in IdentifierStep(src, i, line).emitted ==> WellFormedEntry(e)
  {
    var k := IdentifierEnd(src, i + 1);
    var lexeme := src[i..k];
    assert forall m :: 0 <= m < |lexeme| ==> IsAlphanumeric(lexeme[m]) by {
      forall m | 0 <= m < |lexeme|
        ensures IsAlphanumeric(lexeme[m])
      {
        assert lexeme[m] == src[i + m];
      }
    }
  }

  lemma QuoteStepWellFormed(src: string, i: nat, line: nat)
    requires i < |src| && src[i] == '"'
    ensures forall e :: e in ScanStep(src, i, line).emitted ==> WellFormedEntry(e)
  {
    QuoteTurn(src, i, line);
    StringStepWellFormed(src, i, line);
  }

  lemma DigitStepWellFormed(src: string, i: nat, line: nat)
    requires i < |src| && IsDigit(src[i])
    ensures forall e :: e in ScanStep(src, i, line).emitted ==> WellFormedEntry(e)
  {
    DigitTurn(src, i, line);
    NumberToken(src, i, line);
  }

  lemma AlphaStepWellFormed(src: string, i: nat, line: nat)
    requires i < |src| && IsAlpha(src[i])
    ensures forall e :: e in ScanStep(src, i, line).emitted ==> WellFormedEntry(e)
  {
    AlphaTurn(src, i, line);
    IdentifierStepWellFormed(src, i, line);
  }

  lemma OtherStepWellFormed(src: string, i: nat, line: nat)
    requires i < |src| && src[i] != '"' && !IsDigit(src[i]) && !IsAlpha(src[i])
    ensures forall e :: e in ScanStep(src, i, line).emitted ==> WellFormedEntry(e)
  {
    StepOfOther(src, i, line);
  }

  /** Every entry a turn emits is well formed. */
  lemma StepWellFormed(src: string, i: nat, line: nat)
    requires i < |src|
    ensures forall e :: e in ScanStep(src, i, line).emitted ==> WellFormedEntry(e)
  {
    var c := src[i];
    if c == '"' {
      QuoteStepWellFormed(src, i, line);
    } else if IsDigit(c) {
      DigitStepWellFormed(src, i, line);
    } else if IsAlpha(c) {
      AlphaStepWellFormed(src, i, line);
    } else {
      OtherStepWellFormed(src, i, line);
    }
  }

  /** What a turn does to the line counter: the newlines it consumed. */
  predicate CountsLines(src: string, i: nat, line: nat, s: Step)
    requires i < s.next <= |src|
  {
    s.line == line + Count(src[i..s.next], '\n')
  }

  lemma StringStepLines(src: string, i: nat, line: nat)
    requires i < |src| && src[i] == '"'
    ensures var s := StringStep(src, i, line); i < s.next <= |src| && CountsLines(src, i, line, s)
  {
    var s := StringStep(src, i, line);
    var c := src[i];
    var close := FindFrom(src, i + 1, '"');
    var content := src[i + 1..close];
    CountOne(c, '\n');
    if close < |src| {
      assert src[i..s.next] == ([c] + content) + [src[close]];
      CountConcat([c] + content, [src[close]], '\n');
      CountOne(src[close], '\n');
    } else {
      assert src[i..s.next] == [c] + content;
    }
    CountConcat([c], content, '\n');
  }

  /** A lexeme with no newline in it leaves the counter alone. */
  lemma NoNewlineLines(src: string, i: nat, line: nat, s: Step)
    requires i < s.next <= |src| && s.line == line
    requires forall m :: i <= m < s.next ==> src[m] != '\n'
    ensures CountsLines(src, i, line, s)
  {
    assert '\n' !in src[i..s.next];
    CountAbsent(src[i..s.next], '\n');
  }

  lemma ShortTurnLines(src: string, i: nat, line: nat)
    requires i < |src| && src[i] !in "/\"" && !IsDigit(src[i]) && !IsAlpha(src[i])
    ensures var s := ScanStep(src, i, line); CountsLines(src, i, line, s)
  {
    var c := src[i];
    CountOne(c, '\n');
    if c in "(){},.-+;*" {
      SingleTurn(src, i, line);
      assert src[i..i + 1] == [c];
    } else if c in "!=<>" {
      OperatorTurn(src, i, line);
      assert src[i..i + 1] == [c];
      if i + 1 < |src| && src[i + 1] == '=' {
        assert src[i..i + 2] == [c] + [src[i + 1]];
        CountConcat([c], [src[i + 1]], '\n');
        CountOne(src[i + 1], '\n');
      }
    } else if c in {' ', '\r', '\t'} {
      BlankTurn(src, i, line);
      assert src[i..i + 1] == [c];
    } else if c == '\n' {
      NewlineTurn(src, i, line);
      assert src[i..i + 1] == [c];
    } else {
      InvalidTurn(src, i, line);
      assert src[i..i + 1] == [c];
    }
  }

  /** Away from comments, a turn moves the line counter by the number of
      newlines it consumed. */
  lemma StepLines(src: string, i: nat, line: nat)
    requires i < |src| && src[i] != '/'
    ensures var s := ScanStep(src, i, line); CountsLines(src, i, line, s)
  {
    var c := src[i];
    if c == '"' {
      QuoteTurn(src, i, line);
      StringStepLines(src, i, line);
    } else if IsDigit(c) {
      DigitTurn(src, i, line);
      NoNewlineLines(src, i, line, NumberStep(src, i, line));
    } else if IsAlpha(c) {
      AlphaTurn(src, i, line);
      NoNewlineLines(src, i, line, IdentifierStep(src, i, line));
    } else {
      ShortTurnLines(src, i, line);
    }
  }

  // ---------------------------------------------------------------------
  // The whole pass
  // ---------------------------------------------------------------------

  /** Well-formed entries, then one EOF token carrying `finalLine`. */
  predicate ShapedOutput(r: seq<PossibleToken>, finalLine: nat)
  {
    && |r| >= 1 && r[|r| - 1] == EofToken(finalLine)
    && forall k :: 0 <= k < |r| - 1 ==> WellFormedEntry(r[k])
  }

  lemma ShapedPrepend(emitted: seq<PossibleToken>, rest: seq<PossibleToken>, finalLine: nat)
    requires forall e :: e in emitted ==> WellFormedEntry(e)
    requires ShapedOutput(rest, finalLine)
    ensures ShapedOutput(emitted + rest, finalLine)
  {
    var r := emitted + rest;
    forall k | 0 <= k < |r| - 1
      ensures WellFormedEntry(r[k])
    {
      if k < |emitted| {
        assert r[k] in emitted;
      } else {
        assert r[k] == rest[k - |emitted|];
      }
    }
  }

  /** From any point, the output is well-formed entries followed by one EOF
      token carrying the final line counter. */
  lemma {:induction false} ScanFromShape(src: string, i: nat, line: nat)
    requires i <= |src|
    ensures ShapedOutput(ScanFrom(src, i, line), FinalLine(src, i, line))
    decreases |src| - i
  {
    if i < |src| {
      var s := ScanStep(src, i, line);
      ScanFromShape(src, s.next, s.line);
      StepWellFormed(src, i, line);
      ShapedPrepend(s.emitted, ScanFrom(src, s.next, s.line), FinalLine(src, s.next, s.line));
      ScanFromUnfold(src, i, line);
      FinalLineUnfold(src, i, line);
    }
  }

  /** The output ends with exactly one EOF token: its lexeme is empty and its
      line is the final counter, which started at 0. */
  lemma ScanEndsWithOneEof(src: string)
    ensures var r := Scan(src);
      && |r| >= 1
      && r[|r| - 1] == Ok(Token(EOF, "", W.None, FinalLine(src, 0, 0)))
      && forall k :: 0 <= k < |r| - 1 ==> !IsEofEntry(r[k])
  {
    ScanFromShape(src, 0, 0);
  }

  /** No entry of the output reports an invalid number, every Number token
      is a plain decimal with its parsed value, and every identifier carries
      its own text. */
  lemma ScanEntriesWellFormed(src: string)
    ensures forall k :: 0 <= k < |Scan(src)| - 1 ==> WellFormedEntry(Scan(src)[k])
  {
    ScanFromShape(src, 0, 0);
  }

  lemma SuffixMembers(src: string, i: nat, j: nat)
    requires i <= j <= |src|
    ensures forall m :: j <= m < |src| ==> src[m] in src[i..]
  {
    forall m | j <= m < |src|
      ensures src[m] in src[i..]
    {
      assert src[m] == src[i..][m - i];
    }
  }

  /** With no comment in what is left, the final line counter is the start
      value plus the number of newlines. */
  lemma {:induction false} FinalLineCountsNewlines(src: string, i: nat, line: nat)
    requires i <= |src| && '/' !in src[i..]
    ensures FinalLine(src, i, line) == line + Count(src[i..], '\n')
    decreases |src| - i
  {
    if i < |src| {
      var s := ScanStep(src, i, line);
      assert src[i] in src[i..];
      StepLines(src, i, line);
      assert src[i..] == src[i..s.next] + src[s.next..];
      CountConcat(src[i..s.next], src[s.next..], '\n');
      SuffixMembers(src, i, s.next);
      FinalLineCountsNewlines(src, s.next, s.line);
      FinalLineUnfold(src, i, line);
    }
  }

  // ---------------------------------------------------------------------
  // Strings, comments, whitespace, operators, numbers and identifiers
  // ---------------------------------------------------------------------

  /** A string closed by the quote at `j` is one String token whose lexeme
      and literal are the graphemes strictly between the quotes; newlines
      inside it advance the line counter, and scanning resumes after `j`. */
  lemma TerminatedString(src: string, i: nat, j: nat, line: nat)
    requires i < j < |src| && src[i] == '"' && src[j] == '"'
    requires forall m :: i < m < j ==> src[m] != '"'
    ensures var content := src[i + 1..j]; var endLine := line + Count(content, '\n');
      ScanFrom(src, i, line)
        == [Ok(Token(TokenType.String, content, W.Some(Literal.String(content)), endLine))]
           + ScanFrom(src, j + 1, endLine)
  {
    assert FindFrom(src, i + 1, '"') == j;
    var content := src[i + 1..j];
    var endLine := line + Count(content, '\n');
    var entry := Ok(Token(TokenType.String, content, W.Some(Literal.String(content)), endLine));
    assert StringStep(src, i, line) == Step([entry], j + 1, endLine);
    QuoteTurn(src, i, line);
    ScanFromTurn(src, i, line, [entry], j + 1, endLine);
  }

  lemma NoQuoteAfter(src: string, i: nat)
    requires i < |src| && '"' !in src[i + 1..]
    ensures FindFrom(src, i + 1, '"') == |src|
  {
    assert forall m :: i + 1 <= m < |src| ==> src[m] != '"' by {
      forall m | i + 1 <= m < |src|
        ensures src[m] != '"'
      {
        assert src[m] == src[i + 1..][m - (i + 1)];
      }
    }
  }

  /** A string that is never closed yields exactly one error entry, at the
      line counter reached at the end of input, and then only the EOF
      token. */
  lemma NeverClosedString(src: string, i: nat, line: nat)
    requires i < |src| && src[i] == '"' && '"' !in src[i + 1..]
    ensures var endLine := line + Count(src[i + 1..], '\n');
      ScanFrom(src, i, line)
        == [Err(LoxErrorReport(endLine, "", UnterminatedString(endLine, i))), EofToken(endLine)]
  {
    NoQuoteAfter(src, i);
    var endLine := line + Count(src[i + 1..], '\n');
    var entry := Err(LoxErrorReport(endLine, "", UnterminatedString(endLine, i)));
    assert src[i + 1..FindFrom(src, i + 1, '"')] == src[i + 1..];
    assert StringStep(src, i, line) == Step([entry], |src|, endLine);
    QuoteTurn(src, i, line);
    ScanFromTurn(src, i, line, [entry], |src|, endLine);
  }

  /** `//` skips up to, not including, the next newline and bumps the line
      counter; that newline then bumps it a second time. */
  lemma LineComment(src: string, i: nat, j: nat, line: nat)
    requires i + 2 <= j <= |src| && src[i] == '/' && src[i + 1] == '/'
    requires forall m :: i + 2 <= m < j ==> src[m] != '\n'
    requires j < |src| ==> src[j] == '\n'
    ensures ScanFrom(src, i, line) == ScanFrom(src, j, line + 1)
    ensures j < |src| ==> ScanFrom(src, i, line) == ScanFrom(src, j + 1, line + 2)
  {
    assert FindFrom(src, i + 2, '\n') == j;
    CommentTurn(src, i, line);
    ScanFromSilentTurn(src, i, line, j, line + 1);
    if j < |src| {
      NewlineTurn(src, j, line + 1);
      ScanFromSilentTurn(src, j, line + 1, j + 1, line + 2);
    }
  }

  /** Space, carriage return and tab produce nothing. */
  lemma Whitespace(src: string, i: nat, line: nat)
    requires i < |src| && src[i] in {' ', '\r', '\t'}
    ensures ScanFrom(src, i, line) == ScanFrom(src, i + 1, line)
  {
    BlankTurn(src, i, line);
    ScanFromSilentTurn(src, i, line, i + 1, line);
  }

  /** An unrecognised grapheme produces one error entry naming it, and
      scanning continues with the next grapheme. */
  lemma InvalidGrapheme(src: string, i: nat, line: nat)
    requires i < |src| && !Recognised(src[i])
    ensures ScanFrom(src, i, line)
      == [Err(LoxErrorReport(line, "", InvalidToken(line, i, src[i])))] + ScanFrom(src, i + 1, line)
  {
    InvalidTurn(src, i, line);
    ScanFromTurn(src, i, line, [Err(LoxErrorReport(line, "", InvalidToken(line, i, src[i])))], i + 1, line);
  }

  /** A one-grapheme token is emitted with that grapheme as its lexeme. */
  lemma SingleGraphemeToken(src: string, i: nat, line: nat)
    requires i < |src| && src[i] in "(){},.-+;*"
    ensures ScanFrom(src, i, line) == [Plain(SingleKind(src[i]), [src[i]], line)] + ScanFrom(src, i + 1, line)
  {
    SingleTurn(src, i, line);
    ScanFromTurn(src, i, line, [Plain(SingleKind(src[i]), [src[i]], line)], i + 1, line);
  }

  /** `!`, `=`, `<` and `>` take a following `=` into one two-grapheme token
      and consume both; otherwise they are one-grapheme tokens. */
  lemma OneOrTwoGraphemeOperator(src: string, i: nat, line: nat)
    requires i < |src| && src[i] in "!=<>"
    ensures var long := i + 1 < |src| && src[i + 1] == '=';
      var next := if long then i + 2 else i + 1;
      ScanFrom(src, i, line) == [Plain(OperatorKind(src[i], long), src[i..next], line)] + ScanFrom(src, next, line)
  {
    var long := i + 1 < |src| && src[i + 1] == '=';
    var next := if long then i + 2 else i + 1;
    OperatorTurn(src, i, line);
    ScanFromTurn(src, i, line, [Plain(OperatorKind(src[i], long), src[i..next], line)], next, line);
  }

  /** A number is emitted with the lexeme from its first digit up to where
      `NumberEnd` stops, and that lexeme's parsed value. */
  lemma NumberAt(src: string, i: nat, j: nat, line: nat)
    requires i < |src| && IsDigit(src[i]) && j == NumberEnd(src, i + 1, false)
    ensures ParseFloat(src[i..j]).Some?
    ensures ScanFrom(src, i, line)
      == [Ok(Token(TokenType.Number, src[i..j], W.Some(Literal.Number(ParseFloat(src[i..j]).value)), line))]
         + ScanFrom(src, j, line)
  {
    NumberToken(src, i, line);
    DigitTurn(src, i, line);
    var entry := Ok(Token(TokenType.Number, src[i..j], W.Some(Literal.Number(ParseFloat(src[i..j]).value)), line));
    ScanFromTurn(src, i, line, [entry], j, line);
  }

  /** An identifier is emitted with the lexeme from its first grapheme up to
      where `IdentifierEnd` stops, and that lexeme as its literal. */
  lemma IdentifierAt(src: string, i: nat, j: nat, line: nat)
    requires i < |src| && IsAlpha(src[i]) && j == IdentifierEnd(src, i + 1)
    ensures ScanFrom(src, i, line)
      == [Ok(Token(TokenType.Identifier, src[i..j], W.Some(Literal.Identifier(src[i..j])), line))]
         + ScanFrom(src, j, line)
  {
    AlphaTurn(src, i, line);
    var entry := Ok(Token(TokenType.Identifier, src[i..j], W.Some(Literal.Identifier(src[i..j])), line));
    ScanFromTurn(src, i, line, [entry], j, line);
  }
}

module LexerExamples {
  import W = Wrappers
  import opened Tokens
  import opened Numbers
  import opened Text
  import opened Lexer
  import opened LexerFacts

  function NumberEntry(lexeme: string, value: real, line: nat): PossibleToken
  {
    Ok(Token(TokenType.Number, lexeme, W.Some(Literal.Number(value)), line))
  }

  /** A lone digit, followed by neither a digit nor a point, is a Number
      token of that digit's value. */
  lemma DigitAt(src: string, i: nat, line: nat)
    requires i < |src| && IsDigit(src[i]) && (i + 1 == |src| || (!IsDigit(src[i + 1]) && src[i + 1] != '.'))
    ensures ScanFrom(src, i, line)
      == [NumberEntry([src[i]], (src[i] as int - '0' as int) as real, line)] + ScanFrom(src, i + 1, line)
  {
    assert NumberEnd(src, i + 1, false) == i + 1;
    NumberAt(src, i, i + 1, line);
    assert src[i..i + 1] == [src[i]];
    ParseWholeNumber([src[i]]);
    assert DigitsValue([src[i]]) == DigitsValue([]) * 10 + (src[i] as int - '0' as int);
  }

  predicate IsSimpleDigits(src: string)
  {
    |src| == 9 && src[0] == '1' && src[1] == ' ' && src[2] == '<' && src[3] == ' ' && src[4] == '3'
    && src[5] == ' ' && src[6] == '+' && src[7] == ' ' && src[8] == '4'
  }

  lemma SimpleDigitsLast(src: string)
    requires IsSimpleDigits(src)
    ensures ScanFrom(src, 7, 0) == [NumberEntry("4", 4.0, 0), EofToken(0)]
  {
    assert ScanFrom(src, 9, 0) == [EofToken(0)];
    DigitAt(src, 8, 0);
    Whitespace(src, 7, 0);
  }

  lemma SimpleDigitsTail(src: string)
    requires IsSimpleDigits(src)
    ensures ScanFrom(src, 3, 0) == [NumberEntry("3", 3.0, 0), Plain(Plus, "+", 0), NumberEntry("4", 4.0, 0), EofToken(0)]
  {
    SimpleDigitsLast(src);
    SingleGraphemeToken(src, 6, 0);
    Whitespace(src, 5, 0);
    DigitAt(src, 4, 0);
    Whitespace(src, 3, 0);
  }

  lemma SimpleDigitsLess(src: string)
    requires IsSimpleDigits(src)
    ensures ScanFrom(src, 2, 0)
      == [Plain(Less, "<", 0), NumberEntry("3", 3.0, 0), Plain(Plus, "+", 0), NumberEntry("4", 4.0, 0), EofToken(0)]
  {
    SimpleDigitsTail(src);
    OneOrTwoGraphemeOperator(src, 2, 0);
    assert src[2..3] == "<";
  }

  lemma SimpleDigitsHead(src: string)
    requires IsSimpleDigits(src)
    ensures ScanFrom(src, 0, 0) == [NumberEntry("1", 1.0, 0)] + ScanFrom(src, 2, 0)
  {
    Whitespace(src, 1, 0);
    DigitAt(src, 0, 0);
    assert [src[0]] == "1";
  }

  lemma SimpleDigitsOn(src: string)
    requires IsSimpleDigits(src)
    ensures ScanFrom(src, 0, 0)
      == [NumberEntry("1", 1.0, 0), Plain(Less, "<", 0), NumberEntry("3", 3.0, 0),
          Plain(Plus, "+", 0), NumberEntry("4", 4.0, 0), EofToken(0)]
  {
    SimpleDigitsLess(src);
    SimpleDigitsHead(src);
  }

  /** `1 < 3 + 4` scans to three numbers, the two operators and EOF. */
  lemma SimpleDigits()
    ensures Scan("1 < 3 + 4")
      == [NumberEntry("1", 1.0, 0), Plain(Less, "<", 0), NumberEntry("3", 3.0, 0),
          Plain(Plus, "+", 0), NumberEntry("4", 4.0, 0), EofToken(0)]
  {
    SimpleDigitsOn("1 < 3 + 4");
  }

  predicate IsDottedNumbers(src: string)
  {
    |src| == 13 && src[0] == '1' && src[1] == '.' && src[2] == '2' && src[3] == '3' && src[4] == '4'
    && src[5] == '.' && src[6] == '5' && src[7] == '6' && src[8] == '7' && src[9] == '.'
    && src[10] == '1' && src[11] == '2' && src[12] == '3'
  }

  lemma ThreeDigits(t: string)
    requires |t| == 3 && AllDigits(t)
    ensures DigitsValue(t) == 100 * (t[0] as int - '0' as int) + 10 * (t[1] as int - '0' as int) + (t[2] as int - '0' as int)
  {
    var two, one := t[..2], t[..1];
    assert two[..1] == one && one[..0] == [];
    assert DigitsValue(one) == t[0] as int - '0' as int;
    assert DigitsValue(two) == DigitsValue(one) * 10 + (t[1] as int - '0' as int);
    assert DigitsValue(t) == DigitsValue(two) * 10 + (t[2] as int - '0' as int);
  }

  /** The value of a whole part, a point and three fraction digits. */
  lemma PointValue(whole: string, fraction: string, value: real)
    requires AllDigits(whole) && |fraction| == 3 && AllDigits(fraction)
    requires value == DigitsValue(whole) as real + DigitsValue(fraction) as real / 1000.0
    ensures DigitsValue(whole) as real + DigitsValue(fraction) as real / Pow10(|fraction|) as real == value
  {
    assert Pow10(3) == 1000;
  }

  lemma DottedNumbersEnds(src: string)
    requires IsDottedNumbers(src)
    ensures NumberEnd(src, 1, false) == 5 && NumberEnd(src, 7, false) == 13
  {
    assert NumberEnd(src, 13, true) == 13;
    assert NumberEnd(src, 12, true) == 13;
    assert NumberEnd(src, 11, true) == 13;
    assert NumberEnd(src, 10, true) == 13;
    assert NumberEnd(src, 9, false) == 13;
    assert NumberEnd(src, 8, false) == 13;
    assert NumberEnd(src, 5, true) == 5;
    assert NumberEnd(src, 4, true) == 5;
    assert NumberEnd(src, 3, true) == 5;
    assert NumberEnd(src, 2, true) == 5;
  }

  lemma DottedFirstValue(src: string)
    requires IsDottedNumbers(src)
    ensures ParseFloat(src[0..5]) == W.Some(1.234)
  {
    assert src[0..5] == src[0..1] + "." + src[2..5];
    assert src[0..1][..0] == [];
    ThreeDigits(src[2..5]);
    PointValue(src[0..1], src[2..5], 1.234);
    ParsePointNumber(src[0..1], src[2..5]);
  }

  lemma DottedSecondValue(src: string)
    requires IsDottedNumbers(src)
    ensures ParseFloat(src[6..13]) == W.Some(567.123)
  {
    assert src[6..13] == src[6..9] + "." + src[10..13];
    ThreeDigits(src[6..9]);
    ThreeDigits(src[10..13]);
    PointValue(src[6..9], src[10..13], 567.123);
    ParsePointNumber(src[6..9], src[10..13]);
  }

  lemma DottedNumbersTail(src: string)
    requires IsDottedNumbers(src)
    ensures ScanFrom(src, 6, 0) == [NumberEntry(src[6..13], 567.123, 0), EofToken(0)]
  {
    DottedNumbersEnds(src);
    DottedSecondValue(src);
    NumberAt(src, 6, 13, 0);
  }

  lemma DottedNumbersDot(src: string)
    requires IsDottedNumbers(src)
    ensures ScanFrom(src, 5, 0) == [Plain(Dot, ".", 0)] + ScanFrom(src, 6, 0)
  {
    SingleGraphemeToken(src, 5, 0);
  }

  lemma DottedNumbersFirst(src: string)
    requires IsDottedNumbers(src)
    ensures ScanFrom(src, 0, 0) == [NumberEntry(src[0..5], 1.234, 0)] + ScanFrom(src, 5, 0)
  {
    DottedNumbersEnds(src);
    DottedFirstValue(src);
    NumberAt(src, 0, 5, 0);
  }

  lemma DottedNumbersHead(src: string)
    requires IsDottedNumbers(src)
    ensures ScanFrom(src, 0, 0) == [NumberEntry(src[0..5], 1.234, 0), Plain(Dot, ".", 0)] + ScanFrom(src, 6, 0)
  {
    DottedNumbersDot(src);
    DottedNumbersFirst(src);
  }

  lemma DottedLexemes(src: string)
    requires IsDottedNumbers(src)
    ensures src[0..5] == "1.234" && src[6..13] == "567.123"
  {
  }

  lemma DottedNumbersOn(src: string)
    requires IsDottedNumbers(src)
    ensures ScanFrom(src, 0, 0)
      == [NumberEntry("1.234", 1.234, 0), Plain(Dot, ".", 0), NumberEntry("567.123", 567.123, 0), EofToken(0)]
  {
    DottedNumbersTail(src);
    DottedNumbersHead(src);
    DottedLexemes(src);
  }

  /** A second point ends a number: `1.234.567.123` scans to Number `1.234`,
      Dot, Number `567.123` and EOF. */
  lemma DottedNumbers()
    ensures Scan("1.234.567.123")
      == [NumberEntry("1.234", 1.234, 0), Plain(Dot, ".", 0), NumberEntry("567.123", 567.123, 0), EofToken(0)]
  {
    DottedNumbersOn("1.234.567.123");
  }

  function IdentifierEntry(lexeme: string, line: nat): PossibleToken
  {
    Ok(Token(TokenType.Identifier, lexeme, W.Some(Literal.Identifier(lexeme)), line))
  }

  predicate IsCommentedIdentifier(src: string)
  {
    |src| == 8 && src[0] == 'a' && src[1] == '1' && src[2] == '_' && src[3] == 'b' && src[4] == ' '
    && src[5] == '/' && src[6] == '/' && src[7] == 'c'
  }

  lemma CommentedIdentifierEnd(src: string)
    requires IsCommentedIdentifier(src)
    ensures IdentifierEnd(src, 1) == 4 && src[0..4] == "a1_b"
  {
    assert IdentifierEnd(src, 4) == 4;
  }

  lemma CommentedIdentifierOn(src: string)
    requires IsCommentedIdentifier(src)
    ensures ScanFrom(src, 0, 0) == [IdentifierEntry("a1_b", 0), EofToken(1)]
  {
    assert ScanFrom(src, 8, 1) == [EofToken(1)];
    LineComment(src, 5, 8, 0);
    Whitespace(src, 4, 0);
    CommentedIdentifierEnd(src);
    IdentifierAt(src, 0, 4, 0);
  }

  /** An identifier mixing letters, a digit and `_` is one Identifier token
      carrying its own text; the comment after it yields nothing but still
      bumps the line counter, so EOF is on line 1. */
  lemma CommentedIdentifier()
    ensures Scan("a1_b //c") == [IdentifierEntry("a1_b", 0), EofToken(1)]
  {
    CommentedIdentifierOn("a1_b //c");
  }

  predicate IsOpenString(src: string)
  {
    |src| == 5 && src[0] == '+' && src[1] == '"' && src[2] == 'a' && src[3] == '\n' && src[4] == 'b'
  }

  lemma OpenStringRest(src: string)
    requires IsOpenString(src)
    ensures '"' !in src[2..] && Count(src[2..], '\n') == 1
  {
    assert src[2..] == "a\nb";
    assert Count("b", '\n') == 0;
    assert Count("\nb", '\n') == 1;
  }

  lemma OpenStringTail(src: string)
    requires IsOpenString(src)
    ensures ScanFrom(src, 1, 0) == [Err(LoxErrorReport(1, "", UnterminatedString(1, 1))), EofToken(1)]
  {
    OpenStringRest(src);
    assert src[1] == '"' && src[1 + 1..] == src[2..];
    NeverClosedString(src, 1, 0);
  }

  lemma OpenStringOn(src: string)
    requires IsOpenString(src)
    ensures ScanFrom(src, 0, 0)
      == [Plain(Plus, "+", 0), Err(LoxErrorReport(1, "", UnterminatedString(1, 1))), EofToken(1)]
  {
    OpenStringTail(src);
    SingleGraphemeToken(src, 0, 0);
  }

  /** An unterminated string becomes one error at the line reached at the
      end of input, followed only by EOF. */
  lemma OpenString()
    ensures Scan("+\"a\nb")
      == [Plain(Plus, "+", 0), Err(LoxErrorReport(1, "", UnterminatedString(1, 1))), EofToken(1)]
  {
    OpenStringOn("+\"a\nb");
  }
}
