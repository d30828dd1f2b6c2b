/** What the scanner promises, proved about the functions of module Lexer:
    how each kind of character is handled, how the line counter follows the
    newlines of the input, and the shape of the token list of a whole scan. */
module LexerFacts {
  import opened Tokens
  import opened Lexer

  /** Every character of `x` from position `i` up to `j` is a digit. */
  predicate DigitsBetween(x: string, i: nat, j: nat)
    requires i <= j <= |x|
  {
    forall k :: i <= k < j ==> IsDigit(x[k])
  }

  /** A number as this scanner accepts it: one or more digits, optionally
      followed by '.' and one or more digits. */
  ghost predicate IsNumeral(x: string) {
    (0 < |x| && DigitsBetween(x, 0, |x|)) ||
    exists p :: 0 < p < |x| - 1 && x[p] == '.' && DigitsBetween(x, 0, p) && DigitsBetween(x, p + 1, |x|)
  }

  // ---- Substrings ---------------------------------------------------------

  /** Substring(s, i, j) holds the characters s[i], ..., s[j - 1], in order. */
  lemma {:induction false} SubstringChars(s: string, i: nat, j: nat)
    requires i <= j <= |s|
    ensures forall k :: 0 <= k < j - i ==> Substring(s, i, j)[k] == s[i + k]
    decreases j - i
  {
    if i < j {
      SubstringChars(s, i, j - 1);
    }
  }

  // ---- Counting newlines ------------------------------------------------

  lemma {:induction false} NewlinesSplit(s: string, i: nat, k: nat, j: nat)
    requires i <= k <= j <= |s|
    ensures NewlinesIn(s, i, k) + NewlinesIn(s, k, j) == NewlinesIn(s, i, j)
    decreases j
  {
    if j > k {
      NewlinesSplit(s, i, k, j - 1);
    }
  }

  lemma NewlinesOne(s: string, i: nat)
    requires i < |s|
    ensures NewlinesIn(s, i, i + 1) == if s[i] == '\n' then 1 else 0
  {
  }

  /** NewlinesIn counts exactly the newline characters of the substring. */
  lemma {:induction false} NewlinesCountsOccurrences(s: string, i: nat, j: nat)
    requires i <= j <= |s|
    ensures NewlinesIn(s, i, j) == multiset(Substring(s, i, j))['\n']
    decreases j
  {
    if j > i {
      NewlinesCountsOccurrences(s, i, j - 1);
      assert Substring(s, i, j) == Substring(s, i, j - 1) + [s[j - 1]];
    }
  }

  lemma {:induction false} NoNewlines(s: string, i: nat, j: nat)
    requires i <= j <= |s|
    requires forall k :: i <= k < j ==> s[k] != '\n'
    ensures NewlinesIn(s, i, j) == 0
    decreases j
  {
    if j > i {
      NoNewlines(s, i, j - 1);
    }
  }

  // ---- Character tests and categories -------------------------------------

  /** The digits are exactly the ten characters '0' to '9'. */
  lemma DigitsAreDecimal(c: char)
    ensures IsDigit(c) <==> c in "0123456789"
  {
    if IsDigit(c) {
      var d := c as int - '0' as int;
      assert 0 <= d < 10 && "0123456789"[d] == c;
    }
  }

  /** Match consumes the next character exactly when it is the expected one,
      and changes nothing but `current`. */
  lemma MatchConsumes(s: string, st: Cursor, expected: char)
    ensures var (matched, r) := Match(s, st, expected);
      (matched <==> st.current < |s| && s[st.current] == expected) &&
      r == st.(current := if matched then st.current + 1 else st.current)
  {
  }

  /** Report appends exactly one diagnostic, at the current line, and
      changes nothing else. */
  lemma ReportAppends(st: Cursor, message: string)
    ensures var r := Report(st, message);
      |r.errors| == |st.errors| + 1 && st.errors <= r.errors &&
      r.errors[|st.errors|] == Diagnostic(st.line, message) &&
      r == st.(errors := r.errors)
  {
  }

  // ---- One pass of the switch --------------------------------------------

  /** The branch of Step taken for a newline. */
  lemma StepOnLineBreak(s: string, st: Cursor)
    requires st.start <= st.current < |s| && Classify(s[st.current]) == LineBreak
    ensures Step(s, st) == st.(current := st.current + 1, line := st.line + 1)
  {
  }

  /** The branch of Step taken for an opening quote. */
  lemma StepOnQuote(s: string, st: Cursor)
    requires st.start <= st.current < |s| && Classify(s[st.current]) == Quote
    ensures Step(s, st) == StringLiteral(s, st.(current := st.current + 1))
  {
  }

  /** The branch of Step taken for a digit. */
  lemma StepOnDigit(s: string, st: Cursor)
    requires st.start <= st.current < |s| && Classify(s[st.current]) == Digit
    ensures Step(s, st) == NumberLiteral(s, st.(current := st.current + 1))
  {
  }

  /** The branch of Step taken for '!', '=', '>', '<' and '/'. */
  lemma StepOnChain(s: string, st: Cursor, stage: nat)
    requires st.start <= st.current < |s| && Classify(s[st.current]) == ChainCase(stage)
    ensures stage <= 4 && Step(s, st) == Chain(s, st.(current := st.current + 1), stage)
  {
  }

  /** The branch of Step taken for ( ) { } , . - + ; and *. */
  lemma StepOnPunctuation(s: string, st: Cursor, kind: TokenType)
    requires st.start <= st.current < |s| && Classify(s[st.current]) == Punctuation(kind)
    ensures Step(s, st) == Emit(s, st.(current := st.current + 1), kind, NoLiteral)
  {
  }

  /** Punctuation, blanks other than the newline, and unexpected characters
      consume just that one character and leave the line counter alone; only
      punctuation adds a token. */
  lemma StepOnOneCharacter(s: string, st: Cursor)
    requires st.start <= st.current < |s|
    requires var kind := Classify(s[st.current]);
      kind.Punctuation? || kind == Blank || kind == Unexpected
    ensures Step(s, st).current == st.current + 1 && Step(s, st).line == st.line
    ensures !Classify(s[st.current]).Punctuation? ==> Step(s, st).tokens == st.tokens
  {
  }

  /** Apart from a string or a newline, one pass consumes no newline and
      leaves the line counter alone. */
  lemma StepOutsideLines(s: string, st: Cursor)
    requires st.start <= st.current < |s|
    requires Classify(s[st.current]) != Quote && Classify(s[st.current]) != LineBreak
    ensures Step(s, st).line == st.line
    ensures forall k :: st.current <= k < Step(s, st).current ==> s[k] != '\n'
  {
    match Classify(s[st.current])
    case ChainCase(stage) =>
      StepOnChain(s, st, stage);
      ChainStepOutsideLines(s, st.(current := st.current + 1), stage);
    case Digit =>
      DigitStepOutsideLines(s, st);
    case Punctuation(_) | Blank | Unexpected =>
      StepOnOneCharacter(s, st);
    case _ =>
  }

  lemma ChainStepOutsideLines(s: string, st: Cursor, stage: nat)
    requires st.start < st.current <= |s| && s[st.current - 1] != '\n' && stage <= 4
    ensures var r := Chain(s, st, stage);
      r.line == st.line && forall k :: st.current - 1 <= k < r.current ==> s[k] != '\n'
  {
    ChainNoNewline(s, st, stage);
  }

  lemma DigitStepOutsideLines(s: string, st: Cursor)
    requires st.start <= st.current < |s| && Classify(s[st.current]) == Digit
    ensures Step(s, st).line == st.line
    ensures forall k :: st.current <= k < Step(s, st).current ==> s[k] != '\n'
  {
    StepOnDigit(s, st);
  }

  /** Every token one pass emits is an ordinary token whose lexeme is a
      non-empty piece of the text the pass consumed, starting at `start`. */
  lemma StepLexemes(s: string, st: Cursor)
    requires st.start <= st.current < |s|
    ensures NewLexemesWithin(s, st.start, Step(s, st).current, Step(s, st).tokens, |st.tokens|)
  {
    var st1 := st.(current := st.current + 1);
    match Classify(s[st.current])
    case Punctuation(kind) =>
      StepOnPunctuation(s, st, kind);
      EmitLexeme(s, st1, kind, NoLiteral);
    case ChainCase(stage) =>
      StepOnChain(s, st, stage);
      ChainLexemes(s, st1, stage);
    case Quote =>
      StepOnQuote(s, st);
      StringLexemes(s, st1);
    case Digit =>
      StepOnDigit(s, st);
      EmitLexeme(s, st1.(current := NumberEnd(s, st1.current)), NUMBER,
        NumberValue(Substring(s, st.start, NumberEnd(s, st1.current))));
    case LineBreak =>
      StepOnLineBreak(s, st);
    case Blank =>
      StepOnOneCharacter(s, st);
    case Unexpected =>
      StepOnOneCharacter(s, st);
  }

  /** The token Emit appends has the text from `start` to `current` as its
      lexeme. */
  lemma EmitLexeme(s: string, st: Cursor, kind: TokenType, literal: Literal)
    requires st.start < st.current <= |s| && kind != EOF
    ensures var r := Emit(s, st, kind, literal);
      NewLexemesWithin(s, st.start, st.current, r.tokens, |st.tokens|)
  {
    var r := Emit(s, st, kind, literal);
    assert LexemeWithin(s, st.start, st.current, r.tokens[|st.tokens|]);
  }

  /** Emit appends exactly one token, of the given category and literal, at
      the current line, whose lexeme is the characters from `start` up to
      `current`; nothing else changes. */
  lemma EmitAppends(s: string, st: Cursor, kind: TokenType, literal: Literal)
    requires st.start <= st.current <= |s|
    ensures var r := Emit(s, st, kind, literal);
      var t := r.tokens[|st.tokens|];
      r == st.(tokens := r.tokens) && |r.tokens| == |st.tokens| + 1 && st.tokens <= r.tokens &&
      t.kind == kind && t.literal == literal && t.line == st.line &&
      |t.lexeme| == st.current - st.start &&
      forall i :: 0 <= i < |t.lexeme| ==> t.lexeme[i] == s[st.start + i]
  {
    SubstringChars(s, st.start, st.current);
  }

  /** The tokens of the string case are ordinary tokens cut from the text it
      consumed. */
  lemma StringLexemes(s: string, st: Cursor)
    requires st.start < st.current <= |s|
    ensures var r := StringLiteral(s, st);
      NewLexemesWithin(s, st.start, r.current, r.tokens, |st.tokens|)
  {
    var close := FirstFrom(s, st.current, '"');
    var reached := st.(current := close, line := st.line + NewlinesIn(s, st.current, close));
    if close < |s| {
      var literal := StringValue(Substring(s, st.start + 1, close));
      assert StringLiteral(s, st) == Emit(s, reached.(current := close + 1), STRING, literal);
      EmitLexeme(s, reached.(current := close + 1), STRING, literal);
    } else {
      assert StringLiteral(s, st) == Report(reached, UnterminatedString);
    }
  }

  /** The line counter grows by exactly the number of newlines one pass
      consumes: a comment stops before its newline, so every newline is
      consumed by the newline case or inside a string. */
  lemma StepLines(s: string, st: Cursor)
    requires st.start <= st.current < |s|
    ensures Step(s, st).line == st.line + NewlinesIn(s, st.current, Step(s, st).current)
  {
    var kind := Classify(s[st.current]);
    if kind == Quote {
      StepOnQuote(s, st);
      QuoteLines(s, st);
    } else if kind == LineBreak {
      StepOnLineBreak(s, st);
      NewlinesOne(s, st.current);
    } else {
      StepOutsideLines(s, st);
      NoNewlines(s, st.current, Step(s, st).current);
    }
  }

  /** The string case counts the newlines from its opening quote on. */
  lemma QuoteLines(s: string, st: Cursor)
    requires st.start <= st.current < |s| && s[st.current] == '"'
    ensures var r := StringLiteral(s, st.(current := st.current + 1));
      st.current < r.current && r.line == st.line + NewlinesIn(s, st.current, r.current)
  {
    var from := st.current + 1;
    var r := StringLiteral(s, st.(current := from));
    StringLiteralReach(s, st.(current := from));
    NewlinesBetweenQuotes(s, st.current, FirstFrom(s, from, '"'), r.current);
  }

  /** Quotes are not newlines: the newlines from an opening quote at `i` to
      just past the closing one at `close` (or to the end of the input) are
      those strictly between them. */
  lemma NewlinesBetweenQuotes(s: string, i: nat, close: nat, end: nat)
    requires i < close <= |s| && s[i] == '"' && (close < |s| ==> s[close] == '"')
    requires end == if close < |s| then close + 1 else close
    ensures NewlinesIn(s, i, end) == NewlinesIn(s, i + 1, close)
  {
    NewlinesOne(s, i);
    NewlinesSplit(s, i, i + 1, close);
    if close < |s| {
      NewlinesOne(s, close);
      NewlinesSplit(s, i, close, close + 1);
    }
  }

  /** The string case stops after the closing quote, or at the end of the
      input when there is none, and its line counter has moved by the
      newlines before the closing quote. */
  lemma StringLiteralReach(s: string, st: Cursor)
    requires st.start < st.current <= |s|
    ensures var r := StringLiteral(s, st);
      var close := FirstFrom(s, st.current, '"');
      r.current == (if close < |s| then close + 1 else close) &&
      r.line == st.line + NewlinesIn(s, st.current, close)
  {
  }

  /** Each of ( ) { } , . - + ; * yields exactly one token of its own
      category whose lexeme is that character, and nothing else changes. */
  lemma PunctuationToken(s: string, st: Cursor)
    requires st.start == st.current < |s| && Classify(s[st.current]).Punctuation?
    ensures Step(s, st) == st.(current := st.current + 1,
      tokens := st.tokens + [Token(Classify(s[st.current]).kind, [s[st.current]], NoLiteral, st.line)])
  {
    assert Substring(s, st.current, st.current + 1) == [s[st.current]];
  }

  /** Space, carriage return, tab and newline yield nothing; only the
      newline moves the line counter. */
  lemma BlankSkipped(s: string, st: Cursor)
    requires st.start <= st.current < |s|
    requires var c := s[st.current]; c == ' ' || c == '\r' || c == '\t' || c == '\n'
    ensures Step(s, st) == st.(current := st.current + 1,
      line := st.line + if s[st.current] == '\n' then 1 else 0)
  {
  }

  /** A character no case handles yields no token and one diagnostic at the
      current line; scanning resumes at the next character. */
  lemma UnexpectedCharacterReported(s: string, st: Cursor)
    requires st.start <= st.current < |s| && Classify(s[st.current]) == Unexpected
    ensures Step(s, st) == st.(current := st.current + 1,
      errors := st.errors + [Diagnostic(st.line, UnexpectedCharacter)])
  {
  }

  /** "//" skips to the end of the line, leaving the newline unconsumed. */
  lemma CommentSkipped(s: string, st: Cursor)
    requires st.start <= st.current && st.current + 1 < |s|
    requires s[st.current] == '/' && s[st.current + 1] == '/'
    ensures var r := Step(s, st);
      r == st.(current := r.current) &&
      (r.current == |s| || s[r.current] == '\n') &&
      forall k :: st.current <= k < r.current ==> s[k] != '\n'
  {
  }

  /** A terminated string yields one STRING token: its lexeme is the
      literal's text between two quotes, the text holds no quote, and the
      token's line is the line reached at the closing quote. `st` is the
      state just after the opening quote. */
  lemma StringToken(s: string, st: Cursor)
    requires st.start + 1 == st.current <= |s| && s[st.start] == '"'
    requires FirstFrom(s, st.current, '"') < |s|
    ensures var r := StringLiteral(s, st);
      var close := FirstFrom(s, st.current, '"');
      var text := Substring(s, st.current, close);
      r.start == st.start && r.current == close + 1 && r.errors == st.errors &&
      r.line == st.line + multiset(text)['\n'] &&
      |r.tokens| == |st.tokens| + 1 && st.tokens <= r.tokens &&
      r.tokens[|st.tokens|] == Token(STRING, "\"" + text + "\"", StringValue(text), r.line) &&
      '"' !in text
  {
    var close := FirstFrom(s, st.current, '"');
    StringLiteralReach(s, st);
    QuotedText(s, st.start, close);
    NewlinesCountsOccurrences(s, st.current, close);
    QuoteFree(s, st.current, close);
  }

  /** The text from one quote to another, both included, is the text
      between them wrapped in quotes. */
  lemma QuotedText(s: string, i: nat, j: nat)
    requires i < j < |s| && s[i] == '"' && s[j] == '"'
    ensures Substring(s, i, j + 1) == "\"" + Substring(s, i + 1, j) + "\""
  {
    SubstringChars(s, i, j + 1);
    SubstringChars(s, i + 1, j);
    var quoted := "\"" + Substring(s, i + 1, j) + "\"";
    assert forall k :: 0 <= k < |quoted| ==> quoted[k] == s[i + k];
  }

  lemma {:induction false} QuoteFree(s: string, i: nat, j: nat)
    requires i <= j <= |s|
    requires forall k :: i <= k < j ==> s[k] != '"'
    ensures '"' !in Substring(s, i, j)
  {
    SubstringChars(s, i, j);
  }

  /** A string that reaches the end of the input yields no token and one
      diagnostic at the line reached, which counts the newlines after the
      opening quote; the input is then used up. */
  lemma UnterminatedStringReported(s: string, st: Cursor)
    requires st.start <= st.current < |s| && s[st.current] == '"'
    requires forall k :: st.current < k < |s| ==> s[k] != '"'
    ensures var r := Step(s, st);
      r.current == |s| && r.tokens == st.tokens &&
      r.line == st.line + NewlinesIn(s, st.current + 1, |s|) &&
      r.errors == st.errors + [Diagnostic(r.line, UnterminatedString)]
  {
    StepOnQuote(s, st);
    FirstFromAbsent(s, st.current + 1, '"');
    UnterminatedAtEnd(s, st.(current := st.current + 1));
  }

  /** Without a closing quote the string case reports and emits nothing. */
  lemma UnterminatedAtEnd(s: string, st: Cursor)
    requires st.start < st.current <= |s| && FirstFrom(s, st.current, '"') == |s|
    ensures StringLiteral(s, st) ==
      Report(st.(current := |s|, line := st.line + NewlinesIn(s, st.current, |s|)), UnterminatedString)
  {
  }

  /** A character absent from the rest of the input is first found at its end. */
  lemma FirstFromAbsent(s: string, i: nat, c: char)
    requires i <= |s| && forall k :: i <= k < |s| ==> s[k] != c
    ensures FirstFrom(s, i, c) == |s|
  {
  }

  /** A digit yields one NUMBER token whose lexeme is its literal text: a
      maximal run of digits, with a fraction only when the '.' is followed
      by a digit. `st` is the state just after the first digit. */
  lemma NumberToken(s: string, st: Cursor)
    requires st.start + 1 == st.current <= |s| && IsDigit(s[st.start])
    ensures var r := NumberLiteral(s, st);
      var text := Substring(s, st.start, r.current);
      r.start == st.start && r.line == st.line && r.errors == st.errors &&
      |r.tokens| == |st.tokens| + 1 && st.tokens <= r.tokens &&
      r.tokens[|st.tokens|] == Token(NUMBER, text, NumberValue(text), st.line) &&
      IsNumeral(text) &&
      (r.current < |s| ==> !IsDigit(s[r.current])) &&
      ('.' !in text ==> !(r.current + 1 < |s| && s[r.current] == '.' && IsDigit(s[r.current + 1])))
  {
    var r := NumberLiteral(s, st);
    var text := Substring(s, st.start, r.current);
    var whole := DigitsEnd(s, st.current);
    SubstringChars(s, st.start, r.current);
    if whole + 1 < |s| && s[whole] == '.' && IsDigit(s[whole + 1]) {
      var p := whole - st.start;
      assert text[p] == '.';
      assert DigitsBetween(text, 0, p) && DigitsBetween(text, p + 1, |text|);
    } else {
      assert DigitsBetween(text, 0, |text|);
    }
  }

  /** One operator case emits exactly one token: the two-character operator,
      taking the '=' into its lexeme, exactly when the next character is '=',
      and the one-character operator otherwise. */
  lemma OperatorStageEmits(s: string, st: Cursor, stage: nat)
    requires stage < 4 && st.start < st.current <= |s|
    ensures var r := OperatorStage(s, st, stage);
      var equal := st.current < |s| && s[st.current] == '=';
      r.start == st.start && r.line == st.line && r.errors == st.errors &&
      r.current == (if equal then st.current + 1 else st.current) &&
      |r.tokens| == |st.tokens| + 1 && st.tokens <= r.tokens &&
      r.tokens[|st.tokens|] == Token(ChainKind(stage, equal), Substring(s, st.start, r.current), NoLiteral, st.line)
  {
  }

  /** In the chain of cases without `break`, each of the remaining operator
      cases emits one token of its own pair (one- or two-character form), in
      the order of the switch. */
  lemma ChainKinds(s: string, st: Cursor, stage: nat)
    requires stage <= 4 && st.start < st.current <= |s|
    ensures var r := Chain(s, st, stage);
      forall k :: |st.tokens| <= k < |st.tokens| + 4 - stage ==>
        OfStage(r.tokens[k], stage + k - |st.tokens|)
  {
    forall k | |st.tokens| <= k < |st.tokens| + 4 - stage
      ensures OfStage(Chain(s, st, stage).tokens[k], stage + k - |st.tokens|)
    {
      ChainKindAt(s, st, stage, k);
    }
  }

  lemma {:induction false} ChainKindAt(s: string, st: Cursor, stage: nat, k: nat)
    requires stage <= 4 && st.start < st.current <= |s|
    requires |st.tokens| <= k < |st.tokens| + 4 - stage
    ensures OfStage(Chain(s, st, stage).tokens[k], stage + k - |st.tokens|)
    decreases 4 - stage
  {
    var st2 := OperatorStage(s, st, stage);
    OperatorStageShape(s, st, stage);
    if k == |st.tokens| {
      OperatorStageKind(s, st, stage);
      assert Chain(s, st2, stage + 1).tokens[k] == st2.tokens[k];
    } else {
      ChainKindAt(s, st2, stage + 1, k);
      assert stage + 1 + k - |st2.tokens| == stage + k - |st.tokens|;
    }
  }

  /** Token `t` is the one- or two-character operator of stage `stage`. */
  predicate OfStage(t: Token, stage: nat) {
    stage < 4 && (t.kind == ChainKind(stage, false) || t.kind == ChainKind(stage, true))
  }

  /** One operator case changes no field but `current` and the token list,
      consumes at most one character and appends one token. */
  lemma OperatorStageShape(s: string, st: Cursor, stage: nat)
    requires stage < 4 && st.start < st.current <= |s|
    ensures var r := OperatorStage(s, st, stage);
      r.start == st.start && r.line == st.line && r.errors == st.errors &&
      st.current <= r.current <= st.current + 1 && r.current <= |s| &&
      |r.tokens| == |st.tokens| + 1 && st.tokens <= r.tokens
  {
  }

  /** The token one operator case appends is of that case's pair. */
  lemma OperatorStageKind(s: string, st: Cursor, stage: nat)
    requires stage < 4 && st.start < st.current <= |s|
    ensures var r := OperatorStage(s, st, stage);
      |r.tokens| == |st.tokens| + 1 && OfStage(r.tokens[|st.tokens|], stage)
  {
  }

  /** The '/' case in full: a second '/' is consumed and the comment skipped
      up to the next newline, with nothing else changed; any other next
      character, or none, gives SLASH over the text from `start`, with
      nothing consumed. */
  lemma SlashCaseBranches(s: string, st: Cursor)
    requires st.start < st.current <= |s|
    ensures var r := SlashCase(s, st);
      if st.current < |s| && s[st.current] == '/' then
        r == st.(current := FirstFrom(s, st.current + 1, '\n'))
      else
        r == st.(tokens := st.tokens + [Token(SLASH, Substring(s, st.start, st.current), NoLiteral, st.line)])
  {
  }

  /** When the chain ends with SLASH, the character after it is not '/':
      a second '/' would have started a comment instead. */
  lemma {:induction false} ChainSlashNotBeforeSlash(s: string, st: Cursor, stage: nat)
    requires stage <= 4 && st.start < st.current <= |s|
    ensures var r := Chain(s, st, stage);
      |r.tokens| == |st.tokens| + 5 - stage ==> !(r.current < |s| && s[r.current] == '/')
    decreases 4 - stage
  {
    if stage < 4 {
      var st2 := OperatorStage(s, st, stage);
      OperatorStageShape(s, st, stage);
      ChainSlashNotBeforeSlash(s, st2, stage + 1);
      assert Chain(s, st, stage) == Chain(s, st2, stage + 1);
    } else {
      assert Chain(s, st, stage) == SlashCase(s, st);
    }
  }

  /** The chain ends in the '/' case: either it adds one more token, SLASH,
      whose lexeme is everything the chain consumed and after which the next
      character is not '/', or it adds none and has skipped a comment up to
      the end of the line. */
  lemma {:induction false} ChainEnd(s: string, st: Cursor, stage: nat)
    requires stage <= 4 && st.start < st.current <= |s|
    ensures var r := Chain(s, st, stage);
      (|r.tokens| == |st.tokens| + 5 - stage ==>
        r.tokens[|r.tokens| - 1] == Token(SLASH, Substring(s, st.start, r.current), NoLiteral, st.line)) &&
      (|r.tokens| == |st.tokens| + 4 - stage ==> r.current == |s| || s[r.current] == '\n')
    ensures var r := Chain(s, st, stage);
      |r.tokens| == |st.tokens| + 5 - stage ==> !(r.current < |s| && s[r.current] == '/')
    decreases 4 - stage
  {
    ChainSlashNotBeforeSlash(s, st, stage);
    if stage < 4 {
      var st2 := OperatorStage(s, st, stage);
      OperatorStageShape(s, st, stage);
      ChainEnd(s, st2, stage + 1);
      assert Chain(s, st, stage) == Chain(s, st2, stage + 1);
    } else {
      assert Chain(s, st, stage) == SlashCase(s, st);
    }
  }

  /** The chain consumes no newline. */
  lemma {:induction false} ChainNoNewline(s: string, st: Cursor, stage: nat)
    requires stage <= 4 && st.start < st.current <= |s|
    ensures forall k :: st.current <= k < Chain(s, st, stage).current ==> s[k] != '\n'
    decreases 4 - stage
  {
    if stage < 4 {
      var st2 := OperatorStage(s, st, stage);
      OperatorStageShape(s, st, stage);
      ChainNoNewline(s, st2, stage + 1);
      assert Chain(s, st, stage) == Chain(s, st2, stage + 1);
    } else {
      assert Chain(s, st, stage) == SlashCase(s, st);
    }
  }

  /** Every token of the chain is an ordinary token whose lexeme is a
      non-empty piece of the consumed text, starting at `start`. */
  lemma {:induction false} ChainLexemes(s: string, st: Cursor, stage: nat)
    requires stage <= 4 && st.start < st.current <= |s|
    ensures NewLexemesWithin(s, st.start, Chain(s, st, stage).current, Chain(s, st, stage).tokens, |st.tokens|)
    decreases 4 - stage
  {
    if stage < 4 {
      var st2 := OperatorStage(s, st, stage);
      OperatorStageLexeme(s, st, stage);
      ChainLexemes(s, st2, stage + 1);
      var r := Chain(s, st2, stage + 1);
      assert Chain(s, st, stage) == r;
      LexemeWiden(s, st.start, st2.current, r.current, st2.tokens[|st.tokens|]);
      assert r.tokens[|st.tokens|] == st2.tokens[|st.tokens|];
    } else {
      var r := SlashCase(s, st);
      assert Chain(s, st, stage) == r;
      if r.tokens != st.tokens {
        assert LexemeWithin(s, st.start, r.current, r.tokens[|st.tokens|]);
      }
    }
  }

  /** The tokens the chain emits from stage `stage` on when no character is
      left to match: the one-character operator of each remaining case, then
      SLASH, all with the same lexeme and line. */
  function RunOut(stage: nat, lexeme: string, line: int): (r: seq<Token>)
    requires stage <= 4
    ensures |r| == 5 - stage
    decreases 4 - stage
  {
    if stage == 4 then [Token(SLASH, lexeme, NoLiteral, line)]
    else [Token(ChainKind(stage, false), lexeme, NoLiteral, line)] + RunOut(stage + 1, lexeme, line)
  }

  /** At the end of the input no '=' or '/' can be matched, so the chain
      emits a token in every case it passes through and consumes nothing. */
  lemma {:induction false} ChainAtEnd(s: string, st: Cursor, stage: nat)
    requires stage <= 4 && st.start < st.current == |s|
    ensures Chain(s, st, stage) ==
      st.(tokens := st.tokens + RunOut(stage, Substring(s, st.start, |s|), st.line))
    decreases 4 - stage
  {
    var lexeme := Substring(s, st.start, |s|);
    if stage < 4 {
      var t := Token(ChainKind(stage, false), lexeme, NoLiteral, st.line);
      var st2 := st.(tokens := st.tokens + [t]);
      assert OperatorStage(s, st, stage) == st2;
      ChainAtEnd(s, st2, stage + 1);
      assert st2.tokens + RunOut(stage + 1, lexeme, st.line) == st.tokens + RunOut(stage, lexeme, st.line);
      assert Chain(s, st, stage) == Chain(s, st2, stage + 1);
    } else {
      assert Chain(s, st, stage) == SlashCase(s, st);
    }
  }

  /** When one pass of the switch uses up the input, the scan is that pass. */
  lemma SingleStepScan(s: string, fin: Cursor)
    requires 0 < |s| && Step(s, Initial) == fin && fin.current == |s|
    ensures Scan(s) == fin.tokens + [Token(EOF, "", NoLiteral, fin.line)]
    ensures Diagnostics(s) == fin.errors
  {
    assert ScanFrom(s, fin) == fin;
    assert ScanFrom(s, Initial) == ScanFrom(s, fin);
  }

  /** When two passes of the switch use up the input, the scan is those two
      passes. */
  lemma TwoStepScan(s: string, mid: Cursor, fin: Cursor)
    requires 0 < |s| && Step(s, Initial) == mid && mid.current < |s|
    requires Step(s, mid.(start := mid.current)) == fin && fin.current == |s|
    ensures Scan(s) == fin.tokens + [Token(EOF, "", NoLiteral, fin.line)]
    ensures Diagnostics(s) == fin.errors
  {
    assert ScanFrom(s, fin) == fin;
    assert ScanFrom(s, mid) == ScanFrom(s, fin);
    assert ScanFrom(s, Initial) == ScanFrom(s, mid);
  }

  /** An input made of one operator character scans to the one-character
      tokens of its own case and of every later one, each with that character
      as its lexeme, then EOF. */
  lemma LoneOperator(s: string, stage: nat)
    requires |s| == 1 && Classify(s[0]) == ChainCase(stage)
    ensures stage <= 4 && Scan(s) == RunOut(stage, s, 1) + [Token(EOF, "", NoLiteral, 1)]
  {
    LoneOperatorStep(s, stage);
    SingleStepScan(s, Cursor(0, 1, 1, RunOut(stage, s, 1), []));
  }

  lemma LoneOperatorStep(s: string, stage: nat)
    requires |s| == 1 && Classify(s[0]) == ChainCase(stage)
    ensures stage <= 4 && Step(s, Initial) == Cursor(0, 1, 1, RunOut(stage, s, 1), [])
  {
    StepOnChain(s, Initial, stage);
    assert Substring(s, 0, 1) == s;
    ChainAtEnd(s, Cursor(0, 1, 1, [], []), stage);
  }

  /** The token of one operator case is an ordinary token cut from the text
      consumed so far. */
  lemma OperatorStageLexeme(s: string, st: Cursor, stage: nat)
    requires stage < 4 && st.start < st.current <= |s|
    ensures var r := OperatorStage(s, st, stage);
      r.start == st.start && st.current <= r.current <= |s| &&
      |r.tokens| == |st.tokens| + 1 && st.tokens <= r.tokens &&
      LexemeWithin(s, st.start, r.current, r.tokens[|st.tokens|])
  {
    OperatorStageEmits(s, st, stage);
  }

  /** A lexeme within a stretch of text is within any longer stretch. */
  lemma LexemeWiden(s: string, from: nat, limit: nat, wider: nat, t: Token)
    requires from <= limit <= wider <= |s| && LexemeWithin(s, from, limit, t)
    ensures LexemeWithin(s, from, wider, t)
  {
  }

  /** The first token of the chain: the case's own operator, in its
      two-character form exactly when the next character is '=', which is
      then part of the lexeme; otherwise nothing is consumed. */
  lemma ChainFirstToken(s: string, st: Cursor, stage: nat)
    requires stage < 4 && st.start < st.current <= |s|
    ensures var equal := st.current < |s| && s[st.current] == '=';
      var r := Chain(s, st, stage);
      |r.tokens| > |st.tokens| &&
      r.tokens[|st.tokens|] == Token(ChainKind(stage, equal),
        Substring(s, st.start, if equal then st.current + 1 else st.current), NoLiteral, st.line)
  {
    var st2 := OperatorStage(s, st, stage);
    OperatorStageEmits(s, st, stage);
    assert st2.tokens[|st.tokens|] == Chain(s, st2, stage + 1).tokens[|st.tokens|];
  }

  // ---- The whole scan -----------------------------------------------------

  /** The line counter ends at its start value plus the newlines of the
      unscanned input. */
  lemma {:induction false} ScanFromLines(s: string, st: Cursor)
    requires st.start <= st.current <= |s|
    ensures ScanFrom(s, st).line == st.line + NewlinesIn(s, st.current, |s|)
    decreases |s| - st.current
  {
    if st.current < |s| {
      var st1 := Step(s, st.(start := st.current));
      StepLines(s, st.(start := st.current));
      ScanFromLines(s, st1);
      NewlinesSplit(s, st.current, st1.current, |s|);
    }
  }

  /** `k` copies of the position `p`. */
  function Repeat(p: nat, k: nat): (r: seq<nat>)
    ensures |r| == k && forall i :: 0 <= i < k ==> r[i] == p
  {
    if k == 0 then [] else [p] + Repeat(p, k - 1)
  }

  /** For each token the main loop adds from state `st` on, the position at
      which the pass of the switch that added it began. */
  ghost function PassStarts(s: string, st: Cursor): (r: seq<nat>)
    requires st.start <= st.current <= |s|
    decreases |s| - st.current
  {
    if st.current == |s| then []
    else
      var st1 := Step(s, st.(start := st.current));
      Repeat(st.current, |st1.tokens| - |st.tokens|) + PassStarts(s, st1)
  }

  /** The tokens of `toks` from index `first` on are cut from `s` in order:
      each is cut at its entry of `starts` (CutAt), and the starts are in
      order with no overlap between different starts (InOrder). */
  ghost predicate CutInOrder(s: string, toks: seq<Token>, first: nat, starts: seq<nat>, from: nat) {
    first + |starts| <= |toks| && CutAt(s, toks, first, starts, from) && InOrder(toks, first, starts)
  }

  /** The `k`-th token from index `first` on is an ordinary token whose
      lexeme is the text of `s` at `starts[k]`, and no start lies before `from`. */
  ghost predicate CutAt(s: string, toks: seq<Token>, first: nat, starts: seq<nat>, from: nat)
    requires first + |starts| <= |toks|
  {
    forall k :: 0 <= k < |starts| ==>
      from <= starts[k] <= |s| && LexemeWithin(s, starts[k], |s|, toks[first + k])
  }

  /** Starts never go back, and a token cut at a later start begins after the
      end of every earlier token (tokens of one pass share its start). */
  ghost predicate InOrder(toks: seq<Token>, first: nat, starts: seq<nat>)
    requires first + |starts| <= |toks|
  {
    forall k, m :: 0 <= k < m < |starts| ==>
      starts[k] <= starts[m] &&
      (starts[k] == starts[m] || starts[k] + |toks[first + k].lexeme| <= starts[m])
  }

  /** Prefixing the tokens of one pass, all cut at `p` and ending by `q`, to
      tokens cut in order from `q` on keeps them in order. */
  lemma CutInOrderJoin(s: string, toks: seq<Token>, head: seq<Token>, first: nat, mid: nat,
                       p: nat, q: nat, rest: seq<nat>)
    requires first <= mid == |head| && head <= toks && p <= q <= |s|
    requires NewLexemesWithin(s, p, q, head, first)
    requires CutInOrder(s, toks, mid, rest, q)
    ensures CutInOrder(s, toks, first, Repeat(p, mid - first) + rest, p)
  {
    JoinedStartsCut(s, toks, head, first, mid, p, q, rest);
    JoinedStartsOrdered(s, toks, head, first, mid, p, q, rest);
  }

  lemma JoinedStartsCut(s: string, toks: seq<Token>, head: seq<Token>, first: nat, mid: nat,
                        p: nat, q: nat, rest: seq<nat>)
    requires first <= mid == |head| && head <= toks && p <= q <= |s|
    requires NewLexemesWithin(s, p, q, head, first)
    requires mid + |rest| <= |toks| && CutAt(s, toks, mid, rest, q)
    ensures CutAt(s, toks, first, Repeat(p, mid - first) + rest, p)
  {
    var starts := Repeat(p, mid - first) + rest;
    forall k | 0 <= k < |starts|
      ensures p <= starts[k] <= |s| && LexemeWithin(s, starts[k], |s|, toks[first + k])
    {
      if k < mid - first {
        assert starts[k] == p;
        assert head[first + k] == toks[first + k];
        LexemeWiden(s, p, q, |s|, toks[first + k]);
      } else {
        assert starts[k] == rest[k - (mid - first)];
      }
    }
  }

  lemma JoinedStartsOrdered(s: string, toks: seq<Token>, head: seq<Token>, first: nat, mid: nat,
                            p: nat, q: nat, rest: seq<nat>)
    requires first <= mid == |head| && head <= toks && p <= q <= |s|
    requires NewLexemesWithin(s, p, q, head, first)
    requires mid + |rest| <= |toks| && CutAt(s, toks, mid, rest, q) && InOrder(toks, mid, rest)
    ensures InOrder(toks, first, Repeat(p, mid - first) + rest)
  {
    var starts := Repeat(p, mid - first) + rest;
    forall k, m | 0 <= k < m < |starts|
      ensures starts[k] <= starts[m] &&
        (starts[k] == starts[m] || starts[k] + |toks[first + k].lexeme| <= starts[m])
    {
      if m < mid - first {
        assert starts[k] == p && starts[m] == p;
      } else if k < mid - first {
        assert starts[k] == p;
        assert head[first + k] == toks[first + k];
        assert starts[m] == rest[m - (mid - first)];
      } else {
        assert starts[k] == rest[k - (mid - first)];
        assert starts[m] == rest[m - (mid - first)];
      }
    }
  }

  /** The main loop cuts every token it adds from the input in order, at the
      start of the pass that added it. */
  lemma {:induction false} ScanFromInOrder(s: string, st: Cursor)
    requires st.start <= st.current <= |s|
    ensures var r := ScanFrom(s, st);
      |PassStarts(s, st)| == |r.tokens| - |st.tokens| &&
      CutInOrder(s, r.tokens, |st.tokens|, PassStarts(s, st), st.current)
    decreases |s| - st.current
  {
    if st.current < |s| {
      var st0 := st.(start := st.current);
      var st1 := Step(s, st0);
      var r := ScanFrom(s, st1);
      assert ScanFrom(s, st) == r;
      assert PassStarts(s, st) == Repeat(st.current, |st1.tokens| - |st.tokens|) + PassStarts(s, st1);
      StepLexemes(s, st0);
      ScanFromInOrder(s, st1);
      CutInOrderJoin(s, r.tokens, st1.tokens, |st.tokens|, |st1.tokens|, st.current, st1.current, PassStarts(s, st1));
    }
  }

  /** The scan always ends with exactly one EOF token: empty lexeme, no
      literal, and the final line, which is one plus the number of newlines
      in the input. Every earlier token is an ordinary token cut from the
      input in order, at the position where its pass of the switch began. */
  lemma ScanEndsWithEof(s: string)
    ensures var toks := Scan(s);
      |toks| >= 1 &&
      toks[|toks| - 1] == Token(EOF, "", NoLiteral, 1 + multiset(s)['\n']) &&
      |PassStarts(s, Initial)| == |toks| - 1 &&
      CutInOrder(s, toks, 0, PassStarts(s, Initial), 0)
  {
    ScanFromLines(s, Initial);
    NewlinesCountsOccurrences(s, 0, |s|);
    SubstringChars(s, 0, |s|);
    assert Substring(s, 0, |s|) == s;
    ScanFromInOrder(s, Initial);
    var fin := ScanFrom(s, Initial);
    CutInOrderExtend(s, fin.tokens, [Token(EOF, "", NoLiteral, fin.line)], PassStarts(s, Initial));
  }

  /** Appending tokens keeps the earlier ones cut in order. */
  lemma CutInOrderExtend(s: string, toks: seq<Token>, more: seq<Token>, starts: seq<nat>)
    requires CutInOrder(s, toks, 0, starts, 0)
    ensures CutInOrder(s, toks + more, 0, starts, 0)
  {
    assert forall k :: 0 <= k < |toks| ==> (toks + more)[k] == toks[k];
  }

  // ---- Diagnostics -----------------------------------------------------------

  /** Diagnostic `d` carries one of the scanner's two messages, at a line
      between `low` and `high`. */
  predicate LexicalError(d: Diagnostic, low: int, high: int) {
    (d.message == UnexpectedCharacter || d.message == UnterminatedString) &&
    low <= d.line <= high
  }

  /** One pass reports at most one error, with one of the two messages, at a
      line between the lines before and after the pass. */
  lemma StepErrors(s: string, st: Cursor)
    requires st.start <= st.current < |s|
    ensures var r := Step(s, st);
      forall k :: |st.errors| <= k < |r.errors| ==> LexicalError(r.errors[k], st.line, r.line)
  {
    var st1 := st.(current := st.current + 1);
    match Classify(s[st.current])
    case Punctuation(kind) =>
      StepOnPunctuation(s, st, kind);
    case ChainCase(stage) =>
      StepOnChain(s, st, stage);
    case Quote =>
      StepOnQuote(s, st);
      var close := FirstFrom(s, st1.current, '"');
      var reached := st1.(current := close, line := st1.line + NewlinesIn(s, st1.current, close));
      if close == |s| {
        assert StringLiteral(s, st1) == Report(reached, UnterminatedString);
      } else {
        assert StringLiteral(s, st1).errors == st.errors;
      }
    case Digit =>
      StepOnDigit(s, st);
    case LineBreak =>
      StepOnLineBreak(s, st);
    case Blank =>
      StepOnOneCharacter(s, st);
    case Unexpected =>
      UnexpectedCharacterReported(s, st);
  }

  /** The main loop reports at most one error per character it scans, each
      with one of the two messages, at a line between the lines it starts and
      ends at. */
  lemma {:induction false} ScanFromErrors(s: string, st: Cursor)
    requires st.start <= st.current <= |s|
    ensures var r := ScanFrom(s, st);
      |r.errors| - |st.errors| <= |s| - st.current &&
      forall k :: |st.errors| <= k < |r.errors| ==> LexicalError(r.errors[k], st.line, r.line)
    decreases |s| - st.current
  {
    if st.current < |s| {
      var st0 := st.(start := st.current);
      var st1 := Step(s, st0);
      var r := ScanFrom(s, st1);
      assert ScanFrom(s, st) == r;
      StepErrors(s, st0);
      ScanFromErrors(s, st1);
      forall k | |st.errors| <= k < |r.errors|
        ensures LexicalError(r.errors[k], st.line, r.line)
      {
        if k < |st1.errors| {
          assert r.errors[k] == st1.errors[k];
        }
      }
    }
  }

  /** A scan reports at most one error per character of the input, each with
      one of the two messages and at a line from 1 to the final line. */
  lemma DiagnosticsAreLexicalErrors(s: string)
    ensures var errs := Diagnostics(s);
      |errs| <= |s| &&
      forall k :: 0 <= k < |errs| ==> LexicalError(errs[k], 1, 1 + multiset(s)['\n'])
  {
    ScanFromErrors(s, Initial);
    ScanFromLines(s, Initial);
    NewlinesCountsOccurrences(s, 0, |s|);
    SubstringChars(s, 0, |s|);
    assert Substring(s, 0, |s|) == s;
  }
}
