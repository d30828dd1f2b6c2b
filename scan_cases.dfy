/** Whole scans of a few short inputs, worked out from the definitions. */
module ScanCases {
  import opened Tokens
  import opened Lexer
  import opened LexerFacts

  /** '!' runs through every case of the chain: one token per case, each
      with the lexeme "!", the last one in the '/' case. */
  lemma BangFallsThrough()
    ensures Scan("!") == [
      Token(BANG, "!", NoLiteral, 1), Token(EQUAL, "!", NoLiteral, 1),
      Token(GREATER, "!", NoLiteral, 1), Token(LESS, "!", NoLiteral, 1),
      Token(SLASH, "!", NoLiteral, 1), Token(EOF, "", NoLiteral, 1)]
  {
    LoneOperator("!", 0);
  }

  /** The '=' of "<=" is matched by the '<' case, which is the last operator
      case, so only SLASH follows, and it too has "<=" as its lexeme. */
  lemma LessEqualThenSlash()
    ensures Scan("<=") == [
      Token(LESS_EQUAL, "<=", NoLiteral, 1), Token(SLASH, "<=", NoLiteral, 1),
      Token(EOF, "", NoLiteral, 1)]
  {
    var s := "<=";
    var fin := Cursor(0, 2, 1, [Token(LESS_EQUAL, "<=", NoLiteral, 1), Token(SLASH, "<=", NoLiteral, 1)], []);
    LessEqualStep(s, fin);
    SingleStepScan(s, fin);
  }

  /** The single pass over "<=": the '<' case matches the '=', and the '/'
      case, at the end of the input, adds SLASH over the same text. */
  lemma LessEqualStep(s: string, fin: Cursor)
    requires s == "<="
    requires fin == Cursor(0, 2, 1, [Token(LESS_EQUAL, "<=", NoLiteral, 1), Token(SLASH, "<=", NoLiteral, 1)], [])
    ensures Step(s, Initial) == fin
  {
    var at := Cursor(0, 1, 1, [], []);
    var st4 := at.(current := 2, tokens := [fin.tokens[0]]);
    StepOnChain(s, Initial, 3);
    assert Substring(s, 0, 2) == "<=";
    assert OperatorStage(s, at, 3) == st4;
    assert Chain(s, at, 3) == Chain(s, st4, 4) == SlashCase(s, st4);
    SlashCaseBranches(s, st4);
  }

  /** After ">=" falls through to the '/' case, a following '/' is taken as
      the start of a comment, not as SLASH: the rest of the line is skipped. */
  lemma GreaterEqualThenComment()
    ensures Scan(">=/x") == [
      Token(GREATER_EQUAL, ">=", NoLiteral, 1), Token(LESS, ">=", NoLiteral, 1),
      Token(EOF, "", NoLiteral, 1)]
  {
    var s := ">=/x";
    var fin := Cursor(0, 4, 1, [Token(GREATER_EQUAL, ">=", NoLiteral, 1), Token(LESS, ">=", NoLiteral, 1)], []);
    GreaterEqualCommentStep(s, fin);
    SingleStepScan(s, fin);
  }

  /** The single pass over ">=/x": two operator tokens, then a comment. */
  lemma GreaterEqualCommentStep(s: string, fin: Cursor)
    requires s == ">=/x"
    requires fin == Cursor(0, 4, 1, [Token(GREATER_EQUAL, ">=", NoLiteral, 1), Token(LESS, ">=", NoLiteral, 1)], [])
    ensures Step(s, Initial) == fin
  {
    var at := Cursor(0, 1, 1, [], []);
    var st2 := at.(current := 2, tokens := [fin.tokens[0]]);
    var st3 := st2.(tokens := fin.tokens);
    StepOnChain(s, Initial, 2);
    GreaterEqualOperators(s, at, st2, st3);
    assert Chain(s, at, 2) == Chain(s, st2, 3);
    assert Chain(s, st2, 3) == Chain(s, st3, 4) == SlashCase(s, st3);
    SlashCaseBranches(s, st3);
    assert FirstFrom(s, 3, '\n') == 4;
  }

  /** The '>' case matches the '=', and the '<' case repeats its lexeme. */
  lemma GreaterEqualOperators(s: string, at: Cursor, st2: Cursor, st3: Cursor)
    requires s == ">=/x" && at == Cursor(0, 1, 1, [], [])
    requires st2 == at.(current := 2, tokens := [Token(GREATER_EQUAL, ">=", NoLiteral, 1)])
    requires st3 == st2.(tokens := st2.tokens + [Token(LESS, ">=", NoLiteral, 1)])
    ensures OperatorStage(s, at, 2) == st2 && OperatorStage(s, st2, 3) == st3
  {
    assert Substring(s, 0, 2) == ">=";
  }

  /** A '.' not followed by a digit is not part of the number. */
  lemma TrailingDotIsSeparate()
    ensures Scan("12.") == [
      Token(NUMBER, "12", NumberValue("12"), 1), Token(DOT, ".", NoLiteral, 1),
      Token(EOF, "", NoLiteral, 1)]
  {
    var s := "12.";
    var t0 := Token(NUMBER, "12", NumberValue("12"), 1);
    var mid := Cursor(0, 2, 1, [t0], []);
    var fin := Cursor(2, 3, 1, [t0, Token(DOT, ".", NoLiteral, 1)], []);
    NumberBeforeDot(s, mid);
    assert Step(s, mid.(start := 2)) == fin by {
      StepOnPunctuation(s, mid.(start := 2), DOT);
      assert Substring(s, 2, 3) == ".";
    }
    TwoStepScan(s, mid, fin);
  }

  /** The first pass over "12." takes the digits and stops at the '.'. */
  lemma NumberBeforeDot(s: string, mid: Cursor)
    requires s == "12." && mid == Cursor(0, 2, 1, [Token(NUMBER, "12", NumberValue("12"), 1)], [])
    ensures Step(s, Initial) == mid
  {
    StepOnDigit(s, Initial);
    assert DigitsEnd(s, 1) == 2;
    assert NumberEnd(s, 1) == 2;
    assert Substring(s, 0, 2) == "12";
  }

  /** A string left open at the end of the input is reported at the line
      reached, and yields no token. */
  lemma UnterminatedStringCase()
    ensures Scan("\"a\nb") == [Token(EOF, "", NoLiteral, 2)]
    ensures Diagnostics("\"a\nb") == [Diagnostic(2, UnterminatedString)]
  {
    var s := "\"a\nb";
    var fin := Cursor(0, 4, 2, [], [Diagnostic(2, UnterminatedString)]);
    assert Step(s, Initial) == fin by {
      UnterminatedStringReported(s, Initial);
      assert NewlinesIn(s, 1, 4) == 1;
    }
    SingleStepScan(s, fin);
  }

  /** A letter is reported and skipped; scanning goes on after it. */
  lemma LetterReported()
    ensures Scan("a;") == [Token(SEMICOLON, ";", NoLiteral, 1), Token(EOF, "", NoLiteral, 1)]
    ensures Diagnostics("a;") == [Diagnostic(1, UnexpectedCharacter)]
  {
    var s := "a;";
    var e := [Diagnostic(1, UnexpectedCharacter)];
    var mid := Cursor(0, 1, 1, [], e);
    var fin := Cursor(1, 2, 1, [Token(SEMICOLON, ";", NoLiteral, 1)], e);
    assert Step(s, Initial) == mid by {
      UnexpectedCharacterReported(s, Initial);
    }
    assert Step(s, mid.(start := 1)) == fin by {
      PunctuationToken(s, mid.(start := 1));
    }
    TwoStepScan(s, mid, fin);
  }
}
