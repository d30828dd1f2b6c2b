/** The Lox scanner as an object whose methods move its cursors and append to
    its token list in place. Every method is proved to change the fields
    exactly as the corresponding function of module Lexer says. */
module LoxScanner {
  import opened Tokens
  import opened Lexer

  class Scanner {
    const source: string
    var tokens: seq<Token>
    /** What the scanner has reported to the diagnostics sink, in order. */
    var errors: seq<Diagnostic>
    /** Where the lexeme being scanned starts. */
    var start: nat
    /** The next character to consume. */
    var current: nat
    var line: int

    ghost predicate Valid()
      reads this
    {
      start <= current <= |source|
    }

    /** The fields as a Lexer.Cursor value. */
    ghost function Snapshot(): Cursor
      reads this
    {
      Cursor(start, current, line, tokens, errors)
    }

    constructor (source: string)
      ensures this.source == source
      ensures Valid() && Snapshot() == Initial
    {
      this.source := source;
      tokens, errors := [], [];
      start, current, line := 0, 0, 1;
    }

    /** Whether the input is used up, so that there is no next character. */
    function IsAtEnd(): (atEnd: bool)
      reads this
      ensures !atEnd <==> current < |source|
    {
      current >= |source|
    }

    /** The next character without consuming it; NUL once the input is used up. */
    function Peek(): (c: char)
      reads this
      ensures current >= |source| ==> c == '\0'
      ensures current < |source| ==> c == source[current]
    {
      if IsAtEnd() then '\0' else source[current]
    }

    /** The character after the next one, without consuming anything; NUL
        when there is none. */
    function PeekNext(): (c: char)
      reads this
      ensures current + 1 >= |source| ==> c == '\0'
      ensures current + 1 < |source| ==> c == source[current + 1]
    {
      if current + 1 >= |source| then '\0' else source[current + 1]
    }

    /** Consumes the next character and returns it. The source reads past the
        end of the text when this is called at the end, so callers must not. */
    method Advance() returns (c: char)
      requires current < |source|
      modifies this`current
      ensures current == old(current) + 1
      ensures c == source[old(current)]
    {
      c := source[current];
      current := current + 1;
    }

    /** Consumes the next character only when it is `expected`. */
    method Match(expected: char) returns (matched: bool)
      modifies this`current
      ensures matched <==> old(current) < |source| && source[old(current)] == expected
      ensures current == if matched then old(current) + 1 else old(current)
    {
      if IsAtEnd() {
        return false;
      }
      if source[current] != expected {
        return false;
      }
      current := current + 1;
      return true;
    }

    /** Appends a token of category `kind` without a literal. */
    method AddToken(kind: TokenType)
      requires Valid()
      modifies this`tokens
      ensures tokens == old(tokens) + [Token(kind, Substring(source, start, current), NoLiteral, line)]
    {
      AddLiteralToken(kind, NoLiteral);
    }

    /** Appends a token whose lexeme is the text from `start` to `current`. */
    method AddLiteralToken(kind: TokenType, literal: Literal)
      requires Valid()
      modifies this`tokens
      ensures tokens == old(tokens) + [Token(kind, Substring(source, start, current), literal, line)]
    {
      var text := Substring(source, start, current);
      tokens := tokens + [Token(kind, text, literal, line)];
    }

    /** Reports `message` at the current line to the diagnostics sink. */
    method ReportError(message: string)
      modifies this`errors
      ensures errors == old(errors) + [Diagnostic(line, message)]
    {
      errors := errors + [Diagnostic(line, message)];
    }

    /** Scans the lexemes of the whole input and appends the EOF token. */
    method ScanTokens() returns (result: seq<Token>)
      requires Valid()
      modifies this`start, this`current, this`line, this`tokens, this`errors
      ensures Valid()
      ensures var fin := ScanFrom(source, old(Snapshot()));
        start == fin.start && current == fin.current && current == |source| &&
        line == fin.line && errors == fin.errors &&
        tokens == fin.tokens + [Token(EOF, "", NoLiteral, fin.line)]
      ensures result == tokens
    {
      while !IsAtEnd()
        invariant Valid()
        invariant ScanFrom(source, Snapshot()) == ScanFrom(source, old(Snapshot()))
        decreases |source| - current
      {
        start := current;
        ScanToken();
      }
      tokens := tokens + [Token(EOF, "", NoLiteral, line)];
      result := tokens;
    }

    /** Consumes one character and dispatches on it. */
    method ScanToken()
      requires Valid() && current < |source|
      modifies this`current, this`line, this`tokens, this`errors
      ensures Valid() && Snapshot() == Step(source, old(Snapshot()))
    {
      var c := Advance();
      match c
      case '(' => AddToken(LEFT_PAREN);
      case ')' => AddToken(RIGHT_PAREN);
      case '{' => AddToken(LEFT_BRACE);
      case '}' => AddToken(RIGHT_BRACE);
      case ',' => AddToken(COMMA);
      case '.' => AddToken(DOT);
      case '-' => AddToken(MINUS);
      case '+' => AddToken(PLUS);
      case ';' => AddToken(SEMICOLON);
      case '*' => AddToken(STAR);
      case '!' =>
        assert Classify(c) == ChainCase(0);
        OperatorChain(0);
      case '=' =>
        assert Classify(c) == ChainCase(1);
        OperatorChain(1);
      case '>' =>
        assert Classify(c) == ChainCase(2);
        OperatorChain(2);
      case '<' =>
        assert Classify(c) == ChainCase(3);
        OperatorChain(3);
      case '/' =>
        assert Classify(c) == ChainCase(4);
        OperatorChain(4);
      case ' ' | '\r' | '\t' =>
      case '\n' => line := line + 1;
      case '"' => StringLiteral();
      case _ =>
        if IsDigit(c) {
          assert Classify(c) == Digit;
          NumberLiteral();
        } else {
          assert Classify(c) == Unexpected;
          ReportError(UnexpectedCharacter);
        }
    }

    /** The switch cases for '!', '=', '>' and '<', which end without a
        `break`, followed by the '/' case they all fall into. `entry` is the
        case the switch jumped to: 0 for '!', 1 for '=', 2 for '>', 3 for '<'
        and 4 for '/'. */
    method OperatorChain(entry: nat)
      requires Valid() && start < current && entry <= 4
      modifies this`current, this`tokens
      ensures Valid() && Snapshot() == Chain(source, old(Snapshot()), entry)
    {
      ghost var goal := Chain(source, Snapshot(), entry);
      if entry <= 0 {
        OperatorCase(0);
      }
      assert entry <= 1 ==> Chain(source, Snapshot(), 1) == goal;
      if entry <= 1 {
        OperatorCase(1);
      }
      assert entry <= 2 ==> Chain(source, Snapshot(), 2) == goal;
      if entry <= 2 {
        OperatorCase(2);
      }
      assert entry <= 3 ==> Chain(source, Snapshot(), 3) == goal;
      if entry <= 3 {
        OperatorCase(3);
      }
      assert Chain(source, Snapshot(), 4) == goal;
      SlashCase();
    }

    /** The body of one of the cases '!' (stage 0), '=' (1), '>' (2) and
        '<' (3): a two-character operator token when the next character is
        '=', the one-character one otherwise. Control then falls into the
        next case. */
    method OperatorCase(stage: nat)
      requires Valid() && start < current && stage < 4
      modifies this`current, this`tokens
      ensures Valid() && start < current
      ensures Snapshot() == OperatorStage(source, old(Snapshot()), stage)
    {
      var equal := Match('=');
      AddToken(ChainKind(stage, equal));
    }

    /** The '/' case: a comment when a second '/' follows, else SLASH. */
    method SlashCase()
      requires Valid() && start < current
      modifies this`current, this`tokens
      ensures Valid() && Snapshot() == Lexer.SlashCase(source, old(Snapshot()))
    {
      var slash := Match('/');
      if slash {
        // Skip the comment, stopping before its newline.
        ghost var from := current;
        while Peek() != '\n' && !IsAtEnd()
          invariant from <= current <= FirstFrom(source, from, '\n')
          invariant tokens == old(tokens)
          decreases |source| - current
        {
          var skipped := Advance();
        }
      } else {
        AddToken(SLASH);
      }
    }

    /** A string literal; the opening quote has been consumed. */
    method StringLiteral()
      requires Valid() && start < current
      modifies this`current, this`line, this`tokens, this`errors
      ensures Valid() && Snapshot() == Lexer.StringLiteral(source, old(Snapshot()))
    {
      ghost var entry := Snapshot();
      while Peek() != '"' && !IsAtEnd()
        invariant entry.current <= current <= FirstFrom(source, entry.current, '"')
        invariant Snapshot() == entry.(current := current, line := entry.line + NewlinesIn(source, entry.current, current))
        decreases |source| - current
      {
        if Peek() == '\n' {
          line := line + 1;
        }
        var consumed := Advance();
      }
      if IsAtEnd() {
        ReportError(UnterminatedString);
        assert Snapshot() == Lexer.StringLiteral(source, entry);
        return;
      }
      // Consume the quote that ends the string.
      var quote := Advance();
      var value := Substring(source, start + 1, current - 1);
      AddLiteralToken(STRING, StringValue(value));
      assert Snapshot() == Lexer.StringLiteral(source, entry);
    }

    /** A number literal; its first digit has been consumed. */
    method NumberLiteral()
      requires Valid() && start < current
      modifies this`current, this`tokens
      ensures Valid() && Snapshot() == Lexer.NumberLiteral(source, old(Snapshot()))
    {
      ghost var before := Snapshot();
      while IsDigit(Peek())
        invariant before.current <= current <= DigitsEnd(source, before.current)
        invariant tokens == old(tokens)
        decreases |source| - current
      {
        var digit := Advance();
      }
      assert current == DigitsEnd(source, before.current);
      // A '.' belongs to the number only when a digit follows it.
      if Peek() == '.' && IsDigit(PeekNext()) {
        var dot := Advance();
        ghost var fraction := current;
        while IsDigit(Peek())
          invariant fraction <= current <= DigitsEnd(source, fraction)
          invariant tokens == old(tokens)
          decreases |source| - current
        {
          var digit := Advance();
        }
      }
      assert current == NumberEnd(source, before.current);
      assert Lexer.NumberLiteral(source, before)
        == Emit(source, before.(current := current), NUMBER, NumberValue(Substring(source, start, current)));
      AddLiteralToken(NUMBER, NumberValue(Substring(source, start, current)));
    }
  }

  /** Scans `source` with a fresh scanner, as the interpreter's driver does
      before it prints the tokens. */
  method Tokenize(source: string) returns (tokens: seq<Token>, errors: seq<Diagnostic>)
    ensures tokens == Scan(source) && errors == Diagnostics(source)
  {
    var scanner := new Scanner(source);
    tokens := scanner.ScanTokens();
    errors := scanner.errors;
  }
}
