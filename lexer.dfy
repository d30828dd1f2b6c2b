/** The scanner's behaviour as functions on a state value. Each function
    describes what one of the scanner's methods does to the scanner's fields;
    the class in module LoxScanner is proved against them, and the facts
    about the whole scan are proved about them in module LexerFacts. */
module Lexer {
  import opened Tokens

  /** The scanner's fields as a value: where the current lexeme starts, the
      next unconsumed position, the line counter, and what has been emitted
      and reported so far. */
  datatype Cursor = Cursor(start: nat, current: nat, line: int,
                           tokens: seq<Token>, errors: seq<Diagnostic>)

  /** A freshly constructed scanner. */
  const Initial: Cursor := Cursor(0, 0, 1, [], [])

  predicate IsDigit(c: char) {
    '0' <= c <= '9'
  }

  /** The first position at or after `i` that holds `c`, or `|s|` when the
      rest of `s` has none. */
  function FirstFrom(s: string, i: nat, c: char): (j: nat)
    requires i <= |s|
    ensures i <= j <= |s|
    ensures j < |s| ==> s[j] == c
    ensures forall k :: i <= k < j ==> s[k] != c
    decreases |s| - i
  {
    if i == |s| || s[i] == c then i else FirstFrom(s, i + 1, c)
  }

  /** The end of the longest run of digits that starts at `i`. */
  function DigitsEnd(s: string, i: nat): (j: nat)
    requires i <= |s|
    ensures i <= j <= |s|
    ensures j < |s| ==> !IsDigit(s[j])
    ensures forall k :: i <= k < j ==> IsDigit(s[k])
    decreases |s| - i
  {
    if i == |s| || !IsDigit(s[i]) then i else DigitsEnd(s, i + 1)
  }

  /** The characters of `s` from position `i` up to, not including, `j`:
      the `substring` the scanner cuts lexemes and literal values with. */
  function Substring(s: string, i: nat, j: nat): (r: string)
    requires i <= j <= |s|
    ensures |r| == j - i
    decreases j - i
  {
    if i == j then [] else Substring(s, i, j - 1) + [s[j - 1]]
  }

  /** The number of newline characters in `s[i..j]`. */
  function NewlinesIn(s: string, i: nat, j: nat): nat
    requires i <= j <= |s|
    decreases j - i
  {
    if j == i then 0 else NewlinesIn(s, i, j - 1) + (if s[j - 1] == '\n' then 1 else 0)
  }

  /** Token `t` is an ordinary (non-EOF) token whose lexeme is a non-empty
      stretch of `s` that begins at `from` and ends by `limit`. */
  predicate LexemeWithin(s: string, from: nat, limit: nat, t: Token)
    requires from <= limit <= |s|
  {
    t.kind != EOF && 0 < |t.lexeme| <= limit - from && t.lexeme == Substring(s, from, from + |t.lexeme|)
  }

  /** Every token of `toks` from index `first` on satisfies LexemeWithin. */
  predicate NewLexemesWithin(s: string, from: nat, limit: nat, toks: seq<Token>, first: nat)
    requires from <= limit <= |s|
  {
    forall k | first <= k < |toks| :: LexemeWithin(s, from, limit, toks[k])
  }

  /** Appends a token whose lexeme is the text from `start` up to `current`. */
  function Emit(s: string, st: Cursor, kind: TokenType, literal: Literal): Cursor
    requires st.start <= st.current <= |s|
  {
    st.(tokens := st.tokens + [Token(kind, Substring(s, st.start, st.current), literal, st.line)])
  }

  /** Appends a diagnostic at the current line. */
  function Report(st: Cursor, message: string): Cursor {
    st.(errors := st.errors + [Diagnostic(st.line, message)])
  }

  /** Consumes the character at `current` when it is `expected`. */
  function Match(s: string, st: Cursor, expected: char): (bool, Cursor) {
    if st.current < |s| && s[st.current] == expected then (true, st.(current := st.current + 1))
    else (false, st)
  }

  /** Which case of the scanner's switch a character selects. */
  datatype CharClass =
    | Punctuation(kind: TokenType)
    /** One of '!', '=', '>', '<' and '/', whose cases form a chain without
        `break`s; `stage` is where the character enters it: 0 for '!', 1 for
        '=', 2 for '>', 3 for '<' and 4 for '/', the last case of the chain. */
    | ChainCase(stage: nat)
    | Blank
    | LineBreak
    | Quote
    | Digit
    | Unexpected

  /** The case labels of the switch; a digit is recognised in its default
      case, and every other character reaching it is reported. */
  function Classify(c: char): (r: CharClass)
    ensures r.ChainCase? ==> r.stage <= 4
    ensures r == LineBreak <==> c == '\n'
    ensures r == Quote <==> c == '"'
    ensures r == Digit <==> IsDigit(c)
  {
    match c
    case '(' => Punctuation(LEFT_PAREN)
    case ')' => Punctuation(RIGHT_PAREN)
    case '{' => Punctuation(LEFT_BRACE)
    case '}' => Punctuation(RIGHT_BRACE)
    case ',' => Punctuation(COMMA)
    case '.' => Punctuation(DOT)
    case '-' => Punctuation(MINUS)
    case '+' => Punctuation(PLUS)
    case ';' => Punctuation(SEMICOLON)
    case '*' => Punctuation(STAR)
    case '!' => ChainCase(0)
    case '=' => ChainCase(1)
    case '>' => ChainCase(2)
    case '<' => ChainCase(3)
    case '/' => ChainCase(4)
    case ' ' => Blank
    case '\r' => Blank
    case '\t' => Blank
    case '\n' => LineBreak
    case '"' => Quote
    case _ => if IsDigit(c) then Digit else Unexpected
  }

  /** The category stage `stage` of the chain emits: the two-character
      operator when its `match('=')` succeeded, the one-character one otherwise. */
  function ChainKind(stage: nat, matched: bool): TokenType
    requires stage < 4
  {
    if stage == 0 then (if matched then BANG_EQUAL else BANG)
    else if stage == 1 then (if matched then EQUAL_EQUAL else EQUAL)
    else if stage == 2 then (if matched then GREATER_EQUAL else GREATER)
    else (if matched then LESS_EQUAL else LESS)
  }

  /** The '/' case, the last of the chain: a second '/' starts a comment,
      skipped up to (not including) the next newline; otherwise SLASH. */
  function SlashCase(s: string, st: Cursor): (r: Cursor)
    requires st.start < st.current <= |s|
    ensures st.current <= r.current <= |s|
    ensures r.start == st.start && r.line == st.line && r.errors == st.errors
    ensures r.tokens == st.tokens || r.tokens == st.tokens + [Token(SLASH, Substring(s, st.start, r.current), NoLiteral, st.line)]
    ensures r.tokens == st.tokens <==> st.current < |s| && s[st.current] == '/'
    ensures r.tokens == st.tokens ==> r.current > st.current
    ensures r.tokens != st.tokens ==> r.current == st.current
    ensures forall k :: st.current <= k < r.current ==> s[k] != '\n'
  {
    var (slash, st1) := Match(s, st, '/');
    if slash then st1.(current := FirstFrom(s, st1.current, '\n'))
    else Emit(s, st, SLASH, NoLiteral)
  }

  /** One of the cases '!' (stage 0), '=' (1), '>' (2) and '<' (3): an
      optional '=' is matched and one operator token is emitted. */
  function OperatorStage(s: string, st: Cursor, stage: nat): Cursor
    requires stage < 4
    requires st.start < st.current <= |s|
  {
    var (equal, st1) := Match(s, st, '=');
    Emit(s, st1, ChainKind(stage, equal), NoLiteral)
  }

  /** The chain of switch cases from stage `stage` on: each of stages 0..3
      matches an optional '=' and emits one operator token, then control
      reaches the '/' case. */
  function Chain(s: string, st: Cursor, stage: nat): (r: Cursor)
    requires stage <= 4
    requires st.start < st.current <= |s|
    ensures st.current <= r.current <= |s|
    ensures r.start == st.start && r.line == st.line && r.errors == st.errors
    ensures st.tokens <= r.tokens
    ensures |r.tokens| == |st.tokens| + 4 - stage || |r.tokens| == |st.tokens| + 5 - stage
    decreases 4 - stage
  {
    if stage == 4 then SlashCase(s, st)
    else Chain(s, OperatorStage(s, st, stage), stage + 1)
  }

  /** A string literal, entered just after its opening quote: it runs to the
      next '"', counting the newlines it crosses. Without a closing quote it
      reports an error at the line reached and emits nothing. */
  function StringLiteral(s: string, st: Cursor): (r: Cursor)
    requires st.start < st.current <= |s|
  {
    var close := FirstFrom(s, st.current, '"');
    var reached := st.(current := close, line := st.line + NewlinesIn(s, st.current, close));
    if close == |s| then Report(reached, UnterminatedString)
    else Emit(s, reached.(current := close + 1), STRING, StringValue(Substring(s, st.start + 1, close)))
  }

  /** The end of a number literal whose digits continue at `i`: the digit
      run, and a fraction only when the '.' is followed by a digit. */
  function NumberEnd(s: string, i: nat): (j: nat)
    requires i <= |s|
    ensures i <= j <= |s|
    ensures forall k :: i <= k < j ==> IsDigit(s[k]) || s[k] == '.'
  {
    var whole := DigitsEnd(s, i);
    if whole + 1 < |s| && s[whole] == '.' && IsDigit(s[whole + 1]) then DigitsEnd(s, whole + 1)
    else whole
  }

  /** A number literal, entered just after its first digit. */
  function NumberLiteral(s: string, st: Cursor): (r: Cursor)
    requires st.start < st.current <= |s|
  {
    var end := NumberEnd(s, st.current);
    Emit(s, st.(current := end), NUMBER, NumberValue(Substring(s, st.start, end)))
  }

  /** One pass of the scanner's switch: consume one character and act on it. */
  function Step(s: string, st: Cursor): (r: Cursor)
    requires st.start <= st.current < |s|
    ensures st.current < r.current <= |s|
    ensures r.start == st.start && r.line >= st.line
    ensures st.tokens <= r.tokens && st.errors <= r.errors
    ensures |r.errors| <= |st.errors| + 1
  {
    var st1 := st.(current := st.current + 1);
    match Classify(s[st.current])
    case Punctuation(kind) => Emit(s, st1, kind, NoLiteral)
    case ChainCase(stage) => Chain(s, st1, stage)
    case Blank => st1
    case LineBreak => st1.(line := st1.line + 1)
    case Quote => StringLiteral(s, st1)
    case Digit => NumberLiteral(s, st1)
    case Unexpected => Report(st1, UnexpectedCharacter)
  }

  /** The main loop: a new lexeme starts at `current` each time round, until
      the input is used up. */
  function ScanFrom(s: string, st: Cursor): (r: Cursor)
    requires st.start <= st.current <= |s|
    ensures r.current == |s| && r.line >= st.line
    ensures st.tokens <= r.tokens && st.errors <= r.errors
    decreases |s| - st.current
  {
    if st.current == |s| then st else ScanFrom(s, Step(s, st.(start := st.current)))
  }

  /** The token list a fresh scanner returns for `s`. */
  function Scan(s: string): seq<Token> {
    var fin := ScanFrom(s, Initial);
    fin.tokens + [Token(EOF, "", NoLiteral, fin.line)]
  }

  /** The errors a fresh scanner reports for `s`, in order. */
  function Diagnostics(s: string): seq<Diagnostic> {
    ScanFrom(s, Initial).errors
  }
}
