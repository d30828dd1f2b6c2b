# Lox scanner, modelled and verified in Dafny

This project models the lexical scanner of a Lox interpreter written in Java
(`Scanner.java`). The scanner turns a source string into tokens:
- it moves two cursors, `start` and `current`, over the text;
- it counts lines;
- it looks ahead one character (`peek`, `match`) or two (`peekNext`);
- it cuts string and number literals out of the text;
- it reports a lexical error and keeps going.

The project has five files:

- `tokens.dfy` (module `Tokens`) defines the values the scanner produces:
  - token categories, literals and tokens;
  - the diagnostics sent to the error sink, with the two messages the scanner uses.
- `lexer.dfy` (module `Lexer`) describes, as functions on a `Cursor`, the scanner methods that change several fields, together with `match`, `addToken`, `isDigit` and the error report. A `Cursor` is the scanner's fields as a value: `start`, `current`, `line`, the token list, and the diagnostics reported so far.
  - `peek`, `peekNext`, `isAtEnd` and `advance` have no function here: the functions read `s[i]` directly, and those four are modelled only in the class.
  - One pass of the `switch` is `Step`. The main loop is `ScanFrom`, and `Scan` is a whole scan.
  - The cases `'!'`, `'='`, `'>'` and `'<'` have no `break`. They are modelled as written, as a chain that `Chain` runs from the entry case down to the `'/'` case.
- `scanner.dfy` (module `LoxScanner`) is the scanner itself, as a class whose methods update its fields in place.
  - `ScanToken`, `OperatorChain`, `OperatorCase`, `SlashCase`, `StringLiteral` and `NumberLiteral` are proved to leave the fields exactly as their `Lexer` function says. The proof compares the fields, collected by `Snapshot()`, with that function.
  - `ScanTokens` states its final fields from `ScanFrom`.
  - `IsAtEnd`, `Peek`, `PeekNext`, `Advance`, `Match`, `AddToken`, `AddLiteralToken` and `ReportError` state their effect on the fields directly.
  - The main loop keeps the invariant that what remains to be done is `ScanFrom` of the current state.
  - `Tokenize` runs a fresh scanner the way the interpreter's driver does.
- `lexer_facts.dfy` (module `LexerFacts`) proves what the scanner promises.
  - **Per character class:** punctuation, blanks, newlines, comments, strings, numbers, unexpected characters, and the operator chain.
  - **For a whole scan:**
    - the last token is `EOF`, and it is the only `EOF`;
    - every other token is cut from the input in order: its lexeme is the non-empty text at the position where its pass of the `switch` began, those positions never go back, and a token from a later pass begins after the end of every token of an earlier pass;
    - the final line is one plus the number of newlines in the input;
    - there is at most one diagnostic per character, each with one of the two messages, at a line between 1 and the final line.
- `scan_cases.dfy` (module `ScanCases`) works out whole scans of a few short inputs, including `"!"`, `"<="`, `">=/x"` and `"12."`.

Some of the code's behaviour differs from what a reader of a Lox scanner might expect. The model follows the code:
- **Operators.** One might expect `"!"` to be a single BANG token and `"!="` a single BANG_EQUAL. Because of the missing `break`s, the code scans `"!"` as `BANG EQUAL GREATER LESS SLASH EOF`. Every one of those tokens has the lexeme `"!"` (`ScanCases.BangFallsThrough`).
- **A token's line.** One might expect a token to carry the line of its first character. The code gives it the line counter at the moment the token is added. For a string that spans lines, that is the line of the closing quote (`LexerFacts.StringToken`).
- **Error messages.** They are the code's exact texts: `"unexpected character!"` and `"Unterminated string."`.

## Model

| member | source | states |
|---|---|---|
| LoxScanner.Scanner.constructor | src/com/craftinginterpreters/lox/Scanner.java:20-36 | a new scanner holds the source, no tokens and no errors, with `start = current = 0` and `line = 1` |
| LoxScanner.Scanner.IsAtEnd | src/com/craftinginterpreters/lox/Scanner.java:38-40 | there is a next character exactly when `current` is below the length of the source |
| LoxScanner.Scanner.Peek | src/com/craftinginterpreters/lox/Scanner.java:104-107 | NUL at the end of the input, otherwise the character at `current`; reads only, moves nothing |
| LoxScanner.Scanner.PeekNext | src/com/craftinginterpreters/lox/Scanner.java:172-175 | NUL when `current + 1` is past the end, otherwise the character after the next one; moves nothing |
| LoxScanner.Scanner.Match | src/com/craftinginterpreters/lox/Scanner.java:110-117 | returns true exactly when not at the end and the next character is the expected one; `current` moves by one exactly then, and is unchanged otherwise |
| LoxScanner.Scanner.Advance | src/com/craftinginterpreters/lox/Scanner.java:120-122 | returns the character at `current` and moves `current` by one |
| LoxScanner.Scanner.AddToken | src/com/craftinginterpreters/lox/Scanner.java:124-126 | appends one token of the given category with no literal, whose lexeme is the text from `start` to `current`, at the current line |
| LoxScanner.Scanner.AddLiteralToken | src/com/craftinginterpreters/lox/Scanner.java:128-131 | appends one token with the given literal, whose lexeme is the text from `start` to `current`, at the current line |
| LoxScanner.Scanner.ReportError | src/com/craftinginterpreters/lox/Scanner.java:97 | appends the message at the current line to the diagnostics, as `Lox.error` is called with it |
| LoxScanner.Scanner.ScanTokens | src/com/craftinginterpreters/lox/Scanner.java:42-51 | loops until the input is used up; the new state is `ScanFrom` of the old one, plus one EOF token with an empty lexeme, no literal and the final line; returns the token list |
| LoxScanner.Scanner.ScanToken | src/com/craftinginterpreters/lox/Scanner.java:56-101 | consumes one character and updates every field as `Step` says, keeping `start <= current <= |source|` |
| LoxScanner.Scanner.OperatorChain | src/com/craftinginterpreters/lox/Scanner.java:69-80 | entering the switch at `'!'`, `'='`, `'>'`, `'<'` or `'/'` runs every later case down to the `'/'` case, as `Chain` says |
| LoxScanner.Scanner.OperatorCase | src/com/craftinginterpreters/lox/Scanner.java:69-72 | one operator case: matches an optional `'='` and appends the two- or one-character operator token |
| LoxScanner.Scanner.SlashCase | src/com/craftinginterpreters/lox/Scanner.java:73-80 | a second `'/'` skips to the next newline or the end without consuming the newline and adds no token; otherwise it appends SLASH |
| LoxScanner.Scanner.StringLiteral | src/com/craftinginterpreters/lox/Scanner.java:133-150 | runs to the next quote, adding one to `line` per newline crossed. Without a closing quote it reports "Unterminated string." at the line reached. Otherwise it consumes the quote and appends a STRING token whose literal is the text between the quotes |
| LoxScanner.Scanner.NumberLiteral | src/com/craftinginterpreters/lox/Scanner.java:157-170 | consumes the digit run, plus a `.` and the next digit run only when a digit follows the `.`, then appends a NUMBER token carrying the matched text |
| LoxScanner.Tokenize | src/com/craftinginterpreters/lox/Lox.java:41-44 | a fresh scanner returns exactly `Scan(source)` and reports exactly `Diagnostics(source)` |
| Lexer.Classify | src/com/craftinginterpreters/lox/Scanner.java:58-99 | which case of the switch a character selects: only `'\n'` selects the newline case, only `'"'` the string case, exactly the digits `0`-`9` the number branch, and a chain case enters at a stage of at most 4 |
| Lexer.FirstFrom | src/com/craftinginterpreters/lox/Scanner.java:134-137 | the loop `while (peek() != c && !isAtEnd())` stops at the first position at or after its start that holds `c`, or at the end when none does |
| Lexer.DigitsEnd | src/com/craftinginterpreters/lox/Scanner.java:158 | the loop `while (isDigit(peek()))` stops at the end of the longest digit run from its start |
| Lexer.Substring | src/com/craftinginterpreters/lox/Scanner.java:129 | `substring(i, j)` has `j - i` characters |
| Lexer.SlashCase | src/com/craftinginterpreters/lox/Scanner.java:73-80 | the `'/'` case adds no token exactly when the next character is a second `'/'`, which it then consumes; otherwise it adds one SLASH token over the text from `start` and consumes nothing. It never consumes a newline and changes neither `line` nor the errors |
| LexerFacts.SlashCaseBranches | src/com/craftinginterpreters/lox/Scanner.java:73-80 | the whole new state of the `'/'` case: after a second `'/'`, only `current` changes, to the first newline after it or the end of the input; otherwise only one SLASH token over the text from `start` is appended |
| Lexer.Chain | src/com/craftinginterpreters/lox/Scanner.java:69-80 | from stage `k` the chain appends `4 - k` or `5 - k` tokens to the list, leaving the existing ones in place, and changes neither `line` nor the errors |
| Lexer.NumberEnd | src/com/craftinginterpreters/lox/Scanner.java:157-166 | a number literal ends within the input and spans only digits and `.` |
| Lexer.Step | src/com/craftinginterpreters/lox/Scanner.java:56-101 | one pass consumes at least one character and never decreases `line`. It only appends to the tokens and the errors, and reports at most one error |
| Lexer.ScanFrom | src/com/craftinginterpreters/lox/Scanner.java:43-47 | the main loop ends with the input used up. It never decreases `line` and only appends to the tokens and the errors |
| LexerFacts.DigitsAreDecimal | src/com/craftinginterpreters/lox/Scanner.java:152-154 | `Lexer.IsDigit` holds exactly for the ten characters `0` to `9` |
| LexerFacts.MatchConsumes | src/com/craftinginterpreters/lox/Scanner.java:110-117 | `Lexer.Match` succeeds exactly when not at the end and the next character is the expected one; it then moves `current` by one, and otherwise changes nothing |
| LexerFacts.EmitAppends | src/com/craftinginterpreters/lox/Scanner.java:128-131 | `Lexer.Emit` appends exactly one token of the given category and literal, at the current line, whose lexeme is the characters from `start` up to `current`; nothing else changes |
| LexerFacts.ReportAppends | src/com/craftinginterpreters/lox/Scanner.java:97 | `Lexer.Report` appends exactly one diagnostic, with the given message at the current line, and changes nothing else |
| LexerFacts.SubstringChars | src/com/craftinginterpreters/lox/Scanner.java:129 | `substring(i, j)` holds the characters at positions `i` to `j - 1`, in order |
| LexerFacts.NewlinesCountsOccurrences | src/com/craftinginterpreters/lox/Scanner.java:135 | the newlines a loop counts between two positions are the occurrences of `'\n'` in the text between them |
| LexerFacts.PunctuationToken | src/com/craftinginterpreters/lox/Scanner.java:59-68 | each of `( ) { } , . - + ; *` appends exactly one token of its category whose lexeme is that character, consumes that character, and changes nothing else |
| LexerFacts.BlankSkipped | src/com/craftinginterpreters/lox/Scanner.java:81-89 | space, `\r`, `\t` and `\n` add no token and consume one character; only `\n` adds one to `line` |
| LexerFacts.UnexpectedCharacterReported | src/com/craftinginterpreters/lox/Scanner.java:93-98 | a character no case handles adds no token, reports "unexpected character!" at the current line, and the scan resumes at the next character |
| LexerFacts.CommentSkipped | src/com/craftinginterpreters/lox/Scanner.java:73-76 | `//` adds no token, leaves `line` alone, and stops just before the next newline or at the end of the input, having consumed no newline |
| LexerFacts.StringToken | src/com/craftinginterpreters/lox/Scanner.java:133-150 | through `Lexer.StringLiteral`, a terminated string appends one STRING token. Its lexeme is the literal's text in quotes, the text holds no quote, and the token's line is the start line plus the newlines in the text. The scan stops just after the closing quote |
| LexerFacts.UnterminatedStringReported | src/com/craftinginterpreters/lox/Scanner.java:133-142 | through `Lexer.StringLiteral`, a string without a closing quote adds no token and uses up the input. It reports "Unterminated string." at the line reached, which counts the newlines after the opening quote |
| LexerFacts.NumberToken | src/com/craftinginterpreters/lox/Scanner.java:157-170 | through `Lexer.NumberLiteral`, a number appends one NUMBER token whose literal is its lexeme, with nothing else changed. The lexeme is digits with at most one interior `.` between digits. The next character is not a digit, and a `.` is left unconsumed only when no digit follows it |
| LexerFacts.OperatorStageEmits | src/com/craftinginterpreters/lox/Scanner.java:69-72 | one operator case (`Lexer.OperatorStage`) consumes a `'='` exactly when the next character is `'='`, and then appends the two-character operator, otherwise the one-character operator. The lexeme runs from `start` to the new `current` |
| LexerFacts.ChainFirstToken | src/com/craftinginterpreters/lox/Scanner.java:69-72 | the first token of the chain is the entry case's own operator, in its two-character form exactly when the next character is `'='` |
| LexerFacts.ChainKinds | src/com/craftinginterpreters/lox/Scanner.java:69-72 | through `Lexer.ChainKind`, after the entry case, each later operator case adds one token of its own pair, in the order of the switch |
| LexerFacts.ChainSlashNotBeforeSlash | src/com/craftinginterpreters/lox/Scanner.java:73-78 | when the chain ends with SLASH, the next character is not `'/'`: a second `'/'` after the operators starts a comment instead |
| LexerFacts.ChainEnd | src/com/craftinginterpreters/lox/Scanner.java:73-80 | the chain ends in the `'/'` case. Either its last token is SLASH over all the text the chain consumed, and then the next character is not `'/'`, or it adds no token there and stops at a newline or the end of the input |
| LexerFacts.ChainNoNewline | src/com/craftinginterpreters/lox/Scanner.java:69-80 | the chain consumes no newline |
| LexerFacts.ChainLexemes | src/com/craftinginterpreters/lox/Scanner.java:69-80 | every token of the chain is an ordinary token whose lexeme is a non-empty piece of the consumed text beginning at `start` |
| LexerFacts.ChainAtEnd | src/com/craftinginterpreters/lox/Scanner.java:69-80 | with no character left, each remaining case appends its one-character operator and the `'/'` case SLASH. All have the same lexeme, and nothing is consumed |
| LexerFacts.LoneOperator | src/com/craftinginterpreters/lox/Scanner.java:69-80 | an input of one operator character scans to the one-character tokens of its own case and every later case, then SLASH, then EOF |
| LexerFacts.StepOutsideLines | src/com/craftinginterpreters/lox/Scanner.java:58-99 | apart from the string and newline cases, a pass consumes no newline and leaves `line` alone |
| LexerFacts.StepLexemes | src/com/craftinginterpreters/lox/Scanner.java:124-131 | every token a pass adds is an ordinary token whose lexeme is a non-empty piece of the text the pass consumed, beginning at `start` |
| LexerFacts.StepLines | src/com/craftinginterpreters/lox/Scanner.java:86-89 | a pass adds to `line` exactly the number of newlines it consumed: comments stop before their newline, so every newline is counted by the newline case or inside a string |
| LexerFacts.ScanFromLines | src/com/craftinginterpreters/lox/Scanner.java:43-47 | the main loop ends with `line` equal to its start value plus the number of newlines in the rest of the input |
| LexerFacts.ScanFromInOrder | src/com/craftinginterpreters/lox/Scanner.java:43-47 | every token the main loop adds is a non-EOF token whose lexeme is the non-empty text of the input at the position where its pass began (`start = current`). Those positions never go back, and a token of a later pass begins after the end of every token of an earlier pass |
| LexerFacts.ScanEndsWithEof | src/com/craftinginterpreters/lox/Scanner.java:42-51 | `Lexer.Scan` ends with one EOF token: empty lexeme, no literal, line one plus the number of newlines in the input. Every earlier token is a non-EOF token cut from the input in order, as `ScanFromInOrder` states |
| LexerFacts.StepErrors | src/com/craftinginterpreters/lox/Scanner.java:93-98 | every error a pass reports carries one of the two messages, at a line between the lines before and after the pass |
| LexerFacts.ScanFromErrors | src/com/craftinginterpreters/lox/Scanner.java:43-47 | the main loop reports at most one error per character it scans, each with one of the two messages, at a line between its start line and its end line |
| LexerFacts.DiagnosticsAreLexicalErrors | src/com/craftinginterpreters/lox/Scanner.java:139-142 | `Lexer.Diagnostics` holds at most one diagnostic per input character, each "unexpected character!" or "Unterminated string.", at a line from 1 to one plus the number of newlines in the input |
| ScanCases.BangFallsThrough | src/com/craftinginterpreters/lox/Scanner.java:69-80 | `"!"` scans to BANG, EQUAL, GREATER, LESS and SLASH, each with lexeme `"!"`, then EOF |
| ScanCases.LessEqualThenSlash | src/com/craftinginterpreters/lox/Scanner.java:72-80 | `"<="` scans to LESS_EQUAL and SLASH, both with lexeme `"<="`, then EOF |
| ScanCases.GreaterEqualThenComment | src/com/craftinginterpreters/lox/Scanner.java:71-76 | `">=/x"` scans to GREATER_EQUAL and LESS, both with lexeme `">="`; the `'/'` case then takes `/x` as a comment, so only EOF follows |
| ScanCases.TrailingDotIsSeparate | src/com/craftinginterpreters/lox/Scanner.java:157-166 | `"12."` scans to NUMBER `"12"`, then DOT, then EOF |
| ScanCases.UnterminatedStringCase | src/com/craftinginterpreters/lox/Scanner.java:133-142 | an open string over two lines yields only EOF, on line 2, and one "Unterminated string." at line 2 |
| ScanCases.LetterReported | src/com/craftinginterpreters/lox/Scanner.java:93-98 | `"a;"` reports one unexpected character at line 1 and scans to SEMICOLON, then EOF |

## Left out

- `Lox.java` is not part of this model, apart from the two lines of `run` that create a scanner and call `scanTokens` (`Tokenize`). Left out are reading files, the prompt loop, printing tokens, the format of error messages on standard error, the `hadError` flag and `System.exit`. `Lox.error(line, message)` becomes appending `Diagnostic(line, message)` to the scanner's `errors`, with the line kept as an integer instead of `Integer.toString(line)`.
- `Double.parseDouble`: a NUMBER token's literal is the matched text (`NumberValue`), not a floating-point value, because floating-point decoding is outside the model.
- `Token.java` and `TokenType.java` are not part of this model. `Token` is a minimal datatype of category, lexeme, literal and line. The field `type` is called `kind`, and a missing literal (`null`) is `NoLiteral`.
- Java `int` overflow of `current` and `line` is not modelled, because both stay at most one more than the length of a Java string.
- `char` is Dafny's `char`; UTF-16 surrogate pairs and the platform encoding used to read a file are not modelled.
- LoxScanner.Scanner.Advance: requires `current < |source|`. The source throws `StringIndexOutOfBoundsException` past the end, and no caller reaches that.
- Lexer.Substring: its contract states only the length; what the characters are is stated by `LexerFacts.SubstringChars`.
