# Lox scanner

A Dafny model of the lexical scanner of a Rust Lox interpreter: the token
data model of `src/token.rs` and the scanner of `src/scanner.rs`, which turns
a source text, line by line, into an ordered list of tokens.

- `wrappers.dfy` (module `Wrappers`): `Option` and `Result`.
- `token.dfy` (module `Tokens`): `TokenType`, `Token`, `Token::new`, and the
  keyword table that the scanner looks identifiers up in.
- `scanner.dfy` (module `Scanning`): the specification functions (one turn of
  the dispatch loop, the table of turns of a line, the spans a line scans
  to given its turns, the tokens of a source) and the
  class `Scanner`, whose methods are the imperative loops of the source,
  each proved equal to its specification function.
- `scanner_properties.dfy` (module `ScanningProperties`): what the scanner
  does, arm by arm of the character match, for a whole line and for a whole
  source.
- `scanner_tests.dfy` (module `ScannerTests`): the outputs on concrete
  one-line sources, including the three unit tests of `src/token.rs`.

How the model reads the source:

- Each line is walked by an iterator whose items are `(i, line[i], line[i+1]
  or nothing)`. The dispatcher and the three sub-scanners pull from that one
  iterator, so the model keeps a single cursor: the index of the next item.
  `advance_by(k)` moves it to `min(|line|, cursor + k)`.
- One token type is built from both files, which disagree: the variants of
  `src/token.rs`, plus the `Comment` kind that `src/scanner.rs` emits. The
  kind carries no payload; a `Token` has a `literal` field as in
  `src/token.rs`, holding the text between the quotes of a String and the
  digit text of a Number.
- The keyword table is not part of this model's sources (it is imported from
  `token.rs` but not defined there). It is modelled as the lookup function
  `Tokens.Keyword`, which maps the lower-case spelling of each of the 16
  keyword kinds to that kind and every other text to nothing.
- A line's scan is stated in two layers. `StepAt(line, pos)` is one turn of
  the loop at cursor `pos`; `Turns(line)` is the table of those turns, one
  per cursor. `Spans` walks any table of turns that fits the line (each turn
  moves the cursor forward, past the lexeme it pushes), so the facts about
  a line's token list are proved once for every such table and then applied
  to the line's own table.
- Where the source panics, the model returns `Err(ScanError(kind, row,
  pos))` and the scan stops there, as the panic would stop it:
  `UnterminatedString` (the slice `line[start+1..start]` when no closing
  quote is found), `UnexpectedCharacter(c)` (the `todo!()` arm) and
  `MalformedNumber(text)` (the `unwrap` of the f64 parse).
- Whether the f64 parse succeeds is decided by `FloatText`, the grammar
  `str::parse::<f64>` accepts for a text that begins with a digit: one or
  more digits, optionally a `.` followed by zero or more digits, optionally
  `e` or `E` with an optional sign and one or more digits. So `1.` and
  `1.e5` parse, and `1e` does not.

The model follows the code where the code departs from the documented
intent. These are properties of the scanner as written:

- `//` pushes a `Comment` token holding the rest of the line. The unit test
  `comment` of `src/token.rs` expects no token; `ScannerTests.CommentTest`
  states what the scanner actually yields.
- `scan_string` keeps the last `"` of the line, never looks at the
  character right after the opening quote (so `""` is unterminated), and
  consumes the rest of the line.
- `scan_number` consumes the rest of the line and hands all of it to the
  parser, so a number followed by anything other than number text fails,
  and so does a digit that ends its line.
- `scan_identifier` never tests the character right after the first one
  (`a b` is one identifier), stops before `_`, and the driver then skips
  `size - 1` more characters.
- So the lexemes of a line do not in general concatenate back to the line:
  the model proves only that they are in-order, non-overlapping slices.

## Model

| member | source | states |
|---|---|---|
| Tokens.New | src/token.rs:61-73 | the token holds exactly the given kind, lexeme, literal and row |
| Tokens.KindAtOrdinal | src/token.rs:2-50 | every kind has a position below 40 in the declaration, and the kind declared there is itself |
| Tokens.OrdinalKindAt | src/token.rs:2-50 | every position below 40 holds a kind whose position it is, so the 40 kinds are distinct |
| Tokens.TokenTypeGroups | src/token.rs:2-50 | the kinds fall into 11 single-character, 8 one-or-two-character, 3 literal and 16 keyword kinds, then EOF, then Comment, each kind in exactly one group |
| Tokens.KeywordKindsAreInTable | src/scanner.rs:164-168 | every keyword kind is in the keyword table under its lower-case spelling |
| Tokens.KeywordTableEntries | src/scanner.rs:164-168 | every table entry maps a word to a keyword kind whose spelling is that word |
| Scanning.Classify | src/scanner.rs:65-94 | a fixed-size arm has size 1, or size 2 only when the next character is `=` |
| Scanning.LastIndexOf | src/scanner.rs:113-117 | the result is the last index at or after `from` holding the character, and none exists when there is no result |
| Scanning.DigitsEnd | src/scanner.rs:145 | the result ends the maximal run of digits starting at `i` |
| Scanning.WordBoundary | src/scanner.rs:155-159 | the result is the first index at or after `from` followed by the end of the line or a non-alphanumeric character, with only alphanumerics in between |
| Scanning.StepAt | src/scanner.rs:63-100 | one turn of the loop moves the cursor forward within the line, and a pushed lexeme is non-empty and lies before the new cursor |
| Scanning.TurnAt | src/scanner.rs:63-100 | entry `q - p` of the turns from cursor `p` on is the turn of the loop at `q` |
| Scanning.Turns | src/scanner.rs:63-100 | the table of a line's turns fits the line: every turn moves the cursor forward within the line and past the lexeme it pushes |
| Scanning.TurnOf | src/scanner.rs:63-100 | the table's entry at a cursor is the turn of the loop there |
| Scanning.SpansSkip | src/scanner.rs:66 | proof step (one case of the definition, used by ScanLine and the line lemmas): a turn that pushes nothing leaves the spans of the cursor it moves to |
| Scanning.SpansPush | src/scanner.rs:96-99 | proof step (one case of the definition, used by ScanLine and the line lemmas): a turn that pushes a lexeme puts the token of `line[pos..pos + size]` before the spans of the cursor it moves to |
| Scanning.TokensStop | src/scanner.rs:94 | proof step (one case of the definition, used by ScanLine and the line lemmas): a turn that fails ends the line's tokens with that error at that row and position |
| Scanning.TokensSkip | src/scanner.rs:66 | proof step (one case of the definition, used by ScanLine and the line lemmas): a turn that pushes nothing leaves the tokens of the cursor it moves to |
| Scanning.TokensPush | src/scanner.rs:96-99 | proof step (one case of the definition, used by ScanLine and the line lemmas): a turn that pushes a lexeme puts its token before the tokens of the cursor it moves to |
| Scanning.Scanner.constructor | src/scanner.rs:18-20 | the scanner holds the given source |
| Scanning.Scanner.ScanTokens | src/scanner.rs:22-54 | the result is the concatenation, in row order, of each line's tokens, or the first line error |
| Scanning.Scanner.ScanLine | src/scanner.rs:56-103 | the loop over a line pushes exactly the tokens of the line's specification, or stops at its first error |
| Scanning.Scanner.ScanStep | src/scanner.rs:63-100 | one turn of the loop, with its sub-scanner call and `advance_by`, yields the lexeme and cursor of `StepAt` |
| Scanning.Scanner.ScanString | src/scanner.rs:105-121 | the lexeme is the string up to the last quote at pos + 2 or later, or UnterminatedString; the cursor ends at the end of the line |
| Scanning.Scanner.ScanNumber | src/scanner.rs:123-146 | the parsed text is the rest of the line (empty when the digit ends the line) and the result is a Number of that text or MalformedNumber; the cursor ends at the end of the line |
| Scanning.Scanner.ScanIdentifier | src/scanner.rs:148-171 | the lexeme runs to the word boundary found from pos + 1, its kind is the keyword entry or Identifier, and the cursor stops just after it |
| ScanningProperties.BlankIsSkipped | src/scanner.rs:66 | space, carriage return and tab give no token and advance by one |
| ScanningProperties.PunctuationTokens | src/scanner.rs:67-76 | each of `( ) { } , . - + ; *` gives one token of its kind and size 1 whose lexeme is that character, and advances by one |
| ScanningProperties.PunctuationKinds | src/scanner.rs:67-76 | the punctuation kinds are single-character kinds other than Slash |
| ScanningProperties.OperatorTokens | src/scanner.rs:77-84 | `! = < >` give the two-character kind of size 2, skipping the `=`, exactly when `=` follows, and otherwise the one-character kind of size 1 |
| ScanningProperties.SlashOrComment | src/scanner.rs:85-88 | `/` gives a Comment to the end of the line when `/` follows, and a Slash of size 1 otherwise |
| ScanningProperties.CommentEndsLine | src/scanner.rs:85-87 | from `//` on, the line yields one Comment token holding the rest of the line and nothing else |
| ScanningProperties.StringTokens | src/scanner.rs:111-120 | a quote scans exactly when a `"` stands at pos + 2 or later; the lexeme ends at the last such quote and includes both quotes, the literal is the text between, and the line is consumed; otherwise UnterminatedString |
| ScanningProperties.NumberTokens | src/scanner.rs:129-145 | a digit gives a Number of the whole rest of the line when a character follows and that text parses; otherwise MalformedNumber of that text, or of the empty text when the digit is last |
| ScanningProperties.IdentifierTokens | src/scanner.rs:154-170 | the identifier ends at the first item from pos + 1 followed by end of line or a non-alphanumeric; its kind is the keyword entry or Identifier; scanning resumes at min(line length, pos + 2 * size - 1) |
| ScanningProperties.IdentifierDispatch | src/scanner.rs:91-92 | the identifier arm pushes the scan_identifier lexeme and advances size - 1 from where it stopped |
| ScanningProperties.UnexpectedCharacters | src/scanner.rs:94 | a turn fails with UnexpectedCharacter exactly on the characters no arm of the match recognises |
| ScanningProperties.SpansArePlaced | src/scanner.rs:96-98 | for any table of turns fitting the line, every token is the non-empty slice `line[pos..pos + size]` inside the line, carries the row, and the tokens come in increasing, non-overlapping positions |
| ScanningProperties.PlacedPush | src/scanner.rs:96-99 | a turn that pushes a lexeme keeps the spans in place |
| ScanningProperties.PlacedCons | src/scanner.rs:96-99 | a non-empty slice ending before the placed spans of a later cursor extends them |
| ScanningProperties.EndsLineStep | src/scanner.rs:85-90 | a String, Number or Comment lexeme leaves the cursor at the end of the line |
| ScanningProperties.EndsLineSpansComeLast | src/scanner.rs:85-90 | in a table whose String, Number and Comment turns end the line, such a span is the last span |
| ScanningProperties.EndsLineTokensComeLast | src/scanner.rs:85-90 | a String, Number or Comment token is the last token of its line |
| ScanningProperties.SpansErrorIsATurn | src/scanner.rs:63-94 | a failed scan from a cursor names its row and a later cursor whose turn fails with that error |
| ScanningProperties.LineErrorIsAStep | src/scanner.rs:63-94 | a failed line names its row and a position in the line at which one turn of the loop fails with that error |
| ScanningProperties.SourceScansIffLinesScan | src/scanner.rs:24-41 | a source scans exactly when every one of its lines scans |
| ScanningProperties.TokensComeFromTheirRow | src/scanner.rs:24-41 | each token of a source's scan is a token of the scan of its own row and carries that row |
| ScanningProperties.RowsInOrder | src/scanner.rs:24-41 | rows never decrease along a source's tokens |
| ScanningProperties.AscendingAppend | src/scanner.rs:39-40 | one row's tokens followed by ascending tokens of later rows stay ascending |
| ScanningProperties.LineTokensAreTagged | src/scanner.rs:39 | every token of a line carries that line's row |
| ScanningProperties.FirstFailingRow | src/scanner.rs:26-41 | a failed source scan fails with the error of its first failing line, all earlier lines scanning |
| ScannerTests.OneLineSource | src/scanner.rs:22-41 | a one-line source scans to the tokens of its line on row 0 |
| ScannerTests.CompoundTokens | src/token.rs:83-88 | `!=` scans to one BangEqual token |
| ScannerTests.StringTest | src/token.rs:91-97 | `("hey, yall()")` scans to LeftParen then a String whose literal is `hey, yall()`, and nothing more |
| ScannerTests.TwoTokenLine | src/scanner.rs:96-99 | a line of two turns that each push a lexeme, the second ending the line, scans to those two tokens |
| ScannerTests.TwoTurns | src/scanner.rs:96-99 | the same for any table of turns fitting the line |
| ScannerTests.StringTestSlices | src/token.rs:91-97 | the test line's slices at the two lexemes are `(` and the quoted string |
| ScannerTests.StringTestQuote | src/scanner.rs:111-120 | the quote at index 1 of that line closes at index 13 and consumes the line |
| ScannerTests.CommentTest | src/scanner.rs:85-87 | `// ("hey!")` scans to one Comment token holding the whole line |
| ScannerTests.WholeLineToken | src/scanner.rs:96-99 | a line whose first lexeme covers it scans to that one token |
| ScannerTests.IntegerNumber | src/scanner.rs:129-145 | `1234` scans to one Number with literal `1234` |
| ScannerTests.FractionalNumber | src/scanner.rs:132-135 | `12.34` scans to one Number with literal `12.34` |
| ScannerTests.TrailingDotNumber | src/scanner.rs:129-145 | `1.` scans to one Number with literal `1.`: a `.` with no digits after it still parses |
| ScannerTests.DanglingExponentFails | src/scanner.rs:129-145 | `1e` fails with MalformedNumber of `1e`: an exponent needs digits |
| ScannerTests.LoneDigitFails | src/scanner.rs:138-145 | `7` fails with MalformedNumber of the empty text |
| ScannerTests.NumberBeforeSemicolonFails | src/scanner.rs:137 | `12;` fails with MalformedNumber of `12;` |
| ScannerTests.PlainIdentifier | src/scanner.rs:154-170 | `variable` scans to one Identifier |
| ScannerTests.PlainIdentifierTurn | src/scanner.rs:154-170 | the turn at the start of `variable` pushes an Identifier of size 8 and ends the line |
| ScannerTests.KeywordIdentifier | src/scanner.rs:164-165 | `if` scans to one If token |
| ScannerTests.UnterminatedStringFails | src/scanner.rs:119 | `"abc` fails with UnterminatedString at row 0, position 0 |
| ScannerTests.EmptyStringFails | src/scanner.rs:112-119 | `""` fails with UnterminatedString |
| ScannerTests.IdentifierTakesNextCharacter | src/scanner.rs:155-157 | `a b` scans to one Identifier with lexeme `a b` |
| ScannerTests.UnexpectedCharacterFails | src/scanner.rs:94 | `@` fails with UnexpectedCharacter |

## Left out

- `src/bin.rs`: argument handling, the read loop on standard input, file
  reading and the process exit code are I/O.
- `src/lib.rs`: `add` is unrelated to scanning, and `error` only prints and
  is never called.
- The debug print of the token list (src/scanner.rs:43) and the commented-out
  EOF token (src/scanner.rs:45-51); no EOF token is produced.
- The f64 value of a Number: the literal is its text, and `FloatText` only
  decides whether the parse succeeds.
- Unicode: lines are read as ASCII, where character indices and byte
  offsets agree and `is_alphanumeric` means an ASCII letter or digit. On
  non-ASCII text the source slices by byte at character indices; the model
  does not capture that.
- `str::lines()`: the source is given as its sequence of lines, so the
  splitting at `\n` and the stripping of `\r\n` are not modelled.
- The conversion of the row to `u32` and its `unwrap` (src/scanner.rs:39):
  rows are unbounded naturals.
- How the keyword table is built: it is not part of this model, and is
  modelled as mapping each lower-case keyword to its kind.
- Lifetimes and borrowing: lexemes and literals are copied subsequences.
- Panics are results: a scan that would panic returns the error and no
  tokens, where the source would abort the program.
