/** The scanner's outputs on concrete inputs: the unit tests of src/token.rs
    and further single-line sources, each stated over the whole scan of a
    one-line source. */
module ScannerTests {
  import opened Wrappers
  import opened Tokens
  import opened Scanning
  import opened ScanningProperties

  /** A one-line source scans to the tokens of its line, on row 0. */
  lemma OneLineSource(line: string)
    ensures ScanRows([line], 0) == LineTokens(line, 0)
  {
    assert ScanRows([line], 1) == Ok([]);
    if LineTokens(line, 0).Ok? {
      var tokens := LineTokens(line, 0).value;
      assert tokens + [] == tokens;
    }
  }

  /** A line whose first lexeme takes the whole line scans to that one token. */
  lemma WholeLineToken(line: string, lx: Lexeme)
    requires 0 < |line| && lx.size == |line|
    requires StepAt(line, 0) == Ok(Step(Some(lx), |line|))
    ensures ScanRows([line], 0) == Ok([Token(lx.kind, line, lx.literal, 0)])
  {
    var turns := Turns(line);
    TurnOf(line, 0);
    TokensPush(line, 0, turns, 0, lx, |line|);
    assert TokensFrom(line, 0, turns, |line|) == Ok([]);
    assert line[0..|line|] == line;
    var only := Token(lx.kind, line, lx.literal, 0);
    assert [only] + [] == [only];
    OneLineSource(line);
  }

  /** `!=` scans to one BangEqual token (test compound_tokens). */
  lemma CompoundTokens()
    ensures ScanRows(["!="], 0) == Ok([Token(BangEqual, "!=", None, 0)])
  {
    OperatorTokens("!=", 0);
    WholeLineToken("!=", Lexeme(BangEqual, 2, None));
  }

  /** `("hey, yall()")` scans to a LeftParen and then a String token whose
      literal is `hey, yall()` (test string). The string takes the rest of
      the line, so the closing parenthesis gives no token. */
  lemma StringTest()
    ensures ScanRows(["(\"hey, yall()\")"], 0) == Ok([
      Token(LeftParen, "(", None, 0),
      Token(String, "\"hey, yall()\"", Some("hey, yall()"), 0)])
  {
    var line := "(\"hey, yall()\")";
    assert StepAt(line, 0) == Ok(Step(Some(Lexeme(LeftParen, 1, None)), 1));
    StringTestQuote();
    TwoTokenLine(line, Lexeme(LeftParen, 1, None), 1, Lexeme(String, 13, Some("hey, yall()")));
    StringTestSlices();
  }

  /** A line whose first turn pushes `a` and moves to `k`, and whose turn
      at `k` pushes `b` and ends the line, scans to those two tokens. */
  lemma TwoTokenLine(line: string, a: Lexeme, k: nat, b: Lexeme)
    requires 0 < k < |line|
    requires StepAt(line, 0) == Ok(Step(Some(a), k))
    requires StepAt(line, k) == Ok(Step(Some(b), |line|))
    ensures a.size <= k && k + b.size <= |line|
    ensures ScanRows([line], 0) == Ok([
      Token(a.kind, line[0..a.size], a.literal, 0),
      Token(b.kind, line[k..k + b.size], b.literal, 0)])
  {
    TurnOf(line, 0);
    TurnOf(line, k);
    TwoTurns(line, 0, Turns(line), a, k, b);
    OneLineSource(line);
  }

  /** The same over any table of turns that fits the line. */
  lemma TwoTurns(line: string, row: nat, turns: TurnTable, a: Lexeme, k: nat, b: Lexeme)
    requires Fits(line, turns) && 0 < k < |line|
    requires turns[0] == Ok(Step(Some(a), k)) && turns[k] == Ok(Step(Some(b), |line|))
    ensures a.size <= k && k + b.size <= |line|
    ensures TokensFrom(line, row, turns, 0) == Ok([
      Token(a.kind, line[0..a.size], a.literal, row),
      Token(b.kind, line[k..k + b.size], b.literal, row)])
  {
    TokensPush(line, row, turns, 0, a, k);
    TokensPush(line, row, turns, k, b, |line|);
    assert TokensFrom(line, row, turns, |line|) == Ok([]);
    var first := Token(a.kind, line[0..a.size], a.literal, row);
    var second := Token(b.kind, line[k..k + b.size], b.literal, row);
    assert [first] + ([second] + []) == [first, second];
  }

  /** The two lexemes of the test line. */
  lemma StringTestSlices()
    ensures var line := "(\"hey, yall()\")";
      line[0..1] == "(" && line[1..14] == "\"hey, yall()\""
  {
  }

  /** The quote at index 1 of the test line closes at index 13. */
  lemma StringTestQuote()
    ensures StepAt("(\"hey, yall()\")", 1) ==
      Ok(Step(Some(Lexeme(String, 13, Some("hey, yall()"))), 15))
  {
    var line := "(\"hey, yall()\")";
    assert line[14] != '"' && line[13] == '"';
    var close := LastIndexOf(line, '"', 3);
    assert close == Some(13);
    assert line[2..13] == "hey, yall()";
  }

  /** `// ("hey!")` scans to one Comment token holding the whole line. The
      test comment of src/token.rs expects no token at all; the scanner
      pushes the Comment, and the model does what the scanner does. */
  lemma CommentTest()
    ensures ScanRows(["// (\"hey!\")"], 0) == Ok([Token(Comment, "// (\"hey!\")", None, 0)])
  {
    var line := "// (\"hey!\")";
    SlashOrComment(line, 0);
    WholeLineToken(line, Lexeme(Comment, |line|, None));
  }

  /** `1234` is one Number token whose literal is its digits. */
  lemma IntegerNumber()
    ensures ScanRows(["1234"], 0) == Ok([Token(Number, "1234", Some("1234"), 0)])
  {
    assert DigitsEnd("1234", 0) == 4;
    NumberTokens("1234", 0);
    WholeLineToken("1234", Lexeme(Number, 4, Some("1234")));
  }

  /** `12.34` is one Number token: a `.` followed by a digit does not end it. */
  lemma FractionalNumber()
    ensures ScanRows(["12.34"], 0) == Ok([Token(Number, "12.34", Some("12.34"), 0)])
  {
    assert DigitsEnd("12.34", 0) == 2;
    assert DigitsEnd("12.34", 3) == 5;
    NumberTokens("12.34", 0);
    WholeLineToken("12.34", Lexeme(Number, 5, Some("12.34")));
  }

  /** `1.` is one Number token: the parser takes a `.` with no digits
      after it. */
  lemma TrailingDotNumber()
    ensures ScanRows(["1."], 0) == Ok([Token(Number, "1.", Some("1."), 0)])
  {
    assert DigitsEnd("1.", 0) == 1;
    assert DigitsEnd("1.", 2) == 2;
    NumberTokens("1.", 0);
    WholeLineToken("1.", Lexeme(Number, 2, Some("1.")));
  }

  /** `1e` fails: an exponent marker needs digits after it. */
  lemma DanglingExponentFails()
    ensures ScanRows(["1e"], 0) == Err(ScanError(MalformedNumber("1e"), 0, 0))
  {
    assert DigitsEnd("1e", 0) == 1;
    NumberTokens("1e", 0);
    OneLineSource("1e");
  }

  /** A digit that ends its line leaves the parsed text empty, and the
      parse fails: `7` alone does not scan. */
  lemma LoneDigitFails()
    ensures ScanRows(["7"], 0) == Err(ScanError(MalformedNumber(""), 0, 0))
  {
    NumberTokens("7", 0);
    OneLineSource("7");
  }

  /** A number takes the rest of its line, so `12;` hands `12;` to the
      parser, which rejects it. */
  lemma NumberBeforeSemicolonFails()
    ensures ScanRows(["12;"], 0) == Err(ScanError(MalformedNumber("12;"), 0, 0))
  {
    assert DigitsEnd("12;", 0) == 2;
    NumberTokens("12;", 0);
    OneLineSource("12;");
  }

  /** `variable` is one Identifier token. */
  lemma PlainIdentifier()
    ensures ScanRows(["variable"], 0) == Ok([Token(Identifier, "variable", None, 0)])
  {
    PlainIdentifierTurn();
    WholeLineToken("variable", Lexeme(Identifier, 8, None));
  }

  /** The identifier arm takes all of `variable`, which is not a keyword. */
  lemma PlainIdentifierTurn()
    ensures StepAt("variable", 0) == Ok(Step(Some(Lexeme(Identifier, 8, None)), 8))
  {
    var line := "variable";
    assert forall q :: 0 <= q < |line| ==> IsAlphanumeric(line[q]);
    IdentifierTokens(line, 0);
    assert Keyword(line) == None;
  }

  /** `if` is one token of the keyword kind If, not an Identifier. */
  lemma KeywordIdentifier()
    ensures ScanRows(["if"], 0) == Ok([Token(If, "if", None, 0)])
  {
    KeywordKindsAreInTable(If);
    assert Spelling(If) == "if" && "if"[0..2] == "if";
    IdentifierTokens("if", 0);
    WholeLineToken("if", Lexeme(If, 2, None));
  }

  /** An unterminated string fails the scan at its opening quote. */
  lemma UnterminatedStringFails()
    ensures ScanRows(["\"abc"], 0) == Err(ScanError(UnterminatedString, 0, 0))
  {
    StringTokens("\"abc", 0);
    OneLineSource("\"abc");
  }

  /** The empty string fails too: the quote right after the opening one is
      never taken as the closing one. */
  lemma EmptyStringFails()
    ensures ScanRows(["\"\""], 0) == Err(ScanError(UnterminatedString, 0, 0))
  {
    StringTokens("\"\"", 0);
    OneLineSource("\"\"");
  }

  /** The character after the first letter is taken whatever it is, so
      `a b` is a single Identifier token with lexeme `a b`. */
  lemma IdentifierTakesNextCharacter()
    ensures ScanRows(["a b"], 0) == Ok([Token(Identifier, "a b", None, 0)])
  {
    IdentifierTokens("a b", 0);
    assert Keyword("a b") == None;
    WholeLineToken("a b", Lexeme(Identifier, 3, None));
  }

  /** A character that no arm of the match takes fails the scan. */
  lemma UnexpectedCharacterFails()
    ensures ScanRows(["@"], 0) == Err(ScanError(UnexpectedCharacter('@'), 0, 0))
  {
    UnexpectedCharacters("@", 0);
    OneLineSource("@");
  }
}
