/** What the scanner of src/scanner.rs does, stated over the specification
    functions of module Scanning: one lemma per arm of the character match,
    then what holds of a whole line and of a whole source. */
module ScanningProperties {
  import opened Wrappers
  import opened Tokens
  import opened Scanning

  function Min(a: nat, b: nat): nat { if a <= b then a else b }

  // ---------------------------------------------------------------------
  // One turn of the dispatch loop, arm by arm
  // ---------------------------------------------------------------------

  /** Space, carriage return and tab give no token and advance by one. */
  lemma BlankIsSkipped(line: string, pos: nat)
    requires pos < |line| && (line[pos] == ' ' || line[pos] == '\r' || line[pos] == '\t')
    ensures StepAt(line, pos) == Ok(Step(None, pos + 1))
  {
  }

  /** The ten characters that always make a one-character token. */
  const Punctuation: map<char, TokenType> := map[
    '(' := LeftParen, ')' := RightParen, '{' := LeftBrace, '}' := RightBrace,
    ',' := Comma, '.' := Dot, '-' := Minus, '+' := Plus, ';' := Semicolon, '*' := Star]

  /** Each punctuation character gives exactly one token of its kind and of
      size 1, whose lexeme is that character, and advances by one. */
  lemma PunctuationTokens(line: string, pos: nat)
    requires pos < |line| && line[pos] in Punctuation
    ensures StepAt(line, pos) == Ok(Step(Some(Lexeme(Punctuation[line[pos]], 1, None)), pos + 1))
    ensures line[pos..pos + 1] == [line[pos]]
  {
  }

  /** The punctuation kinds are the single-character kinds other than Slash. */
  lemma PunctuationKinds(c: char)
    requires c in Punctuation
    ensures IsSingleCharacter(Punctuation[c]) && Punctuation[c] != Slash
  {
  }

  /** The four operators that may be followed by `=`: the one-character kind
      and the two-character kind of each. */
  const Operators: map<char, (TokenType, TokenType)> := map[
    '!' := (Bang, BangEqual), '=' := (Equal, EqualEqual),
    '<' := (Less, LessEqual), '>' := (Greater, GreaterEqual)]

  /** An operator gives its two-character kind, of size 2, exactly when the
      next character is `=`, and then the `=` is skipped; otherwise it gives
      its one-character kind, of size 1. */
  lemma OperatorTokens(line: string, pos: nat)
    requires pos < |line| && line[pos] in Operators
    ensures var two := pos + 1 < |line| && line[pos + 1] == '=';
      var kinds := Operators[line[pos]];
      StepAt(line, pos) ==
        if two then Ok(Step(Some(Lexeme(kinds.1, 2, None)), pos + 2))
        else Ok(Step(Some(Lexeme(kinds.0, 1, None)), pos + 1))
  {
  }

  /** `/` gives a Slash of size 1 unless a second `/` follows; then it gives
      a Comment running to the end of the line, and the cursor reaches the
      end of the line. */
  lemma SlashOrComment(line: string, pos: nat)
    requires pos < |line| && line[pos] == '/'
    ensures StepAt(line, pos) ==
      if pos + 1 < |line| && line[pos + 1] == '/'
      then Ok(Step(Some(Lexeme(Comment, |line| - pos, None)), |line|))
      else Ok(Step(Some(Lexeme(Slash, 1, None)), pos + 1))
  {
  }

  /** From `//` on, the line yields a single Comment token holding the rest
      of the line: nothing after it becomes a token. */
  lemma CommentEndsLine(line: string, row: nat, pos: nat)
    requires pos + 1 < |line| && line[pos] == '/' && line[pos + 1] == '/'
    ensures Spans(line, row, Turns(line), pos) == Ok([Spanned(pos, Token(Comment, line[pos..], None, row))])
  {
    var turns := Turns(line);
    TurnOf(line, pos);
    SlashOrComment(line, pos);
    SpansPush(line, row, turns, pos, Lexeme(Comment, |line| - pos, None), |line|);
    assert line[pos..pos + (|line| - pos)] == line[pos..];
    assert Spans(line, row, turns, |line|) == Ok([]);
    var only := Spanned(pos, Token(Comment, line[pos..], None, row));
    assert [only] + [] == [only];
  }

  /** A quote starts a string exactly when a `"` stands at pos + 2 or later.
      The closing quote is the last one on the line; the lexeme runs from
      the opening quote to it, both included; the literal is the text
      strictly between them; the rest of the line is consumed. Otherwise
      (no quote after, or only the one at pos + 1) the scan fails. */
  lemma StringTokens(line: string, pos: nat)
    requires pos < |line| && line[pos] == '"'
    ensures StepAt(line, pos).Ok? <==> exists q :: pos + 2 <= q < |line| && line[q] == '"'
    ensures StepAt(line, pos).Err? ==> StepAt(line, pos).error == UnterminatedString
    ensures StepAt(line, pos).Ok? ==>
      var step := StepAt(line, pos).value;
      step.lexeme.Some? && step.next == |line| &&
      var lx := step.lexeme.value;
      var close := pos + lx.size - 1;
      lx.kind == String && pos + 2 <= close < |line| && line[close] == '"' &&
      lx.literal == Some(line[pos + 1..close]) &&
      forall q :: close < q < |line| ==> line[q] != '"'
  {
    match LastIndexOf(line, '"', pos + 2)
    case None =>
    case Some(close) =>
      assert pos + 2 <= close < |line| && line[close] == '"';
  }

  /** A digit starts a number that takes the whole rest of the line. The
      scan succeeds exactly when a character follows the digit and the rest
      of the line is a number text that the f64 parser accepts; the literal
      is then that text. Otherwise it fails with the text parsed, which is
      empty when the digit ends the line. */
  lemma NumberTokens(line: string, pos: nat)
    requires pos < |line| && IsDigit(line[pos])
    ensures StepAt(line, pos) ==
      if pos + 1 < |line| && FloatText(line[pos..])
      then Ok(Step(Some(Lexeme(Number, |line| - pos, Some(line[pos..]))), |line|))
      else Err(MalformedNumber(if pos + 1 < |line| then line[pos..] else ""))
  {
  }

  /** A letter or `_` starts an identifier whose last character `e` is the
      first index from pos + 1 on that is followed by the end of the line or
      by a character that is not alphanumeric (the character at pos + 1 is
      taken whatever it is); a lone last character is an identifier of size
      1. The kind is the keyword table's entry for the text, or Identifier.
      The driver then skips size - 1 further characters. */
  lemma IdentifierTokens(line: string, pos: nat)
    requires pos < |line| && (IsAlpha(line[pos]) || line[pos] == '_')
    ensures StepAt(line, pos).Ok? && StepAt(line, pos).value.lexeme.Some?
    ensures var step := StepAt(line, pos).value;
      var lx := step.lexeme.value;
      var e := pos + lx.size - 1;
      var text := line[pos..e + 1];
      e < |line| &&
      (pos + 1 < |line| ==> pos + 1 <= e) &&
      (e + 1 == |line| || !IsAlphanumeric(line[e + 1])) &&
      (forall q :: pos + 2 <= q <= e ==> IsAlphanumeric(line[q])) &&
      (Keyword(text).Some? ==> lx.kind == Keyword(text).value && IsKeyword(lx.kind)) &&
      (Keyword(text).None? ==> lx.kind == Identifier) &&
      lx.literal == None &&
      step.next == Min(|line|, pos + 2 * lx.size - 1)
  {
    var lx := IdentifierLexeme(line, pos);
    IdentifierDispatch(line, pos);
    var text := line[pos..IdentifierEnd(line, pos) + 1];
    if Keyword(text).Some? {
      KeywordTableEntries(text);
    }
  }

  /** The identifier arm of the match runs scan_identifier and then skips
      size - 1 further items from where it stopped. */
  lemma IdentifierDispatch(line: string, pos: nat)
    requires pos < |line| && (IsAlpha(line[pos]) || line[pos] == '_')
    ensures var lx := IdentifierLexeme(line, pos);
      StepAt(line, pos) == Ok(Step(Some(lx), Advance(pos + lx.size, lx.size - 1, |line|)))
  {
    assert Classify(line[pos], NextChar(line, pos)) == IdentifierStart;
  }

  /** The characters the match recognises. */
  predicate Recognised(c: char)
  {
    c == ' ' || c == '\r' || c == '\t' || c in Punctuation || c in Operators ||
    c == '/' || c == '"' || IsDigit(c) || IsAlpha(c) || c == '_'
  }

  /** Any other character fails the scan (the todo!() arm), and only those. */
  lemma UnexpectedCharacters(line: string, pos: nat)
    requires pos < |line|
    ensures StepAt(line, pos) == Err(UnexpectedCharacter(line[pos])) <==> !Recognised(line[pos])
  {
    var c := line[pos];
    if Recognised(c) {
      if IsDigit(c) {
        NumberTokens(line, pos);
      } else if c == '"' {
        StringTokens(line, pos);
      }
    }
  }

  // ---------------------------------------------------------------------
  // A line
  // ---------------------------------------------------------------------

  /** The spans of a line from `from` on: each token's lexeme is the
      non-empty slice of the line at its start, tagged with the row, and
      the spans appear in order without overlapping. */
  predicate Placed(line: string, row: nat, from: nat, spans: seq<Spanned>)
  {
    (forall k :: 0 <= k < |spans| ==> SliceOf(line, row, from, spans[k])) &&
    (forall j, k :: 0 <= j < k < |spans| ==>
      spans[j].start + |spans[j].token.lexeme| <= spans[k].start)
  }

  /** The token of `s` is the non-empty slice of `line` at its start, at or
      after `from`, tagged with `row`. */
  predicate SliceOf(line: string, row: nat, from: nat, s: Spanned)
  {
    from <= s.start && 0 < |s.token.lexeme| && s.start + |s.token.lexeme| <= |line| &&
    s.token.lexeme == line[s.start..s.start + |s.token.lexeme|] && s.token.line == row
  }

  /** Every token pushed for a line is the slice line[pos..pos + size] for
      0 <= pos < pos + size <= |line|, carries the line's row, and the tokens
      follow each other in increasing position without overlapping; this
      holds for any table of turns that fits the line. */
  lemma {:induction false} SpansArePlaced(line: string, row: nat, turns: TurnTable, i: nat)
    requires Fits(line, turns) && i <= |line|
    ensures Spans(line, row, turns, i).Ok? ==> Placed(line, row, i, Spans(line, row, turns, i).value)
    decreases |line| - i
  {
    if i < |line| && turns[i].Ok? {
      var step := turns[i].value;
      SpansArePlaced(line, row, turns, step.next);
      var rest := Spans(line, row, turns, step.next);
      if step.lexeme.Some? {
        PlacedPush(line, row, turns, i, step.lexeme.value, step.next);
      } else {
        SpansSkip(line, row, turns, i, step.next);
        if rest.Ok? {
          PlacedFrom(line, row, i, step.next, rest.value);
        }
      }
    }
  }

  /** A turn that pushes `lx` keeps the spans placed. */
  lemma PlacedPush(line: string, row: nat, turns: TurnTable, i: nat, lx: Lexeme, next: nat)
    requires Fits(line, turns) && i < |line| && turns[i] == Ok(Step(Some(lx), next))
    requires Spans(line, row, turns, next).Ok? ==> Placed(line, row, next, Spans(line, row, turns, next).value)
    ensures Spans(line, row, turns, i).Ok? ==> Placed(line, row, i, Spans(line, row, turns, i).value)
  {
    SpansPush(line, row, turns, i, lx, next);
    var rest := Spans(line, row, turns, next);
    if rest.Ok? {
      PlacedCons(line, row, i, next, lx, rest.value);
    }
  }

  /** Spans placed from `next` on are placed from any earlier `from`. */
  lemma PlacedFrom(line: string, row: nat, from: nat, next: nat, spans: seq<Spanned>)
    requires from <= next && Placed(line, row, next, spans)
    ensures Placed(line, row, from, spans)
  {
  }

  /** The token of lexeme `lx` placed at `from`, ending before the placed
      spans from `next` on, extends them. */
  lemma PlacedCons(line: string, row: nat, from: nat, next: nat, lx: Lexeme, tail: seq<Spanned>)
    requires 0 < lx.size && from + lx.size <= next <= |line|
    requires Placed(line, row, next, tail)
    ensures var head := Spanned(from, New(lx.kind, line[from..from + lx.size], lx.literal, row));
      Placed(line, row, from, [head] + tail)
  {
    var head := Spanned(from, New(lx.kind, line[from..from + lx.size], lx.literal, row));
    var spans := [head] + tail;
    forall j, k | 0 <= j < k < |spans|
      ensures spans[j].start + |spans[j].token.lexeme| <= spans[k].start
    {
      if j > 0 {
        assert spans[j] == tail[j - 1] && spans[k] == tail[k - 1];
      } else {
        assert spans[k] == tail[k - 1];
      }
    }
  }

  /** Kinds whose scan runs to the end of the line. */
  predicate EndsLine(t: TokenType) { t == String || t == Number || t == Comment }

  /** A turn that pushes a String, Number or Comment leaves the cursor at
      the end of the line. */
  predicate EndsItsLine(line: string, turn: Result<Step, ErrorKind>)
  {
    turn.Ok? && turn.value.lexeme.Some? && EndsLine(turn.value.lexeme.value.kind) ==>
      turn.value.next == |line|
  }

  /** A String, Number or Comment lexeme leaves the cursor at the end of the
      line: the sub-scanners of strings and numbers read every remaining
      item, and a comment advances past the rest of the line. */
  lemma EndsLineStep(line: string, pos: nat)
    requires pos < |line|
    ensures EndsItsLine(line, StepAt(line, pos))
  {
    var c := line[pos];
    if IsAlpha(c) || c == '_' {
      IdentifierTokens(line, pos);
    }
  }

  /** In a table of turns whose line-ending lexemes end the line, a String,
      Number or Comment span is the last span. */
  lemma {:induction false} EndsLineSpansComeLast(line: string, row: nat, turns: TurnTable, i: nat)
    requires Fits(line, turns) && i <= |line|
    requires forall p :: 0 <= p < |line| ==> EndsItsLine(line, turns[p])
    ensures Spans(line, row, turns, i).Ok? ==> EndingsLast(Spans(line, row, turns, i).value)
    decreases |line| - i
  {
    if i < |line| && turns[i].Ok? {
      var step := turns[i].value;
      EndsLineSpansComeLast(line, row, turns, step.next);
      var rest := Spans(line, row, turns, step.next);
      if step.lexeme.None? {
        SpansSkip(line, row, turns, i, step.next);
      } else if rest.Ok? {
        var lx := step.lexeme.value;
        SpansPush(line, row, turns, i, lx, step.next);
        if EndsLine(lx.kind) {
          assert EndsItsLine(line, turns[i]);
          assert rest.value == [];
        }
        EndingsLastCons(Spanned(i, New(lx.kind, line[i..i + lx.size], lx.literal, row)), rest.value);
      }
    }
  }

  /** A String, Number or Comment token is the last token of its line. */
  lemma EndsLineTokensComeLast(line: string, row: nat)
    ensures LineSpans(line, row).Ok? ==> EndingsLast(LineSpans(line, row).value)
  {
    var turns := Turns(line);
    forall p | 0 <= p < |line|
      ensures EndsItsLine(line, turns[p])
    {
      TurnOf(line, p);
      EndsLineStep(line, p);
    }
    EndsLineSpansComeLast(line, row, turns, 0);
  }

  /** No String, Number or Comment token comes before another token. */
  predicate EndingsLast(spans: seq<Spanned>)
  {
    forall k :: 0 <= k < |spans| && EndsLine(spans[k].token.tokenType) ==> k == |spans| - 1
  }

  lemma EndingsLastCons(head: Spanned, tail: seq<Spanned>)
    requires EndingsLast(tail)
    requires EndsLine(head.token.tokenType) ==> tail == []
    ensures EndingsLast([head] + tail)
  {
    var spans := [head] + tail;
    forall k | 0 <= k < |spans| && EndsLine(spans[k].token.tokenType)
      ensures k == |spans| - 1
    {
      if k > 0 {
        assert spans[k] == tail[k - 1];
      }
    }
  }

  /** A failed scan from cursor `i` names its row and a cursor at or after
      `i` whose turn fails with that error. */
  lemma {:induction false} SpansErrorIsATurn(line: string, row: nat, turns: TurnTable, i: nat)
    requires Fits(line, turns) && i <= |line|
    ensures Spans(line, row, turns, i).Err? ==>
      var e := Spans(line, row, turns, i).error;
      e.row == row && i <= e.pos < |line| && turns[e.pos] == Err(e.kind)
    decreases |line| - i
  {
    if i < |line| && turns[i].Ok? {
      var step := turns[i].value;
      SpansErrorIsATurn(line, row, turns, step.next);
      if step.lexeme.None? {
        SpansSkip(line, row, turns, i, step.next);
      } else {
        SpansPush(line, row, turns, i, step.lexeme.value, step.next);
      }
    }
  }

  /** A failed line scan names the line's row and a position at which the
      turn of the loop fails with that error. */
  lemma LineErrorIsAStep(line: string, row: nat)
    ensures LineTokens(line, row).Err? ==>
      var e := LineTokens(line, row).error;
      e.row == row && e.pos < |line| && StepAt(line, e.pos) == Err(e.kind)
  {
    SpansErrorIsATurn(line, row, Turns(line), 0);
    if LineTokens(line, row).Err? {
      TurnOf(line, LineTokens(line, row).error.pos);
    }
  }

  // ---------------------------------------------------------------------
  // A source
  // ---------------------------------------------------------------------

  /** Scanning a source succeeds exactly when every line scans. */
  lemma {:induction false} SourceScansIffLinesScan(lines: seq<string>, row: nat)
    requires row <= |lines|
    ensures ScanRows(lines, row).Ok? <==> forall r :: row <= r < |lines| ==> LineScans(lines, r)
    decreases |lines| - row
  {
    if row < |lines| {
      SourceScansIffLinesScan(lines, row + 1);
      if LineScans(lines, row) {
        assert ScanRows(lines, row).Ok? <==> ScanRows(lines, row + 1).Ok?;
      } else {
        assert ScanRows(lines, row).Err?;
      }
    }
  }

  /** `t` is a token of the scan of row `t.line` of `lines`. */
  predicate FromItsRow(lines: seq<string>, t: Token)
  {
    t.line < |lines| && LineTokens(lines[t.line], t.line).Ok? &&
    t in LineTokens(lines[t.line], t.line).value
  }

  /** Each token of a source's scan is a token of the scan of its own row,
      and carries that row. */
  lemma {:induction false} TokensComeFromTheirRow(lines: seq<string>, row: nat)
    requires row <= |lines|
    ensures ScanRows(lines, row).Ok? ==>
      forall t :: t in ScanRows(lines, row).value ==> row <= t.line && FromItsRow(lines, t)
    decreases |lines| - row
  {
    if row < |lines| && LineTokens(lines[row], row).Ok? && ScanRows(lines, row + 1).Ok? {
      TokensComeFromTheirRow(lines, row + 1);
      var mine := LineTokens(lines[row], row).value;
      var rest := ScanRows(lines, row + 1).value;
      LineTokensAreTagged(lines[row], row);
      assert ScanRows(lines, row).value == mine + rest;
    }
  }

  /** The tokens of a source come row by row: rows never decrease along the
      result, as each line's tokens are appended after those of the lines
      before it. */
  lemma {:induction false} RowsInOrder(lines: seq<string>, row: nat)
    requires row <= |lines|
    ensures ScanRows(lines, row).Ok? ==> RowsAscend(ScanRows(lines, row).value)
    decreases |lines| - row
  {
    if row < |lines| && LineTokens(lines[row], row).Ok? && ScanRows(lines, row + 1).Ok? {
      RowsInOrder(lines, row + 1);
      TokensComeFromTheirRow(lines, row + 1);
      LineTokensAreTagged(lines[row], row);
      var mine := LineTokens(lines[row], row).value;
      var rest := ScanRows(lines, row + 1).value;
      AscendingAppend(mine, rest, row);
      assert ScanRows(lines, row).value == mine + rest;
    }
  }

  /** Rows never decrease along `tokens`. */
  predicate RowsAscend(tokens: seq<Token>)
  {
    forall j, k :: 0 <= j < k < |tokens| ==> tokens[j].line <= tokens[k].line
  }

  /** Tokens all of row `row` followed by ascending tokens of later rows
      are ascending. */
  lemma AscendingAppend(mine: seq<Token>, rest: seq<Token>, row: nat)
    requires forall t :: t in mine ==> t.line == row
    requires forall t :: t in rest ==> row < t.line
    requires RowsAscend(rest)
    ensures RowsAscend(mine + rest)
  {
    var tokens := mine + rest;
    forall j, k | 0 <= j < k < |tokens|
      ensures tokens[j].line <= tokens[k].line
    {
      if k < |mine| {
        assert tokens[j] == mine[j] && tokens[k] == mine[k];
        assert mine[j] in mine && mine[k] in mine;
      } else if j < |mine| {
        assert tokens[j] == mine[j] && tokens[k] == rest[k - |mine|];
        assert mine[j] in mine && rest[k - |mine|] in rest;
      } else {
        assert tokens[j] == rest[j - |mine|] && tokens[k] == rest[k - |mine|];
      }
    }
  }

  /** Every token of a line's scan carries that line's row. */
  lemma LineTokensAreTagged(line: string, row: nat)
    ensures LineTokens(line, row).Ok? ==>
      forall t :: t in LineTokens(line, row).value ==> t.line == row
  {
    SpansArePlaced(line, row, Turns(line), 0);
  }

  /** A failed scan of a source fails on the first line whose scan fails,
      with that line's error. */
  lemma {:induction false} FirstFailingRow(lines: seq<string>, row: nat)
    requires row <= |lines|
    ensures ScanRows(lines, row).Err? ==>
      var e := ScanRows(lines, row).error;
      row <= e.row < |lines| && LineTokens(lines[e.row], e.row) == Err(e) &&
      forall r :: row <= r < e.row ==> LineScans(lines, r)
    decreases |lines| - row
  {
    if row < |lines| {
      if LineTokens(lines[row], row).Err? {
        LineErrorIsAStep(lines[row], row);
      } else if ScanRows(lines, row + 1).Err? {
        FirstFailingRow(lines, row + 1);
        assert ScanRows(lines, row) == ScanRows(lines, row + 1);
        assert LineScans(lines, row);
      }
    }
  }

  /** Row `r` of `lines` scans without error. */
  predicate LineScans(lines: seq<string>, r: nat)
    requires r < |lines|
  {
    LineTokens(lines[r], r).Ok?
  }
}
