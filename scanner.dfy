/** The Lox scanner of src/scanner.rs.

    The source walks each line with an iterator whose items are triples
    (i, line[i], line[i + 1] or nothing), one per character. The dispatcher
    and the three sub-scanners all pull from that one iterator, so a
    sub-scanner that consumes items moves the dispatcher's position too.
    Here that iterator is a cursor: the index of the next item to be pulled,
    so the items still to come are those at cursor .. |line| - 1.

    The functions below are the specification: StepAt says what one turn of
    the dispatch loop does at a position, Turns tabulates it over a line,
    Spans what a line scans to given those turns, and
    ScanRows what a whole source scans to. The class Scanner holds the
    imperative code, proved against them. Where the source panics, the model
    returns an Err naming the cause and the position. */
module Scanning {
  import opened Wrappers
  import opened Tokens

  // ---------------------------------------------------------------------
  // Characters (the model reads every line as ASCII)
  // ---------------------------------------------------------------------

  predicate IsDigit(c: char) { '0' <= c <= '9' }

  predicate IsAlpha(c: char) { 'a' <= c <= 'z' || 'A' <= c <= 'Z' }

  /** char::is_alphanumeric, on ASCII: a letter or a digit, not `_`. */
  predicate IsAlphanumeric(c: char) { IsAlpha(c) || IsDigit(c) }

  /** The third component of the iterator item at `pos`. */
  function NextChar(line: string, pos: nat): Option<char>
  {
    if pos + 1 < |line| then Some(line[pos + 1]) else None
  }

  /** Iterator::advance_by(count) on an iterator over `n` items standing at
      `cursor`: it stops at the end, and the shortfall is ignored. */
  function Advance(cursor: nat, count: nat, n: nat): nat
  {
    if cursor + count <= n then cursor + count else n
  }

  // ---------------------------------------------------------------------
  // The character match of scan_token_test
  // ---------------------------------------------------------------------

  /** Which arm of the match a character takes. */
  datatype Dispatch =
    | Blank                               // ' ', '\r', '\t': no token
    | Fixed(kind: TokenType, size: nat)   // a token of a fixed size
    | CommentStart                        // "//": a Comment to end of line
    | StringStart                         // '"': scan_string
    | NumberStart                         // '0'..'9': scan_number
    | IdentifierStart                     // letter or '_': scan_identifier
    | Unexpected                          // todo!()

  function Classify(c: char, next: Option<char>): (d: Dispatch)
    ensures d.Fixed? ==> d.size == 1 || (d.size == 2 && next == Some('='))
  {
    match c
    case ' ' => Blank
    case '\r' => Blank
    case '\t' => Blank
    case '(' => Fixed(LeftParen, 1)
    case ')' => Fixed(RightParen, 1)
    case '{' => Fixed(LeftBrace, 1)
    case '}' => Fixed(RightBrace, 1)
    case ',' => Fixed(Comma, 1)
    case '.' => Fixed(Dot, 1)
    case '-' => Fixed(Minus, 1)
    case '+' => Fixed(Plus, 1)
    case ';' => Fixed(Semicolon, 1)
    case '*' => Fixed(Star, 1)
    case '!' => if next == Some('=') then Fixed(BangEqual, 2) else Fixed(Bang, 1)
    case '=' => if next == Some('=') then Fixed(EqualEqual, 2) else Fixed(Equal, 1)
    case '<' => if next == Some('=') then Fixed(LessEqual, 2) else Fixed(Less, 1)
    case '>' => if next == Some('=') then Fixed(GreaterEqual, 2) else Fixed(Greater, 1)
    case '/' => if next == Some('/') then CommentStart else Fixed(Slash, 1)
    case '"' => StringStart
    case _ =>
      if IsDigit(c) then NumberStart
      else if IsAlpha(c) || c == '_' then IdentifierStart
      else Unexpected
  }

  // ---------------------------------------------------------------------
  // What the sub-scanners compute
  // ---------------------------------------------------------------------

  /** A recognised lexeme: its kind, its length, and its literal text. */
  datatype Lexeme = Lexeme(kind: TokenType, size: nat, literal: Option<string>)

  /** Why the source panics while scanning a line. */
  datatype ErrorKind =
    | UnterminatedString        // the slice line[start + 1..start] of scan_string
    | MalformedNumber(text: string)  // parse::<f64>().unwrap() of scan_number
    | UnexpectedCharacter(c: char)   // the todo!() arm of the match

  /** The panic, with the row and the position of the character that began it. */
  datatype ScanError = ScanError(kind: ErrorKind, row: nat, pos: nat)

  /** The index of the last `c` at index `from` or later, if any. */
  function LastIndexOf(s: string, c: char, from: nat): (r: Option<nat>)
    decreases |s|
    ensures r.Some? ==> from <= r.value < |s| && s[r.value] == c
    ensures r.Some? ==> forall q :: r.value < q < |s| ==> s[q] != c
    ensures r.None? ==> forall q :: from <= q < |s| ==> s[q] != c
  {
    if |s| <= from then None
    else if s[|s| - 1] == c then Some(|s| - 1)
    else LastIndexOf(s[..|s| - 1], c, from)
  }

  /** scan_string for the quote at `pos`: it ends at the last `"` of the line
      at index pos + 2 or later; the quote at pos + 1 is never looked at. */
  function StringLexeme(line: string, pos: nat): Result<Lexeme, ErrorKind>
    requires pos < |line|
  {
    match LastIndexOf(line, '"', pos + 2)
    case None => Err(UnterminatedString)
    case Some(close) => Ok(Lexeme(String, close - pos + 1, Some(line[pos + 1..close])))
  }

  /** The text that scan_number gives to the f64 parser: the rest of the
      line from the first digit when a character follows that digit, and the
      empty text when the digit is the last character. */
  function NumberText(line: string, pos: nat): string
    requires pos < |line|
  {
    if pos + 1 < |line| then line[pos..] else ""
  }

  /** The first index at `i` or later that does not hold a digit. */
  function DigitsEnd(s: string, i: nat): (j: nat)
    requires i <= |s|
    decreases |s| - i
    ensures i <= j <= |s|
    ensures forall q :: i <= q < j ==> IsDigit(s[q])
    ensures j < |s| ==> !IsDigit(s[j])
  {
    if i < |s| && IsDigit(s[i]) then DigitsEnd(s, i + 1) else i
  }

  /** An exponent `e` or `E`, an optional sign and one or more digits,
      running from `i` to the end of `s`. */
  predicate ExponentFrom(s: string, i: nat)
    requires i <= |s|
  {
    i < |s| && (s[i] == 'e' || s[i] == 'E') &&
    var digits := if i + 1 < |s| && (s[i + 1] == '+' || s[i + 1] == '-') then i + 2 else i + 1;
    digits < |s| && DigitsEnd(s, digits) == |s|
  }

  /** Whether `str::parse::<f64>` accepts a text that begins with a digit:
      one or more digits, then optionally a `.` followed by zero or more
      digits, then optionally `e` or `E` with an optional sign and one or
      more digits, and nothing else (no sign in front, no spaces). */
  predicate FloatText(s: string)
  {
    var whole := DigitsEnd(s, 0);
    0 < whole &&
    var fraction := if whole < |s| && s[whole] == '.' then DigitsEnd(s, whole + 1) else whole;
    fraction == |s| || ExponentFrom(s, fraction)
  }

  /** scan_number for the digit at `pos`; its literal is the digit text. */
  function NumberLexeme(line: string, pos: nat): Result<Lexeme, ErrorKind>
    requires pos < |line|
  {
    var text := NumberText(line, pos);
    if FloatText(text) then Ok(Lexeme(Number, |text|, Some(text)))
    else Err(MalformedNumber(text))
  }

  /** The first item at `from` or later whose following character is missing
      or not alphanumeric. */
  function WordBoundary(line: string, from: nat): (e: nat)
    requires from < |line|
    decreases |line| - from
    ensures from <= e < |line|
    ensures e + 1 == |line| || !IsAlphanumeric(line[e + 1])
    ensures forall q :: from < q <= e ==> IsAlphanumeric(line[q])
  {
    if from + 1 == |line| || !IsAlphanumeric(line[from + 1]) then from
    else WordBoundary(line, from + 1)
  }

  /** end_pos of scan_identifier for the letter at `pos`: the search starts
      at the item after `pos`, so the character at pos + 1 is never tested;
      with no item left it stays at `pos`. */
  function IdentifierEnd(line: string, pos: nat): nat
    requires pos < |line|
  {
    if pos + 1 < |line| then WordBoundary(line, pos + 1) else pos
  }

  /** The KEYWORDS lookup of scan_identifier. */
  function KeywordOrIdentifier(text: string): TokenType
  {
    match Keyword(text)
    case Some(kind) => kind
    case None => Identifier
  }

  function IdentifierLexeme(line: string, pos: nat): Lexeme
    requires pos < |line|
  {
    var text := line[pos..IdentifierEnd(line, pos) + 1];
    Lexeme(KeywordOrIdentifier(text), |text|, None)
  }

  // ---------------------------------------------------------------------
  // One turn of the dispatch loop, a line, a source
  // ---------------------------------------------------------------------

  /** One turn of the loop: the lexeme pushed, if any, and the cursor after. */
  datatype Step = Step(lexeme: Option<Lexeme>, next: nat)

  /** Push `lx` and call advance_by(size - 1) from `cursor`. */
  function Emit(lx: Lexeme, cursor: nat, n: nat): Result<Step, ErrorKind>
    requires 1 <= lx.size
  {
    Ok(Step(Some(lx), Advance(cursor, lx.size - 1, n)))
  }

  /** The turn of the loop that pulls the item at `pos`. */
  function StepAt(line: string, pos: nat): (r: Result<Step, ErrorKind>)
    requires pos < |line|
    ensures r.Ok? ==> pos < r.value.next <= |line|
    ensures r.Ok? && r.value.lexeme.Some? ==>
      1 <= r.value.lexeme.value.size && pos + r.value.lexeme.value.size <= r.value.next
  {
    var n := |line|;
    match Classify(line[pos], NextChar(line, pos))
    case Blank => Ok(Step(None, pos + 1))
    case Fixed(kind, size) => Emit(Lexeme(kind, size, None), pos + 1, n)
    case CommentStart => Emit(Lexeme(Comment, n - pos, None), pos + 1, n)
    case StringStart =>
      (match StringLexeme(line, pos)
       case Err(e) => Err(e)
       case Ok(lx) => Emit(lx, n, n))
    case NumberStart =>
      (match NumberLexeme(line, pos)
       case Err(e) => Err(e)
       case Ok(lx) => Emit(lx, n, n))
    case IdentifierStart =>
      var lx := IdentifierLexeme(line, pos);
      Emit(lx, pos + lx.size, n)
    case Unexpected => Err(UnexpectedCharacter(line[pos]))
  }

  /** The turns of the loop at every cursor of a line, indexed by cursor. */
  type TurnTable = seq<Result<Step, ErrorKind>>

  /** The turn at each cursor of `line` from `p` on. */
  function TurnsFrom(line: string, p: nat): (t: TurnTable)
    requires p <= |line|
    ensures |t| == |line| - p
    decreases |line| - p
  {
    if p == |line| then [] else [StepAt(line, p)] + TurnsFrom(line, p + 1)
  }

  /** The turn at `p` moves the cursor forward, within the line, and past
      the lexeme it pushes. */
  predicate TurnFits(line: string, p: nat, turn: Result<Step, ErrorKind>)
  {
    turn.Ok? ==>
      p < turn.value.next <= |line| &&
      (turn.value.lexeme.Some? ==>
        1 <= turn.value.lexeme.value.size && p + turn.value.lexeme.value.size <= turn.value.next)
  }

  /** Every turn of `turns` fits `line`. */
  predicate Fits(line: string, turns: TurnTable)
  {
    |turns| == |line| && forall p :: 0 <= p < |line| ==> TurnFits(line, p, turns[p])
  }

  lemma {:induction false} TurnAt(line: string, p: nat, q: nat)
    requires p <= q < |line|
    ensures TurnsFrom(line, p)[q - p] == StepAt(line, q)
    decreases q - p
  {
    if p < q {
      TurnAt(line, p + 1, q);
      assert TurnsFrom(line, p)[q - p] == TurnsFrom(line, p + 1)[q - (p + 1)];
    }
  }

  lemma TurnsFit(line: string)
    ensures Fits(line, TurnsFrom(line, 0))
  {
    forall q | 0 <= q < |line|
      ensures TurnFits(line, q, TurnsFrom(line, 0)[q])
    {
      TurnAt(line, 0, q);
    }
  }

  /** The turns of a whole line. */
  function Turns(line: string): (turns: TurnTable)
    ensures Fits(line, turns)
  {
    TurnsFit(line);
    TurnsFrom(line, 0)
  }

  /** The turn of the table at a cursor is the turn of the loop there. */
  lemma TurnOf(line: string, p: nat)
    requires p < |line|
    ensures Turns(line)[p] == StepAt(line, p)
  {
    TurnAt(line, 0, p);
  }

  /** A token together with the position of its first character. */
  datatype Spanned = Spanned(start: nat, token: Token)

  /** `prefix` followed by what `rest` holds, or the error of `rest`. */
  function Prepend<T>(prefix: seq<T>, rest: Result<seq<T>, ScanError>): Result<seq<T>, ScanError>
  {
    match rest
    case Ok(tail) => Ok(prefix + tail)
    case Err(e) => Err(e)
  }

  lemma PrependEmpty<T>(rest: Result<seq<T>, ScanError>)
    ensures Prepend([], rest) == rest
  {
    if rest.Ok? {
      assert [] + rest.value == rest.value;
    }
  }

  lemma PrependTwice<T>(a: seq<T>, b: seq<T>, rest: Result<seq<T>, ScanError>)
    ensures Prepend(a, Prepend(b, rest)) == Prepend(a + b, rest)
  {
    if rest.Ok? {
      assert a + (b + rest.value) == (a + b) + rest.value;
    }
  }

  /** The tokens that scan_token_test pushes for `line`, tagged `row`, from
      cursor `i` on, when the turn at each cursor is the one in `turns`;
      the first panic ends the scan. */
  function Spans(line: string, row: nat, turns: TurnTable, i: nat): Result<seq<Spanned>, ScanError>
    requires Fits(line, turns) && i <= |line|
    decreases |line| - i
  {
    if i == |line| then Ok([])
    else
      match turns[i]
      case Err(kind) => Err(ScanError(kind, row, i))
      case Ok(Step(None, next)) => Spans(line, row, turns, next)
      case Ok(Step(Some(lx), next)) =>
        var token := New(lx.kind, line[i..i + lx.size], lx.literal, row);
        Prepend([Spanned(i, token)], Spans(line, row, turns, next))
  }

  /** A turn at `pos` that pushes nothing leaves the spans of the cursor it
      moves to. */
  lemma SpansSkip(line: string, row: nat, turns: TurnTable, pos: nat, next: nat)
    requires Fits(line, turns) && pos < |line| && turns[pos] == Ok(Step(None, next))
    ensures pos < next <= |line|
    ensures Spans(line, row, turns, pos) == Spans(line, row, turns, next)
  {
  }

  /** A turn at `pos` that pushes `lx` puts its span before the spans of the
      cursor it moves to. */
  lemma SpansPush(line: string, row: nat, turns: TurnTable, pos: nat, lx: Lexeme, next: nat)
    requires Fits(line, turns) && pos < |line| && turns[pos] == Ok(Step(Some(lx), next))
    ensures 1 <= lx.size && pos + lx.size <= next <= |line|
    ensures Spans(line, row, turns, pos) ==
      Prepend([Spanned(pos, New(lx.kind, line[pos..pos + lx.size], lx.literal, row))],
        Spans(line, row, turns, next))
  {
  }

  function TokensOf(spans: seq<Spanned>): (ts: seq<Token>)
    ensures |ts| == |spans| && forall k :: 0 <= k < |spans| ==> ts[k] == spans[k].token
  {
    seq(|spans|, k requires 0 <= k < |spans| => spans[k].token)
  }

  /** The tokens that scan_token_test pushes for `line` from cursor `i` on. */
  function TokensFrom(line: string, row: nat, turns: TurnTable, i: nat): Result<seq<Token>, ScanError>
    requires Fits(line, turns) && i <= |line|
  {
    match Spans(line, row, turns, i)
    case Ok(spans) => Ok(TokensOf(spans))
    case Err(e) => Err(e)
  }

  /** A turn at `pos` that fails ends the line's tokens with its error. */
  lemma TokensStop(line: string, row: nat, turns: TurnTable, pos: nat, kind: ErrorKind)
    requires Fits(line, turns) && pos < |line| && turns[pos] == Err(kind)
    ensures TokensFrom(line, row, turns, pos) == Err(ScanError(kind, row, pos))
  {
  }

  /** A turn at `pos` that pushes nothing leaves the tokens of the cursor it
      moves to. */
  lemma TokensSkip(line: string, row: nat, turns: TurnTable, pos: nat, next: nat)
    requires Fits(line, turns) && pos < |line| && turns[pos] == Ok(Step(None, next))
    ensures pos < next <= |line|
    ensures TokensFrom(line, row, turns, pos) == TokensFrom(line, row, turns, next)
  {
    SpansSkip(line, row, turns, pos, next);
  }

  /** A turn at `pos` that pushes `lx` puts its token before the tokens of
      the cursor it moves to. */
  lemma TokensPush(line: string, row: nat, turns: TurnTable, pos: nat, lx: Lexeme, next: nat)
    requires Fits(line, turns) && pos < |line| && turns[pos] == Ok(Step(Some(lx), next))
    ensures 1 <= lx.size && pos + lx.size <= next <= |line|
    ensures TokensFrom(line, row, turns, pos) ==
      Prepend([New(lx.kind, line[pos..pos + lx.size], lx.literal, row)], TokensFrom(line, row, turns, next))
  {
    SpansPush(line, row, turns, pos, lx, next);
    if Spans(line, row, turns, next).Ok? {
      var head := Spanned(pos, New(lx.kind, line[pos..pos + lx.size], lx.literal, row));
      var tail := Spans(line, row, turns, next).value;
      assert TokensOf([head] + tail) == [head.token] + TokensOf(tail);
    }
  }

  /** The spans of one line. */
  function LineSpans(line: string, row: nat): Result<seq<Spanned>, ScanError>
  {
    Spans(line, row, Turns(line), 0)
  }

  /** The tokens of one line. */
  function LineTokens(line: string, row: nat): Result<seq<Token>, ScanError>
  {
    TokensFrom(line, row, Turns(line), 0)
  }

  /** scan_tokens over the lines from `row` on: each line's tokens, tagged
      with its row, in order; the first panic ends the scan. */
  function ScanRows(lines: seq<string>, row: nat): Result<seq<Token>, ScanError>
    requires row <= |lines|
    decreases |lines| - row
  {
    if row == |lines| then Ok([])
    else
      match LineTokens(lines[row], row)
      case Err(e) => Err(e)
      case Ok(tokens) => Prepend(tokens, ScanRows(lines, row + 1))
  }

  // ---------------------------------------------------------------------
  // The scanner
  // ---------------------------------------------------------------------

  class Scanner {
    /** The source text, as its lines. */
    const source: seq<string>

    constructor (source: seq<string>)
      ensures this.source == source
    {
      this.source := source;
    }

    /** scan_tokens: the tokens of every line, in order. */
    method ScanTokens() returns (r: Result<seq<Token>, ScanError>)
      ensures r == ScanRows(source, 0)
    {
      var tokens: seq<Token> := [];
      var row := 0;
      PrependEmpty(ScanRows(source, 0));
      while row < |source|
        invariant row <= |source|
        invariant ScanRows(source, 0) == Prepend(tokens, ScanRows(source, row))
      {
        var lineTokens := ScanLine(source[row], row);
        match lineTokens {
          case Err(e) =>
            return Err(e);
          case Ok(more) =>
            PrependTwice(tokens, more, ScanRows(source, row + 1));
            tokens := tokens + more;
        }
        row := row + 1;
      }
      assert tokens + [] == tokens;
      r := Ok(tokens);
    }

    /** scan_token_test: the dispatch loop over one line. */
    method ScanLine(line: string, row: nat) returns (r: Result<seq<Token>, ScanError>)
      ensures r == LineTokens(line, row)
    {
      var tokens: seq<Token> := [];
      var cursor := 0;
      ghost var turns := Turns(line);
      PrependEmpty(TokensFrom(line, row, turns, 0));
      while cursor < |line|
        invariant cursor <= |line|
        invariant LineTokens(line, row) == Prepend(tokens, TokensFrom(line, row, turns, cursor))
        decreases |line| - cursor
      {
        var step := ScanStep(line, cursor);
        TurnOf(line, cursor);
        if step.Err? {
          TokensStop(line, row, turns, cursor, step.error);
          return Err(ScanError(step.error, row, cursor));
        }
        var next := step.value.next;
        if step.value.lexeme.Some? {
          var lx := step.value.lexeme.value;
          TokensPush(line, row, turns, cursor, lx, next);
          var token := New(lx.kind, line[cursor..cursor + lx.size], lx.literal, row);
          PrependTwice(tokens, [token], TokensFrom(line, row, turns, next));
          tokens := tokens + [token];
        } else {
          TokensSkip(line, row, turns, cursor, next);
        }
        cursor := next;
      }
      assert tokens + [] == tokens;
      r := Ok(tokens);
    }

    /** One turn of the loop of scan_token_test: pull the item at `pos`,
        match its character, run a sub-scanner on the shared cursor, and
        advance past the rest of the lexeme. */
    method ScanStep(line: string, pos: nat) returns (r: Result<Step, ErrorKind>)
      requires pos < |line|
      ensures r == StepAt(line, pos)
    {
      var current, next := line[pos], NextChar(line, pos);
      var cursor := pos + 1;
      var pushed: Option<Lexeme> := None;
      match Classify(current, next) {
        case Blank =>
        case Fixed(kind, size) =>
          pushed := Some(Lexeme(kind, size, None));
        case CommentStart =>
          pushed := Some(Lexeme(Comment, |line| - pos, None));
        case StringStart =>
          var scanned;
          scanned, cursor := ScanString(pos, line);
          if scanned.Err? {
            return Err(scanned.error);
          }
          pushed := Some(scanned.value);
        case NumberStart =>
          var scanned;
          scanned, cursor := ScanNumber(line, pos);
          if scanned.Err? {
            return Err(scanned.error);
          }
          pushed := Some(scanned.value);
        case IdentifierStart =>
          var scanned;
          scanned, cursor := ScanIdentifier(pos, line);
          pushed := Some(scanned);
        case Unexpected =>
          return Err(UnexpectedCharacter(current));
      }
      if pushed.Some? {
        cursor := Advance(cursor, pushed.value.size - 1, |line|);
      }
      r := Ok(Step(pushed, cursor));
    }

    /** scan_string for the quote at `pos`: it reads every remaining item of
        the line and keeps the last quote it sees as the closing one. */
    method ScanString(pos: nat, line: string) returns (r: Result<Lexeme, ErrorKind>, cursor: nat)
      requires pos < |line|
      ensures r == StringLexeme(line, pos)
      ensures cursor == |line|
    {
      var endPos := pos;
      cursor := pos + 1;
      while cursor < |line|
        invariant pos + 1 <= cursor <= |line|
        invariant endPos == pos || (pos + 2 <= endPos <= cursor && endPos < |line| && line[endPos] == '"')
        invariant forall q :: pos + 2 <= q <= cursor && endPos < q < |line| ==> line[q] != '"'
      {
        var p := cursor;
        cursor := cursor + 1;
        if NextChar(line, p) == Some('"') {
          endPos := p + 1;
        }
      }
      if endPos == pos {
        assert LastIndexOf(line, '"', pos + 2).None?;
        r := Err(UnterminatedString);
      } else {
        assert LastIndexOf(line, '"', pos + 2) == Some(endPos);
        r := Ok(Lexeme(String, endPos - pos + 1, Some(line[pos + 1..endPos])));
      }
    }

    /** scan_number for the digit at `pos`: it reads every remaining item of
        the line, and the last item always sets the literal to the rest of
        the line. */
    method ScanNumber(line: string, pos: nat) returns (r: Result<Lexeme, ErrorKind>, cursor: nat)
      requires pos < |line|
      ensures r == NumberLexeme(line, pos)
      ensures cursor == |line|
    {
      var literal: string := "";
      cursor := pos + 1;
      while cursor < |line|
        invariant pos + 1 <= cursor <= |line|
        invariant cursor == pos + 1 ==> literal == ""
        invariant cursor == |line| && pos + 1 < cursor ==> literal == line[pos..]
      {
        var p := cursor;
        cursor := cursor + 1;
        var current, next := line[p], NextChar(line, p);
        if !IsDigit(current) {
          if current == '.' && next.Some? && IsDigit(next.value) {
            continue;
          }
          literal := line[pos..p + 1];
        } else if next.None? {
          literal := line[pos..p + 1];
        }
      }
      if FloatText(literal) {
        r := Ok(Lexeme(Number, |literal|, Some(literal)));
      } else {
        r := Err(MalformedNumber(literal));
      }
    }

    /** scan_identifier for the letter at `pos`: it reads items until one
        whose following character is missing or not alphanumeric, and stops
        just after it. */
    method ScanIdentifier(pos: nat, line: string) returns (lx: Lexeme, cursor: nat)
      requires pos < |line|
      ensures lx == IdentifierLexeme(line, pos)
      ensures cursor == pos + lx.size
    {
      var endPos := pos;
      cursor := pos + 1;
      while cursor < |line|
        invariant pos + 1 <= cursor <= |line|
        invariant forall q :: pos + 2 <= q <= cursor ==> q < |line| && IsAlphanumeric(line[q])
      {
        var p := cursor;
        cursor := cursor + 1;
        var next := NextChar(line, p);
        if !(next.Some? && IsAlphanumeric(next.value)) {
          endPos := p;
          break;
        }
      }
      var literal := line[pos..endPos + 1];
      var kind := Identifier;
      var keyword := Keyword(literal);
      if keyword.Some? {
        kind := keyword.value;
      }
      lx := Lexeme(kind, |literal|, None);
    }
  }
}
