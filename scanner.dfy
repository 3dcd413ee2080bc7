/**
 * The scanner: a cursor over the source text that appends one token per
 * lexeme and ends the list with a single EOF token.
 *
 * The first half of the module specifies one scanning step and a whole scan as
 * functions over the cursor (offset, line, offset of the line start); the
 * class `Scanner` below does the same work step by step and is proved to reach
 * exactly the state these functions describe.
 */
module Scan {
  import opened Tokens
  import opened Errors

  // Character classes, over ASCII.
  predicate IsDigit(c: char) { '0' <= c <= '9' }
  predicate IsAlpha(c: char) { 'a' <= c <= 'z' || 'A' <= c <= 'Z' }
  predicate IsAlphaNumeric(c: char) { IsAlpha(c) || IsDigit(c) }

  /** The character at `i`, or NUL past the end of the text. */
  function CharAt(src: string, i: nat): char {
    if i < |src| then src[i] else '\0'
  }

  /** The token covering `src[start..current]`, positioned at its end. */
  function Tok(src: string, kind: TokenType, literal: Lit, start: nat, current: nat, line: nat, lineStart: nat): Token
    requires start <= current <= |src|
  {
    Token(kind, src[start..current], literal, Position(line, lineStart, current, current - lineStart), current - start)
  }

  /** The EOF token: empty lexeme, and its column is the offset itself. */
  function EofToken(line: nat, lineStart: nat, current: nat): Token {
    Token(EOF, "", NoneLit, Position(line, lineStart, current, current), 0)
  }

  /** A token is an exact slice of the text: its lexeme is the `length` characters ending at its offset. */
  ghost predicate Sliced(src: string, t: Token) {
    t.position.offset <= |src| && t.length <= t.position.offset &&
    t.symbol == src[t.position.offset - t.length .. t.position.offset]
  }

  // ---------------------------------------------------------------- runs

  /** End of the run of digits starting at `i`. */
  function DigitsEnd(src: string, i: nat): (j: nat)
    requires i <= |src|
    ensures i <= j <= |src|
    ensures forall k :: i <= k < j ==> IsDigit(src[k])
    ensures j == |src| || !IsDigit(src[j])
    decreases |src| - i
  {
    if i < |src| && IsDigit(src[i]) then DigitsEnd(src, i + 1) else i
  }

  /** End of the run of letters and digits starting at `i`. */
  function AlnumEnd(src: string, i: nat): (j: nat)
    requires i <= |src|
    ensures i <= j <= |src|
    ensures forall k :: i <= k < j ==> IsAlphaNumeric(src[k])
    ensures j == |src| || !IsAlphaNumeric(src[j])
    decreases |src| - i
  {
    if i < |src| && IsAlphaNumeric(src[i]) then AlnumEnd(src, i + 1) else i
  }

  /** Where a `//` comment starting its body at `i` stops: at the next newline, or at the end. */
  function LineEnd(src: string, i: nat): (j: nat)
    requires i <= |src|
    ensures i <= j <= |src|
    ensures forall k :: i <= k < j ==> src[k] != '\n'
    ensures j == |src| || src[j] == '\n'
    decreases |src| - i
  {
    if i < |src| && src[i] != '\n' then LineEnd(src, i + 1) else i
  }

  /** End of a number whose first digit ends just before `i`: digits, then `.` and digits when a digit follows the dot. */
  function NumberEnd(src: string, i: nat): (j: nat)
    requires i <= |src|
    ensures i <= j <= |src|
  {
    var k := DigitsEnd(src, i);
    if CharAt(src, k) == '.' && IsDigit(CharAt(src, k + 1)) then DigitsEnd(src, k + 1) else k
  }

  /** Where a single-quoted string body starting at `i` stops: a quote, a newline, a `;`, or the end. */
  function QuoteStop(src: string, i: nat): (j: nat)
    requires i <= |src|
    ensures i <= j <= |src|
    ensures forall k :: i <= k < j ==> src[k] != '\'' && src[k] != '\n' && src[k] != ';'
    ensures j < |src| ==> src[j] == '\'' || src[j] == '\n' || src[j] == ';'
    decreases |src| - i
  {
    if i < |src| && src[i] != '\'' && src[i] != '\n' && src[i] != ';' then QuoteStop(src, i + 1) else i
  }

  /** A cursor position reached by walking over text that may contain newlines. */
  datatype Walk = Walk(at: nat, line: nat, lineStart: nat)

  /** Number of newlines in `s`. */
  function Newlines(s: string): nat {
    if s == [] then 0 else (if s[0] == '\n' then 1 else 0) + Newlines(s[1..])
  }

  /**
   * The body of a double-quoted string from `i`: up to the closing quote or
   * the end; each newline passed counts a line, and the line is taken to
   * start at that newline's own offset.
   */
  function MultilineWalk(src: string, i: nat, line: nat, lineStart: nat): (w: Walk)
    requires lineStart <= i <= |src|
    ensures i <= w.at <= |src| && w.lineStart <= w.at && line <= w.line
    ensures forall k :: i <= k < w.at ==> src[k] != '"'
    ensures w.at == |src| || src[w.at] == '"'
    decreases |src| - i
  {
    if i >= |src| || src[i] == '"' then Walk(i, line, lineStart)
    else if src[i] == '\n' then MultilineWalk(src, i + 1, line + 1, i)
    else MultilineWalk(src, i + 1, line, lineStart)
  }

  /**
   * The loop of a block comment from `i`: it stops just after the first `*`,
   * just before the first `/`, or at the end, counting newlines on the way.
   */
  function CommentWalk(src: string, i: nat, line: nat, lineStart: nat): (w: Walk)
    requires lineStart <= i <= |src|
    ensures i <= w.at <= |src| && w.lineStart <= w.at && line <= w.line
    decreases |src| - i
  {
    if i < |src| && src[i] == '*' then Walk(i + 1, line, lineStart)
    else if i >= |src| || src[i] == '/' then Walk(i, line, lineStart)
    else if src[i] == '\n' then CommentWalk(src, i + 1, line + 1, i)
    else CommentWalk(src, i + 1, line, lineStart)
  }

  // ------------------------------------------------------- number values

  function DigitValue(c: char): nat {
    if IsDigit(c) then c as int - '0' as int else 0
  }

  function DigitsValue(s: string): nat {
    if s == [] then 0 else DigitsValue(s[..|s| - 1]) * 10 + DigitValue(s[|s| - 1])
  }

  function Pow10(n: nat): (p: nat)
    ensures p >= 1
  {
    if n == 0 then 1 else 10 * Pow10(n - 1)
  }

  /** Offset of the first `.` in `s`, or `|s|`. */
  function DotIndex(s: string): (k: nat)
    ensures k <= |s|
    ensures forall j :: 0 <= j < k ==> s[j] != '.'
    ensures k < |s| ==> s[k] == '.'
  {
    if s == [] || s[0] == '.' then 0 else 1 + DotIndex(s[1..])
  }

  /** The exact decimal value of a number lexeme. */
  function DecimalValue(text: string): real {
    var k := DotIndex(text);
    if k < |text| then
      DigitsValue(text[..k]) as real + DigitsValue(text[k + 1..]) as real / Pow10(|text| - k - 1) as real
    else DigitsValue(text) as real
  }

  // ------------------------------------------------------------- one step

  /** What one step does: the new cursor, the tokens and reports it adds, and whether it crashed. */
  datatype Outcome = Outcome(current: nat, line: nat, lineStart: nat, emitted: seq<Token>, reports: seq<Diagnostic>, crashed: bool)

  function Emit(src: string, kind: TokenType, start: nat, current: nat, line: nat, lineStart: nat): Outcome
    requires start <= current <= |src|
  {
    Outcome(current, line, lineStart, [Tok(src, kind, NoneLit, start, current, line, lineStart)], [], false)
  }

  function Skip(current: nat, line: nat, lineStart: nat): Outcome {
    Outcome(current, line, lineStart, [], [], false)
  }

  /** True when the character at `i` exists and is `c`. */
  predicate Matches(src: string, i: nat, c: char) {
    i < |src| && src[i] == c
  }

  function IdentifierOutcome(src: string, start: nat, current: nat, line: nat, lineStart: nat): Outcome
    requires start <= current <= |src|
  {
    var e := AlnumEnd(src, current);
    Outcome(e, line, lineStart, [Tok(src, IdentifierKind(src[start..e]), NoneLit, start, e, line, lineStart)], [], false)
  }

  function NumberOutcome(src: string, start: nat, current: nat, line: nat, lineStart: nat): Outcome
    requires start <= current <= |src|
  {
    var e := NumberEnd(src, current);
    Outcome(e, line, lineStart, [Tok(src, NUMBER, NumLit(DecimalValue(src[start..e])), start, e, line, lineStart)], [], false)
  }

  const UnterminatedString := "Unterminated string. Missing ' at end."
  const NeverTerminatedString := "String never terminated. Missing ' at end."
  const UnterminatedMultiline := "Unterminated multiline string. Missing \" at end."

  /** The message for a character that starts no token. */
  function UnexpectedCharacter(c: char): string {
    "Unexpected character: '" + [c] + "'"
  }

  /** A single-quoted string whose opening quote is at `start`. */
  function StringOutcome(src: string, start: nat, current: nat, line: nat, lineStart: nat): Outcome
    requires start < current <= |src|
  {
    var k := QuoteStop(src, current);
    if k == |src| then
      Outcome(k, line, lineStart, [], [ScanDiagnostic(line, lineStart, start, k, NeverTerminatedString)], false)
    else if src[k] == '\'' then
      Outcome(k + 1, line, lineStart, [Tok(src, STRING, StrLit(src[start + 1..k]), start, k + 1, line, lineStart)], [], false)
    else
      Outcome(k, line, lineStart, [], [ScanDiagnostic(line, lineStart, start, k, UnterminatedString)], false)
  }

  /** A double-quoted string whose opening quote is at `start`. */
  function MultilineOutcome(src: string, start: nat, current: nat, line: nat, lineStart: nat): Outcome
    requires start < current <= |src| && lineStart <= current
  {
    var w := MultilineWalk(src, current, line, lineStart);
    if w.at == |src| then
      Outcome(w.at, w.line, w.lineStart, [], [ScanDiagnostic(w.line, w.lineStart, start, w.at, UnterminatedMultiline)], false)
    else
      Outcome(w.at + 1, w.line, w.lineStart, [Tok(src, STRING, StrLit(src[start + 1..w.at]), start, w.at + 1, w.line, w.lineStart)], [], false)
  }

  /** A block comment whose body starts at `current`; the step past the loop crashes at the end of the text. */
  function BlockCommentOutcome(src: string, current: nat, line: nat, lineStart: nat): Outcome
    requires lineStart <= current <= |src|
  {
    var w := CommentWalk(src, current, line, lineStart);
    if w.at < |src| then Skip(w.at + 1, w.line, w.lineStart)
    else Outcome(w.at, w.line, w.lineStart, [], [], true)
  }

  /** The characters that start an operator or punctuation token. */
  const OperatorStarts := "(){},.;?%*+-!=<>:"

  /**
   * The kind and width of the operator starting at `i`: a second character
   * that completes a two-character operator is always taken.
   */
  function OperatorToken(src: string, i: nat): (r: (TokenType, nat))
    requires i < |src| && src[i] in OperatorStarts
    ensures r.0 != EOF && 1 <= r.1 <= 2 && i + r.1 <= |src|
  {
    var r := OperatorKind(src[i], CharAt(src, i + 1));
    assert r.1 == 2 ==> i + 1 < |src|;
    r
  }

  /** The same, from the character at the operator's start and the one after it (NUL past the end). */
  function OperatorKind(c: char, next: char): (r: (TokenType, nat))
    requires c in OperatorStarts
    ensures r.0 != EOF && 1 <= r.1 <= 2
    ensures r.1 == 2 ==> next != '\0'
  {
    match c
    case '(' => (LEFT_PAREN, 1)
    case ')' => (RIGHT_PAREN, 1)
    case '{' => (LEFT_BRACE, 1)
    case '}' => (RIGHT_BRACE, 1)
    case ',' => (COMMA, 1)
    case '.' => (DOT, 1)
    case ';' => (SEMICOLON, 1)
    case '?' => (QUESTION_MARK, 1)
    case '%' => (MODULO, 1)
    case '*' => if next == '=' then (STAR_ASSIGN, 2) else (STAR, 1)
    case '+' =>
      if next == '+' then (PLUS_PLUS, 2)
      else if next == '=' then (PLUS_ASSIGN, 2)
      else (PLUS, 1)
    case '-' =>
      if next == '-' then (MINUS_MINUS, 2)
      else if next == '=' then (MINUS_ASSIGN, 2)
      else if next == '>' then (RIGHT_ARROW, 2)
      else (MINUS, 1)
    case '!' => if next == '=' then (BANG_EQUAL, 2) else (BANG, 1)
    case '=' => if next == '=' then (EQUAL_EQUAL, 2) else (EQUAL, 1)
    case '<' =>
      if next == '=' then (LESS_EQUAL, 2)
      else if next == '<' then (LEFT_SHIFT, 2)
      else if next == '-' then (LEFT_ARROW, 2)
      else (LESS, 1)
    case '>' =>
      if next == '=' then (GREATER_EQUAL, 2)
      else if next == '>' then (RIGHT_SHIFT, 2)
      else (GREATER, 1)
    case _ => if next == ':' then (DOUBLE_COLON, 2) else (COLON, 1)
  }

  /** A `/`: a line comment, a block comment, `/=` or `/`. */
  function SlashOutcome(src: string, i: nat, line: nat, lineStart: nat): Outcome
    requires lineStart <= i < |src|
  {
    var n := i + 1;
    if Matches(src, n, '/') then Skip(LineEnd(src, n + 1), line, lineStart)
    else if Matches(src, n, '*') then BlockCommentOutcome(src, n + 1, line, lineStart)
    else if Matches(src, n, '=') then Emit(src, SLASH_ASSIGN, i, n + 1, line, lineStart)
    else Emit(src, SLASH, i, n, line, lineStart)
  }

  /**
   * One call of the scanner's step at offset `i`: the character there decides
   * which token, if any, is added.
   */
  function Step(src: string, i: nat, line: nat, lineStart: nat): Outcome
    requires lineStart <= i < |src|
  {
    var c := src[i];
    var n := i + 1;
    if c in OperatorStarts then
      var (kind, width) := OperatorToken(src, i);
      Emit(src, kind, i, i + width, line, lineStart)
    else if c == '/' then SlashOutcome(src, i, line, lineStart)
    else if c == '\r' || c == '\t' || c == ' ' then Skip(n, line, lineStart)
    else if c == '\n' then Skip(n, line + 1, n)
    else if c == '\'' then StringOutcome(src, i, n, line, lineStart)
    else if c == '"' then MultilineOutcome(src, i, n, line, lineStart)
    else if IsDigit(c) then NumberOutcome(src, i, n, line, lineStart)
    else if IsAlpha(c) then IdentifierOutcome(src, i, n, line, lineStart)
    else Outcome(n, line, lineStart, [], [ScanDiagnostic(line, lineStart, i, n, UnexpectedCharacter(c))], false)
  }

  // ------------------------------------------------------------ whole scan

  /**
   * What every step guarantees: unless it crashes it moves the cursor forward
   * and keeps the line start behind it; it adds at most one token, never EOF,
   * and that token is an exact slice of the text whose column is its offset
   * from the line start.
   */
  ghost predicate WellStepped(src: string, i: nat, line: nat, o: Outcome) {
    (!o.crashed ==> i < o.current <= |src| && o.lineStart <= o.current && line <= o.line) &&
    (o.crashed ==> o.emitted == [] && o.reports == []) &&
    |o.emitted| <= 1 &&
    forall t :: t in o.emitted ==> t.kind != EOF && Sliced(src, t) && t.position.column == t.position.offset - t.position.lineStart
  }

  lemma EmitFacts(src: string, kind: TokenType, start: nat, current: nat, line: nat, lineStart: nat)
    requires lineStart <= start < current <= |src| && kind != EOF
    ensures WellStepped(src, start, line, Emit(src, kind, start, current, line, lineStart))
  {
    var t := Tok(src, kind, NoneLit, start, current, line, lineStart);
    assert Sliced(src, t);
  }

  lemma OperatorFacts(src: string, i: nat, line: nat, lineStart: nat)
    requires lineStart <= i < |src| && src[i] in OperatorStarts
    ensures var (kind, width) := OperatorToken(src, i);
            WellStepped(src, i, line, Emit(src, kind, i, i + width, line, lineStart))
  {
    var (kind, width) := OperatorToken(src, i);
    EmitFacts(src, kind, i, i + width, line, lineStart);
  }

  lemma SlashFacts(src: string, i: nat, line: nat, lineStart: nat)
    requires lineStart <= i < |src|
    ensures WellStepped(src, i, line, SlashOutcome(src, i, line, lineStart))
  {
    var n := i + 1;
    if Matches(src, n, '/') || Matches(src, n, '*') {
    } else if Matches(src, n, '=') {
      EmitFacts(src, SLASH_ASSIGN, i, n + 1, line, lineStart);
    } else {
      EmitFacts(src, SLASH, i, n, line, lineStart);
    }
  }

  lemma StringFacts(src: string, i: nat, line: nat, lineStart: nat)
    requires lineStart <= i < |src|
    ensures WellStepped(src, i, line, StringOutcome(src, i, i + 1, line, lineStart))
  {
    var k := QuoteStop(src, i + 1);
    if k < |src| && src[k] == '\'' {
      assert Sliced(src, Tok(src, STRING, StrLit(src[i + 1..k]), i, k + 1, line, lineStart));
    }
  }

  lemma MultilineFacts(src: string, i: nat, line: nat, lineStart: nat)
    requires lineStart <= i < |src|
    ensures WellStepped(src, i, line, MultilineOutcome(src, i, i + 1, line, lineStart))
  {
    var w := MultilineWalk(src, i + 1, line, lineStart);
    if w.at < |src| {
      assert Sliced(src, Tok(src, STRING, StrLit(src[i + 1..w.at]), i, w.at + 1, w.line, w.lineStart));
    }
  }

  lemma NumberFacts(src: string, i: nat, line: nat, lineStart: nat)
    requires lineStart <= i < |src|
    ensures WellStepped(src, i, line, NumberOutcome(src, i, i + 1, line, lineStart))
  {
    var e := NumberEnd(src, i + 1);
    assert Sliced(src, Tok(src, NUMBER, NumLit(DecimalValue(src[i..e])), i, e, line, lineStart));
  }

  lemma IdentifierFacts(src: string, i: nat, line: nat, lineStart: nat)
    requires lineStart <= i < |src|
    ensures WellStepped(src, i, line, IdentifierOutcome(src, i, i + 1, line, lineStart))
  {
    var e := AlnumEnd(src, i + 1);
    assert Sliced(src, Tok(src, IdentifierKind(src[i..e]), NoneLit, i, e, line, lineStart));
  }

  lemma StepFacts(src: string, i: nat, line: nat, lineStart: nat)
    requires lineStart <= i < |src|
    ensures WellStepped(src, i, line, Step(src, i, line, lineStart))
  {
    var c := src[i];
    var o := Step(src, i, line, lineStart);
    if c in OperatorStarts {
      OperatorFacts(src, i, line, lineStart);
      var (kind, width) := OperatorToken(src, i);
      assert o == Emit(src, kind, i, i + width, line, lineStart);
    } else if c == '/' {
      SlashFacts(src, i, line, lineStart);
      assert o == SlashOutcome(src, i, line, lineStart);
    } else if c == '\'' {
      StringFacts(src, i, line, lineStart);
      assert o == StringOutcome(src, i, i + 1, line, lineStart);
    } else if c == '"' {
      MultilineFacts(src, i, line, lineStart);
      assert o == MultilineOutcome(src, i, i + 1, line, lineStart);
    } else if IsDigit(c) {
      NumberFacts(src, i, line, lineStart);
      assert o == NumberOutcome(src, i, i + 1, line, lineStart);
    } else if IsAlpha(c) {
      IdentifierFacts(src, i, line, lineStart);
      assert o == IdentifierOutcome(src, i, i + 1, line, lineStart);
    } else {
      PlainFacts(src, i, line, lineStart);
    }
  }

  /** Whitespace, a newline and an unexpected character each take one character and add no token. */
  lemma PlainFacts(src: string, i: nat, line: nat, lineStart: nat)
    requires lineStart <= i < |src|
    requires src[i] !in OperatorStarts && src[i] !in "/'\"" && !IsDigit(src[i]) && !IsAlpha(src[i])
    ensures WellStepped(src, i, line, Step(src, i, line, lineStart))
  {
    var o := Step(src, i, line, lineStart);
    assert o.current == i + 1 && o.emitted == [] && !o.crashed;
  }

  /** A step at a quote: a single-quoted or a multi-line string. */
  lemma QuotedStep(src: string, i: nat, line: nat, lineStart: nat)
    requires lineStart <= i < |src| && (src[i] == '\'' || src[i] == '"')
    ensures Step(src, i, line, lineStart) ==
              if src[i] == '\'' then StringOutcome(src, i, i + 1, line, lineStart)
              else MultilineOutcome(src, i, i + 1, line, lineStart)
  {
  }

  /** A step at a character no earlier case claims: a number, a name, or an unexpected character. */
  lemma WordStep(src: string, i: nat, line: nat, lineStart: nat)
    requires lineStart <= i < |src|
    requires src[i] !in OperatorStarts && src[i] != '/' && src[i] != '\r' && src[i] != '\t' && src[i] != ' '
    requires src[i] != '\n' && src[i] != '\'' && src[i] != '"'
    ensures Step(src, i, line, lineStart) ==
              if IsDigit(src[i]) then NumberOutcome(src, i, i + 1, line, lineStart)
              else if IsAlpha(src[i]) then IdentifierOutcome(src, i, i + 1, line, lineStart)
              else Outcome(i + 1, line, lineStart, [], [ScanDiagnostic(line, lineStart, i, i + 1, UnexpectedCharacter(src[i]))], false)
  {
  }

  /** The tokens and reports of a whole scan, and whether it crashed. */
  datatype Scanned = Scanned(tokens: seq<Token>, reports: seq<Diagnostic>, crashed: bool)

  /** Scanning from offset `i` to the end: one step after another, then the EOF token. */
  function ScanFrom(src: string, i: nat, line: nat, lineStart: nat): Scanned
    requires lineStart <= i <= |src|
    decreases |src| - i
  {
    if i >= |src| then Scanned([EofToken(line, lineStart, i)], [], false)
    else
      var o := Step(src, i, line, lineStart);
      StepFacts(src, i, line, lineStart);
      if o.crashed then Scanned(o.emitted, o.reports, true)
      else
        var rest := ScanFrom(src, o.current, o.line, o.lineStart);
        Scanned(o.emitted + rest.tokens, o.reports + rest.reports, rest.crashed)
  }

  /**
   * Unless a scan crashes, its tokens end with exactly one EOF token, at the
   * end of the text and with an empty lexeme.
   */
  lemma {:induction false} ScanEndsWithEof(src: string, i: nat, line: nat, lineStart: nat)
    requires lineStart <= i <= |src|
    ensures var r := ScanFrom(src, i, line, lineStart);
            !r.crashed ==>
              |r.tokens| >= 1 &&
              r.tokens[|r.tokens| - 1] == EofToken(r.tokens[|r.tokens| - 1].position.line, r.tokens[|r.tokens| - 1].position.lineStart, |src|) &&
              forall k :: 0 <= k < |r.tokens| - 1 ==> r.tokens[k].kind != EOF
    decreases |src| - i
  {
    if i < |src| {
      var o := Step(src, i, line, lineStart);
      StepFacts(src, i, line, lineStart);
      if !o.crashed {
        ScanEndsWithEof(src, o.current, o.line, o.lineStart);
        var rest := ScanFrom(src, o.current, o.line, o.lineStart);
        var r := ScanFrom(src, i, line, lineStart);
        assert r.tokens == o.emitted + rest.tokens;
        if !r.crashed {
          forall k | 0 <= k < |r.tokens| - 1
            ensures r.tokens[k].kind != EOF
          {
            if k < |o.emitted| {
              assert r.tokens[k] in o.emitted;
            } else {
              assert r.tokens[k] == rest.tokens[k - |o.emitted|];
            }
          }
        }
      }
    }
  }

  /**
   * Every token of a scan, crashed or not, is an exact slice of the text,
   * and every token but EOF has its offset from the line start as its column.
   */
  lemma {:induction false} ScanTokensSliced(src: string, i: nat, line: nat, lineStart: nat)
    requires lineStart <= i <= |src|
    ensures forall t :: t in ScanFrom(src, i, line, lineStart).tokens ==>
              Sliced(src, t) && (t.kind != EOF ==> t.position.column == t.position.offset - t.position.lineStart)
    decreases |src| - i
  {
    if i < |src| {
      var o := Step(src, i, line, lineStart);
      StepFacts(src, i, line, lineStart);
      if !o.crashed {
        ScanTokensSliced(src, o.current, o.line, o.lineStart);
        var rest := ScanFrom(src, o.current, o.line, o.lineStart);
        var r := ScanFrom(src, i, line, lineStart);
        assert r.tokens == o.emitted + rest.tokens;
        forall t | t in r.tokens
          ensures Sliced(src, t) && (t.kind != EOF ==> t.position.column == t.position.offset - t.position.lineStart)
        {
          if t !in o.emitted {
            assert t in rest.tokens;
          }
        }
      }
    }
  }

  /** One step of a whole scan, unfolded. */
  lemma ScanFromStep(src: string, i: nat, line: nat, lineStart: nat)
    requires lineStart <= i < |src|
    ensures var o := Step(src, i, line, lineStart);
            ScanFrom(src, i, line, lineStart) ==
              if o.crashed then Scanned(o.emitted, o.reports, true)
              else var rest := ScanFrom(src, o.current, o.line, o.lineStart);
                   Scanned(o.emitted + rest.tokens, o.reports + rest.reports, rest.crashed)
  {
    StepFacts(src, i, line, lineStart);
  }

  lemma AppendAssoc<T>(a: seq<T>, b: seq<T>, c: seq<T>)
    ensures a + (b + c) == (a + b) + c
  {
  }

  /** The scan of a whole source text, starting on line 1. */
  function ScanAll(src: string): Scanned {
    ScanFrom(src, 0, 1, 0)
  }

  // ------------------------------------------------------ step properties

  /** Reference table of the two-character operators, by spelling. */
  const TwoCharOperators: map<(char, char), TokenType> := map[
    ('+', '+') := PLUS_PLUS, ('+', '=') := PLUS_ASSIGN, ('-', '-') := MINUS_MINUS, ('-', '=') := MINUS_ASSIGN,
    ('-', '>') := RIGHT_ARROW, ('!', '=') := BANG_EQUAL, ('=', '=') := EQUAL_EQUAL, ('<', '=') := LESS_EQUAL,
    ('<', '<') := LEFT_SHIFT, ('<', '-') := LEFT_ARROW, ('>', '=') := GREATER_EQUAL, ('>', '>') := RIGHT_SHIFT,
    (':', ':') := DOUBLE_COLON, ('*', '=') := STAR_ASSIGN, ('/', '=') := SLASH_ASSIGN
  ]

  /** Reference table of the one-character operators and punctuation. */
  const OneCharOperators: map<char, TokenType> := map[
    '(' := LEFT_PAREN, ')' := RIGHT_PAREN, '{' := LEFT_BRACE, '}' := RIGHT_BRACE,
    ',' := COMMA, '.' := DOT, ';' := SEMICOLON, '?' := QUESTION_MARK, '%' := MODULO,
    '*' := STAR, '+' := PLUS, '-' := MINUS, '!' := BANG, '=' := EQUAL,
    '<' := LESS, '>' := GREATER, ':' := COLON, '/' := SLASH
  ]

  /** The two characters at `i`, when there are two, are `pair`. */
  predicate PairAt(src: string, i: nat, pair: (char, char)) {
    i + 1 < |src| && src[i] == pair.0 && src[i + 1] == pair.1
  }

  /** The operator table decides the kind: the two-character entry when there is one, else the one-character entry. */
  lemma OperatorKindGreedy(c: char, next: char)
    requires c in OperatorStarts
    ensures (c, next) in TwoCharOperators ==> OperatorKind(c, next) == (TwoCharOperators[(c, next)], 2)
    ensures (c, next) !in TwoCharOperators ==> OperatorKind(c, next) == (OneCharOperators[c], 1)
  {
    if (c, next) in TwoCharOperators {
      TwoCharKind(c, next);
    } else {
      OneCharKind(c, next);
    }
  }

  lemma TwoCharKind(c: char, next: char)
    requires c in OperatorStarts && (c, next) in TwoCharOperators
    ensures OperatorKind(c, next) == (TwoCharOperators[(c, next)], 2)
  {
  }

  lemma OneCharKind(c: char, next: char)
    requires c in OperatorStarts && (c, next) !in TwoCharOperators
    ensures OperatorKind(c, next) == (OneCharOperators[c], 1)
  {
    if c in "(){},.;?%" {
      PunctuationKind(c, next);
    } else if c in "*!=:" {
      OneCharOfPair(c, next);
    } else {
      OneCharOfTriple(c, next);
    }
  }

  lemma PunctuationKind(c: char, next: char)
    requires c in "(){},.;?%"
    ensures OperatorKind(c, next) == (OneCharOperators[c], 1)
  {
  }

  lemma OneCharOfPair(c: char, next: char)
    requires c in "*!=:" && (c, next) !in TwoCharOperators
    ensures OperatorKind(c, next) == (OneCharOperators[c], 1)
  {
  }

  lemma OneCharOfTriple(c: char, next: char)
    requires c in "+-<>" && (c, next) !in TwoCharOperators
    ensures OperatorKind(c, next) == (OneCharOperators[c], 1)
  {
  }

  /**
   * Operators are taken greedily: when the text at `i` spells a two-character
   * operator, that is the token and it covers both characters; otherwise a
   * one-character operator covers just its character (a `/` followed by `/`
   * or `*` opens a comment instead).
   */
  lemma OperatorsGreedy(src: string, i: nat, line: nat, lineStart: nat)
    requires lineStart <= i < |src|
    ensures forall op :: op in TwoCharOperators && PairAt(src, i, op) ==>
              Step(src, i, line, lineStart) == Emit(src, TwoCharOperators[op], i, i + 2, line, lineStart)
    ensures src[i] in OneCharOperators && !PairAt(src, i, ('/', '/')) && !PairAt(src, i, ('/', '*')) &&
            (forall op :: op in TwoCharOperators ==> !PairAt(src, i, op)) ==>
              Step(src, i, line, lineStart) == Emit(src, OneCharOperators[src[i]], i, i + 1, line, lineStart)
  {
    forall op | op in TwoCharOperators && PairAt(src, i, op)
      ensures Step(src, i, line, lineStart) == Emit(src, TwoCharOperators[op], i, i + 2, line, lineStart)
    {
      TwoCharStep(src, i, line, lineStart);
    }
    if src[i] in OneCharOperators && !PairAt(src, i, ('/', '/')) && !PairAt(src, i, ('/', '*')) &&
       (forall op :: op in TwoCharOperators ==> !PairAt(src, i, op)) {
      OneCharStep(src, i, line, lineStart);
    }
  }

  lemma TwoCharStep(src: string, i: nat, line: nat, lineStart: nat)
    requires lineStart <= i && i + 1 < |src| && (src[i], src[i + 1]) in TwoCharOperators
    ensures Step(src, i, line, lineStart) == Emit(src, TwoCharOperators[(src[i], src[i + 1])], i, i + 2, line, lineStart)
  {
    if src[i] in OperatorStarts {
      OperatorKindGreedy(src[i], src[i + 1]);
    }
  }

  lemma OneCharStep(src: string, i: nat, line: nat, lineStart: nat)
    requires lineStart <= i < |src| && src[i] in OneCharOperators
    requires !PairAt(src, i, ('/', '/')) && !PairAt(src, i, ('/', '*'))
    requires i + 1 < |src| ==> (src[i], src[i + 1]) !in TwoCharOperators
    ensures Step(src, i, line, lineStart) == Emit(src, OneCharOperators[src[i]], i, i + 1, line, lineStart)
  {
    var next := CharAt(src, i + 1);
    assert i + 1 >= |src| ==> (src[i], next) !in TwoCharOperators;
    if src[i] in OperatorStarts {
      OperatorKindGreedy(src[i], next);
    }
  }

  /**
   * A letter starts an identifier that runs over every following letter and
   * digit; its kind is the keyword the lexeme spells, or IDENTIFIER.
   */
  lemma IdentifierStep(src: string, i: nat, line: nat, lineStart: nat)
    requires lineStart <= i < |src| && IsAlpha(src[i])
    ensures var o := Step(src, i, line, lineStart);
            var e := o.current;
            i < e <= |src| && (forall k :: i <= k < e ==> IsAlphaNumeric(src[k])) &&
            (e == |src| || !IsAlphaNumeric(src[e])) &&
            o.emitted == [Tok(src, IdentifierKind(src[i..e]), NoneLit, i, e, line, lineStart)] && o.reports == [] &&
            (src[i..e] in Keywords ==> o.emitted[0].kind == Keywords[src[i..e]]) &&
            (src[i..e] !in Keywords ==> o.emitted[0].kind == IDENTIFIER)
  {
  }

  /**
   * Whitespace and comments add no token and no report. A newline moves to
   * the next line, which starts just after it; a `//` comment stops before
   * the newline that ends it, leaving that newline to the next step.
   */
  lemma LayoutStep(src: string, i: nat, line: nat, lineStart: nat)
    requires lineStart <= i < |src|
    requires src[i] in " \r\t\n" || PairAt(src, i, ('/', '/')) || PairAt(src, i, ('/', '*'))
    ensures var o := Step(src, i, line, lineStart);
            o.emitted == [] && o.reports == [] &&
            (src[i] == '\n' ==> o == Skip(i + 1, line + 1, i + 1)) &&
            (src[i] in " \r\t" ==> o == Skip(i + 1, line, lineStart)) &&
            (PairAt(src, i, ('/', '/')) ==>
               o.line == line && o.lineStart == lineStart && i + 2 <= o.current <= |src| &&
               (forall k :: i + 2 <= k < o.current ==> src[k] != '\n') &&
               (o.current == |src| || src[o.current] == '\n'))
  {
  }

  /** Where the last newline of `src[i..j]` is, when it has one. */
  predicate LastNewlineAt(src: string, i: nat, j: nat, at: nat)
    requires i <= j <= |src|
  {
    i <= at < j && src[at] == '\n' && forall k :: at < k < j ==> src[k] != '\n'
  }

  /**
   * Inside a double-quoted string every newline counts a line, and the line
   * start becomes the offset of the last newline passed (the newline itself,
   * not the character after it).
   */
  lemma {:induction false} MultilineWalkLines(src: string, i: nat, line: nat, lineStart: nat)
    requires lineStart <= i <= |src|
    ensures var w := MultilineWalk(src, i, line, lineStart);
            w.line == line + Newlines(src[i..w.at]) &&
            ((w.lineStart == lineStart && forall k :: i <= k < w.at ==> src[k] != '\n') || LastNewlineAt(src, i, w.at, w.lineStart))
    decreases |src| - i
  {
    var w := MultilineWalk(src, i, line, lineStart);
    if i < |src| && src[i] != '"' {
      var l := if src[i] == '\n' then line + 1 else line;
      var ls := if src[i] == '\n' then i else lineStart;
      MultilineWalkLines(src, i + 1, l, ls);
      assert src[i..w.at][1..] == src[i + 1..w.at];
    }
  }

  /**
   * Inside a block comment the same holds: every newline passed counts a
   * line and the line start becomes that newline's offset.
   */
  lemma {:induction false} CommentWalkLines(src: string, i: nat, line: nat, lineStart: nat)
    requires lineStart <= i <= |src|
    ensures var w := CommentWalk(src, i, line, lineStart);
            w.line == line + Newlines(src[i..w.at]) &&
            ((w.lineStart == lineStart && forall k :: i <= k < w.at ==> src[k] != '\n') || LastNewlineAt(src, i, w.at, w.lineStart))
    decreases |src| - i
  {
    var w := CommentWalk(src, i, line, lineStart);
    if i < |src| && src[i] == '*' {
      assert src[i..w.at] == ['*'];
    } else if i < |src| && src[i] != '/' {
      var l := if src[i] == '\n' then line + 1 else line;
      var ls := if src[i] == '\n' then i else lineStart;
      CommentWalkLines(src, i + 1, l, ls);
      assert src[i..w.at][1..] == src[i + 1..w.at];
    }
  }

  /**
   * A single-quoted string adds a token exactly when a closing quote comes
   * before any newline, `;` or the end; the token's literal is the text
   * strictly between the quotes. Otherwise one report is made and no token.
   */
  lemma StringStep(src: string, i: nat, line: nat, lineStart: nat)
    requires lineStart <= i < |src| && src[i] == '\''
    ensures var o := Step(src, i, line, lineStart);
            var k := QuoteStop(src, i + 1);
            (o.emitted != [] <==> k < |src| && src[k] == '\'') &&
            (o.emitted != [] ==> o.emitted == [Tok(src, STRING, StrLit(src[i + 1..k]), i, k + 1, line, lineStart)] && o.reports == [] && o.current == k + 1) &&
            (o.emitted == [] ==> |o.reports| == 1 && o.current == k && o.reports[0].severity == SYNTAX_ERROR)
  {
  }

  // -------------------------------------------------------------- scanner

  class Scanner {
    const source: string
    const errors: ErrorLog
    var tokens: seq<Token>
    var start: nat
    var current: nat
    var line: nat
    var lineStart: nat

    ghost predicate Valid()
      reads this
    {
      start <= current <= |source| && lineStart <= current
    }

    /** The scanner's state is the one outcome `o` describes, given the tokens and log it started from. */
    ghost predicate Reached(o: Outcome, tokens0: seq<Token>, log0: seq<Diagnostic>)
      reads this, errors
    {
      current == o.current && line == o.line && lineStart == o.lineStart &&
      tokens == tokens0 + o.emitted && errors.log == log0 + o.reports
    }

    constructor (source: string, errors: ErrorLog)
      ensures this.source == source && this.errors == errors
      ensures tokens == [] && start == 0 && current == 0 && line == 1 && lineStart == 0
      ensures Valid()
    {
      this.source := source;
      this.errors := errors;
      tokens := [];
      start := 0;
      current := 0;
      line := 1;
      lineStart := 0;
    }

    /** Past the last character; both lookaheads then give NUL. */
    predicate IsAtEnd(): (r: bool)
      reads this
      ensures r ==> Peek() == '\0' && PeekNext() == '\0'
    {
      current >= |source|
    }

    /** The next character, or NUL past the end. */
    function Peek(): (c: char)
      reads this
      ensures current < |source| ==> c == source[current]
      ensures current >= |source| ==> c == '\0'
    {
      CharAt(source, current)
    }

    /** The character after the next one, or NUL past the end. */
    function PeekNext(): (c: char)
      reads this
      ensures current + 1 < |source| ==> c == source[current + 1]
      ensures current + 1 >= |source| ==> c == '\0'
    {
      if current + 1 >= |source| then '\0' else source[current + 1]
    }

    /** Consumes the next character exactly when it exists and is `expected`. */
    method Match(expected: char) returns (matched: bool)
      modifies this`current
      ensures matched <==> old(current) < |source| && source[old(current)] == expected
      ensures current == if matched then old(current) + 1 else old(current)
    {
      if IsAtEnd() {
        return false;
      }
      if source[current] != expected {
        return false;
      }
      current := current + 1;
      return true;
    }

    /**
     * Consumes and returns the next character. Past the end the source's
     * indexing fails: `ok` is false and the cursor stays put.
     */
    method Advance() returns (c: char, ok: bool)
      modifies this`current
      ensures ok <==> old(current) < |source|
      ensures ok ==> c == source[old(current)] && current == old(current) + 1
      ensures !ok ==> current == old(current)
    {
      if current >= |source| {
        return '\0', false;
      }
      c := source[current];
      current := current + 1;
      ok := true;
    }

    /** Appends the token for `source[start..current]`. */
    method AddToken(kind: TokenType, literal: Lit)
      requires Valid()
      modifies this`tokens
      ensures tokens == old(tokens) + [Tok(source, kind, literal, start, current, line, lineStart)]
    {
      var text := source[start..current];
      var column := current - lineStart;
      tokens := tokens + [Token(kind, text, literal, Position(line, lineStart, current, column), |text|)];
    }

    method Identifier()
      requires Valid()
      modifies this`current, this`tokens
      ensures Valid()
      ensures current == AlnumEnd(source, old(current))
      ensures tokens == old(tokens) + [Tok(source, IdentifierKind(source[start..current]), NoneLit, start, current, line, lineStart)]
    {
      while IsAlphaNumeric(Peek())
        invariant Valid()
        invariant AlnumEnd(source, current) == AlnumEnd(source, old(current))
        invariant tokens == old(tokens)
        decreases |source| - current
      {
        var _, _ := Advance();
      }
      var text := source[start..current];
      AddToken(IdentifierKind(text), NoneLit);
    }

    method Digits()
      requires Valid()
      modifies this`current
      ensures Valid()
      ensures current == DigitsEnd(source, old(current))
    {
      while IsDigit(Peek())
        invariant Valid()
        invariant DigitsEnd(source, current) == DigitsEnd(source, old(current))
        decreases |source| - current
      {
        var _, _ := Advance();
      }
    }

    method Number()
      requires Valid()
      modifies this`current, this`tokens
      ensures Valid()
      ensures current == NumberEnd(source, old(current))
      ensures tokens == old(tokens) + [Tok(source, NUMBER, NumLit(DecimalValue(source[start..current])), start, current, line, lineStart)]
    {
      Digits();
      if Peek() == '.' && IsDigit(PeekNext()) {
        var _, _ := Advance();
        Digits();
      }
      AddToken(NUMBER, NumLit(DecimalValue(source[start..current])));
    }

    /** A single-quoted string; the opening quote has been consumed. */
    method String()
      requires Valid() && start < current
      modifies this`current, this`tokens, errors
      ensures Reached(StringOutcome(source, start, old(current), line, lineStart), old(tokens), old(errors.log))
      ensures errors.hadError == (old(errors.hadError) || StringOutcome(source, start, old(current), line, lineStart).reports != [])
    {
      while Peek() != '\'' && !IsAtEnd()
        invariant Valid() && start < current
        invariant QuoteStop(source, current) == QuoteStop(source, old(current))
        invariant tokens == old(tokens) && errors.log == old(errors.log) && errors.hadError == old(errors.hadError)
        decreases |source| - current
      {
        if Peek() == '\n' || Peek() == ';' {
          errors.ScannerError(line, lineStart, start, current, UnterminatedString);
          return;
        }
        var _, _ := Advance();
      }
      if IsAtEnd() {
        errors.ScannerError(line, lineStart, start, current, NeverTerminatedString);
        return;
      }
      var _, _ := Advance();
      AddToken(STRING, StrLit(source[start + 1..current - 1]));
    }

    /** A double-quoted string, which may span lines; the opening quote has been consumed. */
    method MultilineString()
      requires Valid() && start < current
      modifies this`current, this`tokens, this`line, this`lineStart, errors
      ensures Reached(MultilineOutcome(source, start, old(current), old(line), old(lineStart)), old(tokens), old(errors.log))
      ensures errors.hadError == (old(errors.hadError) || MultilineOutcome(source, start, old(current), old(line), old(lineStart)).reports != [])
    {
      while Peek() != '"' && !IsAtEnd()
        invariant Valid() && start < current
        invariant MultilineWalk(source, current, line, lineStart) == MultilineWalk(source, old(current), old(line), old(lineStart))
        invariant tokens == old(tokens) && errors.log == old(errors.log) && errors.hadError == old(errors.hadError)
        decreases |source| - current
      {
        if Peek() == '\n' {
          line := line + 1;
          lineStart := current;
        }
        var _, _ := Advance();
      }
      if IsAtEnd() {
        errors.ScannerError(line, lineStart, start, current, UnterminatedMultiline);
        return;
      }
      var _, _ := Advance();
      AddToken(STRING, StrLit(source[start + 1..current - 1]));
    }

    /** The body of a block comment; `ok` is false when the step past its loop runs off the end. */
    method BlockComment() returns (ok: bool)
      requires Valid()
      modifies this`current, this`line, this`lineStart
      ensures ok == !BlockCommentOutcome(source, old(current), old(line), old(lineStart)).crashed
      ensures ok ==> Valid()
      ensures var o := BlockCommentOutcome(source, old(current), old(line), old(lineStart));
              current == o.current && line == o.line && lineStart == o.lineStart
    {
      while true
        invariant Valid()
        invariant CommentWalk(source, current, line, lineStart) == CommentWalk(source, old(current), old(line), old(lineStart))
        decreases |source| - current
      {
        var star := Match('*');
        if star || Peek() == '/' || IsAtEnd() {
          break;
        }
        if Peek() == '\n' {
          line := line + 1;
          lineStart := current;
        }
        var _, _ := Advance();
      }
      var _, stepped := Advance();
      ok := stepped;
    }

    /** A `//` comment: skips to the newline, which is left for the next step. */
    method LineComment()
      requires Valid()
      modifies this`current
      ensures Valid()
      ensures current == LineEnd(source, old(current))
    {
      while Peek() != '\n' && !IsAtEnd()
        invariant Valid()
        invariant LineEnd(source, current) == LineEnd(source, old(current))
        decreases |source| - current
      {
        var _, _ := Advance();
      }
    }

    /** An operator or punctuation token whose first character has been consumed. */
    method Operator(c: char)
      requires Valid() && start + 1 == current && c == source[start] && c in OperatorStarts
      modifies this`current, this`tokens
      ensures var (kind, width) := OperatorKind(c, CharAt(source, start + 1));
              current == start + width && tokens == old(tokens) + [Tok(source, kind, NoneLit, start, current, line, lineStart)]
    {
      if c in "+-" {
        SignOperator(c);
      } else if c in "<>" {
        AngleOperator(c);
      } else {
        ShortOperator(c);
      }
    }

    /** Punctuation, and the operators with at most one possible second character. */
    method ShortOperator(c: char)
      requires Valid() && start + 1 == current && c == source[start] && c in OperatorStarts && c !in "+-<>"
      modifies this`current, this`tokens
      ensures var (kind, width) := OperatorKind(c, CharAt(source, start + 1));
              current == start + width && tokens == old(tokens) + [Tok(source, kind, NoneLit, start, current, line, lineStart)]
    {
      match c
      case '(' => AddToken(LEFT_PAREN, NoneLit);
      case ')' => AddToken(RIGHT_PAREN, NoneLit);
      case '{' => AddToken(LEFT_BRACE, NoneLit);
      case '}' => AddToken(RIGHT_BRACE, NoneLit);
      case ',' => AddToken(COMMA, NoneLit);
      case '.' => AddToken(DOT, NoneLit);
      case ';' => AddToken(SEMICOLON, NoneLit);
      case '?' => AddToken(QUESTION_MARK, NoneLit);
      case '%' => AddToken(MODULO, NoneLit);
      case '*' =>
        var m := Match('=');
        AddToken(if m then STAR_ASSIGN else STAR, NoneLit);
      case '!' =>
        var m := Match('=');
        AddToken(if m then BANG_EQUAL else BANG, NoneLit);
      case '=' =>
        var m := Match('=');
        AddToken(if m then EQUAL_EQUAL else EQUAL, NoneLit);
      case _ =>
        var m := Match(':');
        AddToken(if m then DOUBLE_COLON else COLON, NoneLit);
    }

    /** The operators starting with `+` or `-`, which have several possible second characters. */
    method SignOperator(c: char)
      requires Valid() && start + 1 == current && c == source[start] && c in "+-"
      modifies this`current, this`tokens
      ensures var (kind, width) := OperatorKind(c, CharAt(source, start + 1));
              current == start + width && tokens == old(tokens) + [Tok(source, kind, NoneLit, start, current, line, lineStart)]
    {
      match c
      case '+' =>
        var m := Match('+');
        if m {
          AddToken(PLUS_PLUS, NoneLit);
        } else {
          m := Match('=');
          AddToken(if m then PLUS_ASSIGN else PLUS, NoneLit);
        }
      case _ =>
        var m := Match('-');
        if m {
          AddToken(MINUS_MINUS, NoneLit);
        } else {
          m := Match('=');
          if m {
            AddToken(MINUS_ASSIGN, NoneLit);
          } else {
            m := Match('>');
            AddToken(if m then RIGHT_ARROW else MINUS, NoneLit);
          }
        }
    }

    /** The operators starting with `<` or `>`, which have several possible second characters. */
    method AngleOperator(c: char)
      requires Valid() && start + 1 == current && c == source[start] && c in "<>"
      modifies this`current, this`tokens
      ensures var (kind, width) := OperatorKind(c, CharAt(source, start + 1));
              current == start + width && tokens == old(tokens) + [Tok(source, kind, NoneLit, start, current, line, lineStart)]
    {
      match c
      case '<' =>
        var m := Match('=');
        if m {
          AddToken(LESS_EQUAL, NoneLit);
        } else {
          m := Match('<');
          if m {
            AddToken(LEFT_SHIFT, NoneLit);
          } else {
            m := Match('-');
            AddToken(if m then LEFT_ARROW else LESS, NoneLit);
          }
        }
      case _ =>
        var m := Match('=');
        if m {
          AddToken(GREATER_EQUAL, NoneLit);
        } else {
          m := Match('>');
          AddToken(if m then RIGHT_SHIFT else GREATER, NoneLit);
        }
    }

    /** A `/` whose slash has been consumed: a comment, `/=` or `/`; `ok` is false when a block comment crashed. */
    method Slash() returns (ok: bool)
      requires Valid() && start + 1 == current && lineStart <= start && source[start] == '/'
      modifies this`current, this`tokens, this`line, this`lineStart
      ensures var o := SlashOutcome(source, start, old(line), old(lineStart));
              ok == !o.crashed && current == o.current && line == o.line && lineStart == o.lineStart &&
              tokens == old(tokens) + o.emitted
    {
      ok := true;
      var m := Match('/');
      if m {
        LineComment();
      } else {
        m := Match('*');
        if m {
          ok := BlockComment();
        } else {
          m := Match('=');
          AddToken(if m then SLASH_ASSIGN else SLASH, NoneLit);
        }
      }
    }

    /** One scanning step from `start == current`; `ok` is false when it crashed. */
    method ScanToken() returns (ok: bool)
      requires Valid() && start == current < |source|
      modifies this`current, this`tokens, this`line, this`lineStart, errors
      ensures var o := Step(source, old(current), old(line), old(lineStart));
              ok == !o.crashed && Reached(o, old(tokens), old(errors.log)) &&
              errors.hadError == (old(errors.hadError) || o.reports != [])
    {
      var c, _ := Advance();
      ok := true;
      if c in OperatorStarts {
        Operator(c);
      } else if c == '/' {
        ok := Slash();
      } else if c == '\'' || c == '"' {
        Quoted(c);
      } else if c == '\r' || c == '\t' || c == ' ' || c == '\n' {
        Blank(c);
      } else {
        Word(c);
      }
    }

    /** A string literal of either kind, whose opening quote `c` has been consumed. */
    method Quoted(c: char)
      requires Valid() && start + 1 == current && lineStart <= start && c == source[start]
      requires c == '\'' || c == '"'
      modifies this`current, this`tokens, this`line, this`lineStart, errors
      ensures var o := Step(source, start, old(line), old(lineStart));
              !o.crashed && Reached(o, old(tokens), old(errors.log)) &&
              errors.hadError == (old(errors.hadError) || o.reports != [])
    {
      QuotedStep(source, start, line, lineStart);
      if c == '\'' {
        String();
      } else {
        MultilineString();
      }
    }

    /** Whitespace: nothing is emitted, and a newline starts the next line. */
    method Blank(c: char)
      requires Valid() && start + 1 == current && lineStart <= start && c == source[start]
      requires c == '\r' || c == '\t' || c == ' ' || c == '\n'
      modifies this`line, this`lineStart
      ensures var o := Step(source, start, old(line), old(lineStart));
              !o.crashed && Reached(o, tokens, errors.log)
    {
      LayoutStep(source, start, line, lineStart);
      if c == '\n' {
        line := line + 1;
        lineStart := current;
      }
    }

    /** The last case of `ScanToken`: a number, a name, or a character that starts no token. */
    method Word(c: char)
      requires Valid() && start + 1 == current && lineStart <= start && c == source[start] && c !in OperatorStarts
      requires c != '/' && c != '\r' && c != '\t' && c != ' ' && c != '\n' && c != '\'' && c != '"'
      modifies this`current, this`tokens, errors
      ensures var o := Step(source, start, line, lineStart);
              !o.crashed && Reached(o, old(tokens), old(errors.log)) &&
              errors.hadError == (old(errors.hadError) || o.reports != [])
    {
      WordStep(source, start, line, lineStart);
      if IsDigit(c) {
        Number();
      } else if IsAlpha(c) {
        Identifier();
      } else {
        errors.ScannerError(line, lineStart, start, current, UnexpectedCharacter(c));
      }
    }

    /**
     * One step of the scanning loop, described by the whole scan from the
     * cursor: the tokens and reports it adds, followed by the scan from the
     * new cursor, make up the scan from the old one.
     */
    method ScanStep() returns (ok: bool, ghost emitted: seq<Token>, ghost reports: seq<Diagnostic>)
      requires Valid() && current < |source|
      modifies this`start, this`current, this`tokens, this`line, this`lineStart, errors
      ensures tokens == old(tokens) + emitted && errors.log == old(errors.log) + reports
      ensures errors.hadError == (old(errors.hadError) || reports != [])
      ensures var total := ScanFrom(source, old(current), old(line), old(lineStart));
              if ok then
                Valid() && old(current) < current &&
                var rest := ScanFrom(source, current, line, lineStart);
                total == Scanned(emitted + rest.tokens, reports + rest.reports, rest.crashed)
              else total == Scanned(emitted, reports, true) && emitted == [] && reports == []
    {
      ghost var o := Step(source, current, line, lineStart);
      ScanFromStep(source, current, line, lineStart);
      StepFacts(source, current, line, lineStart);
      start := current;
      ok := ScanToken();
      emitted, reports := o.emitted, o.reports;
    }

    /**
     * Scans from the cursor to the end and appends the EOF token; `ok` is
     * false when a step crashed, and then `result` means nothing.
     */
    method ScanTokens() returns (result: seq<Token>, ok: bool)
      requires Valid()
      modifies this, errors
      ensures var s := ScanFrom(source, old(current), old(line), old(lineStart));
              ok == !s.crashed && (ok ==> result == tokens == old(tokens) + s.tokens) &&
              errors.log == old(errors.log) + s.reports &&
              errors.hadError == (old(errors.hadError) || s.reports != [])
    {
      ghost var total := ScanFrom(source, current, line, lineStart);
      ghost var done: seq<Token> := [];
      ghost var said: seq<Diagnostic> := [];
      while !IsAtEnd()
        invariant Valid()
        invariant total == ScanFrom(source, old(current), old(line), old(lineStart))
        invariant tokens == old(tokens) + done && errors.log == old(errors.log) + said
        invariant errors.hadError == (old(errors.hadError) || said != [])
        invariant var rest := ScanFrom(source, current, line, lineStart);
                  total == Scanned(done + rest.tokens, said + rest.reports, rest.crashed)
        decreases |source| - current
      {
        var stepped, emitted, reports := ScanStep();
        if !stepped {
          result := tokens;
          ok := false;
          return;
        }
        ghost var rest := ScanFrom(source, current, line, lineStart);
        AppendAssoc(done, emitted, rest.tokens);
        AppendAssoc(said, reports, rest.reports);
        AppendAssoc(old(tokens), done, emitted);
        AppendAssoc(old(errors.log), said, reports);
        done := done + emitted;
        said := said + reports;
      }
      tokens := tokens + [EofToken(line, lineStart, current)];
      result := tokens;
      ok := true;
    }
  }
}
