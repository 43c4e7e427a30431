/** What the JSON scanner reads at an offset of a text: kind, extent, value and error of one token. */
module JsonLexemes {
  import opened LabSessions
  import opened TextDocuments

  datatype Kind =
    | OpenBrace | CloseBrace | OpenBracket | CloseBracket | Comma | Colon
    | NullKeyword | TrueKeyword | FalseKeyword | StringLiteral | NumericLiteral
    | LineComment | BlockComment | LineBreak | Trivia | Unknown | EndOfFile

  datatype ScanError =
    | NoError | EndOfComment | EndOfString | EndOfNumber | InvalidUnicode | InvalidEscape | InvalidCharacter

  datatype Lexeme = Lexeme(kind: Kind, start: nat, end: nat, value: Text, error: ScanError)

  const QUOTE: Code := 34
  const BACKSLASH: Code := 92
  const SLASH: Code := 47
  const STAR: Code := 42
  const MINUS: Code := 45
  const DOT: Code := 46

  /** The code unit at an offset; -1 stands for the NaN the source reads outside the text. */
  function CodeAt(t: Text, i: int): int {
    if 0 <= i < |t| then t[i] else -1
  }

  predicate IsBlank(c: int) {
    c == 32 || c == 9
  }

  predicate IsBreak(c: int) {
    c == 10 || c == 13
  }

  predicate IsDigit(c: int) {
    48 <= c <= 57
  }

  /** What may continue an unquoted word. */
  predicate IsWord(c: int) {
    !IsBlank(c) && !IsBreak(c) && c !in {125, 93, 123, 91, 34, 58, 44, 47}
  }

  predicate NotBreak(c: int) {
    !IsBreak(c)
  }

  // ---------------------------------------------------------------- runs of characters

  /** The end of the run of accepted characters starting at an offset. */
  function RunEnd(t: Text, i: nat, accepts: int -> bool): (e: nat)
    requires i <= |t|
    ensures i <= e <= |t|
    ensures e < |t| ==> !accepts(t[e])
    ensures forall j :: i <= j < e ==> accepts(t[j])
    decreases |t| - i
  {
    if i < |t| && accepts(t[i]) then RunEnd(t, i + 1, accepts) else i
  }

  lemma {:induction false} RunEndUnique(t: Text, i: nat, accepts: int -> bool, e: nat)
    requires i <= e <= |t| && (e < |t| ==> !accepts(t[e])) && forall j :: i <= j < e ==> accepts(t[j])
    ensures RunEnd(t, i, accepts) == e
    decreases e - i
  {
    if i < e {
      RunEndUnique(t, i + 1, accepts, e);
    }
  }

  // ---------------------------------------------------------------- string literals

  predicate IsHex(c: int) {
    48 <= c <= 57 || 65 <= c <= 70 || 97 <= c <= 102
  }

  function HexDigit(c: int): (v: nat)
    requires IsHex(c)
    ensures v < 16
  {
    if c <= 57 then c - 48 else if c <= 70 then c - 55 else c - 87
  }

  /** How many hexadecimal digits stand at an offset, four at most. */
  function HexRun(t: Text, i: nat, most: nat): (n: nat)
    requires i <= |t|
    ensures n <= most && i + n <= |t| && forall j :: i <= j < i + n ==> IsHex(t[j])
    ensures n < most ==> !IsHex(CodeAt(t, i + n))
    decreases most
  {
    if most == 0 || !IsHex(CodeAt(t, i)) then 0 else 1 + HexRun(t, i + 1, most - 1)
  }

  function HexValue(s: Text): nat
    requires forall j :: 0 <= j < |s| ==> IsHex(s[j])
  {
    if s == [] then 0 else 16 * HexValue(s[..|s| - 1]) + HexDigit(s[|s| - 1])
  }

  lemma {:induction false} HexValueBound(s: Text)
    requires |s| <= 4 && forall j :: 0 <= j < |s| ==> IsHex(s[j])
    ensures HexValue(s) < [1, 16, 256, 4096, 65536][|s|]
  {
    if s != [] {
      HexValueBound(s[..|s| - 1]);
    }
  }

  /** What a scan of a part of a literal yields. */
  datatype Part = Part(value: Text, end: nat, error: ScanError)

  /** The escape sequence whose letter stands at an offset. */
  function Escape(t: Text, i: nat): (p: Part)
    requires i < |t|
    ensures i < p.end <= |t|
  {
    match t[i]
    case 34 => Part([34], i + 1, NoError)
    case 92 => Part([92], i + 1, NoError)
    case 47 => Part([47], i + 1, NoError)
    case 98 => Part([8], i + 1, NoError)
    case 102 => Part([12], i + 1, NoError)
    case 110 => Part([10], i + 1, NoError)
    case 114 => Part([13], i + 1, NoError)
    case 116 => Part([9], i + 1, NoError)
    case 117 => Unicode(t, i + 1)
    case _ => Part([], i + 1, InvalidEscape)
  }

  function Unicode(t: Text, i: nat): (p: Part)
    requires i <= |t|
    ensures i <= p.end <= |t|
  {
    var n := HexRun(t, i, 4);
    HexValueBound(t[i..i + n]);
    if n == 4 then Part([HexValue(t[i..i + 4])], i + 4, NoError) else Part([], i + n, InvalidUnicode)
  }

  /** The later of two errors. */
  function Latest(first: ScanError, later: ScanError): ScanError {
    if later == NoError then first else later
  }

  /** A string literal from inside its quotes on: it runs to its quote, a line break or the end of the text. */
  function Literal(t: Text, i: nat): (p: Part)
    requires i <= |t|
    ensures i <= p.end <= |t|
    ensures i < |t| && !IsBreak(t[i]) ==> i < p.end
    decreases |t| - i
  {
    if i == |t| then Part([], i, EndOfString)
    else if t[i] == QUOTE then Part([], i + 1, NoError)
    else if t[i] == BACKSLASH then
      if i + 1 == |t| then Part([], i + 1, EndOfString)
      else
        var e := Escape(t, i + 1);
        var r := Literal(t, e.end);
        Part(e.value + r.value, r.end, Latest(e.error, r.error))
    else if IsBreak(t[i]) then Part([], i, EndOfString)
    else
      var r := Literal(t, i + 1);
      Part([t[i]] + r.value, r.end, Latest(if t[i] < 32 then InvalidCharacter else NoError, r.error))
  }

  // ---------------------------------------------------------------- numbers

  /** A number from its first digit on. */
  function Number(t: Text, i: nat): (p: Part)
    requires i < |t| && IsDigit(t[i])
    ensures i < p.end <= |t|
  {
    var a := if t[i] == 48 then i + 1 else RunEnd(t, i + 1, IsDigit);
    if CodeAt(t, a) != DOT as int then Exponent(t, i, a)
    else if IsDigit(CodeAt(t, a + 1)) then Exponent(t, i, RunEnd(t, a + 2, IsDigit))
    else Part(t[i..a + 1], a + 1, EndOfNumber)
  }

  predicate IsExponent(c: int) {
    c == 69 || c == 101
  }

  predicate IsSign(c: int) {
    c == 43 || c == 45
  }

  /** The exponent of a number started at i, if one stands at a. */
  function Exponent(t: Text, i: nat, a: nat): (p: Part)
    requires i <= a <= |t|
    ensures a <= p.end <= |t|
    ensures p.error == NoError ==> p.value == t[i..p.end]
  {
    if !IsExponent(CodeAt(t, a)) then Part(t[i..a], a, NoError)
    else
      var b := if IsSign(CodeAt(t, a + 1)) then a + 2 else a + 1;
      if IsDigit(CodeAt(t, b)) then
        var e := RunEnd(t, b + 1, IsDigit);
        Part(t[i..e], e, NoError)
      else Part(t[i..a], b, EndOfNumber)
  }

  // ---------------------------------------------------------------- comments

  predicate Closes(t: Text, i: int) {
    CodeAt(t, i) == STAR && CodeAt(t, i + 1) == SLASH
  }

  /** The first offset from i on at which a block comment is closed, or the length of the text. */
  function Closing(t: Text, i: nat): (e: nat)
    requires i <= |t|
    ensures i <= e <= |t| && (e < |t| ==> Closes(t, e)) && forall j :: i <= j < e ==> !Closes(t, j)
    decreases |t| - i
  {
    if i == |t| || Closes(t, i) then i else Closing(t, i + 1)
  }

  /** Where an unterminated comment leaves the scanner: at the end of the text, sometimes one past it. */
  function Overshoot(t: Text, i: nat): nat
    requires i <= |t|
  {
    if i == |t| || (|t| - 2 >= i && t[|t| - 2] == CR && t[|t| - 1] == LF) then |t| + 1 else |t|
  }

  // ---------------------------------------------------------------- tokens

  function Punctuation(c: int): Option<Kind> {
    match c
    case 123 => Some(OpenBrace)
    case 125 => Some(CloseBrace)
    case 91 => Some(OpenBracket)
    case 93 => Some(CloseBracket)
    case 58 => Some(Colon)
    case 44 => Some(Comma)
    case _ => None
  }

  const TRUE: Text := [116, 114, 117, 101]
  const FALSE: Text := [102, 97, 108, 115, 101]
  const NULL: Text := [110, 117, 108, 108]

  function WordKind(w: Text): Kind {
    if w == TRUE then TrueKeyword else if w == FALSE then FalseKeyword else if w == NULL then NullKeyword else Unknown
  }

  /** The text of a comment at i. The source starts it one character early, when there is one. */
  function CommentText(t: Text, i: nat, e: nat): Text
    requires i <= e && i <= |t|
  {
    t[Clamp(i - 1, |t|)..Clamp(e, |t|)]
  }

  function Comment(t: Text, i: nat): Lexeme
    requires i < |t|
  {
    if CodeAt(t, i + 1) == SLASH then
      var e := RunEnd(t, i + 2, NotBreak);
      Lexeme(LineComment, i, e, CommentText(t, i, e), NoError)
    else if CodeAt(t, i + 1) == STAR then
      var k := Closing(t, i + 2);
      if k < |t| then Lexeme(BlockComment, i, k + 2, CommentText(t, i, k + 2), NoError)
      else
        var e := Overshoot(t, i + 2);
        Lexeme(BlockComment, i, e, CommentText(t, i, e), EndOfComment)
    else Lexeme(Unknown, i, i + 1, [t[i]], NoError)
  }

  /** The token at an offset. */
  function Lex(t: Text, i: nat): Lexeme {
    if i >= |t| then Lexeme(EndOfFile, |t|, i, [], NoError)
    else
      var c := t[i];
      if IsBlank(c) then
        var e := RunEnd(t, i, IsBlank);
        Lexeme(Trivia, i, e, t[i..e], NoError)
      else if IsBreak(c) then
        var e := if c == CR && CodeAt(t, i + 1) == LF then i + 2 else i + 1;
        Lexeme(LineBreak, i, e, t[i..e], NoError)
      else if Punctuation(c).Some? then Lexeme(Punctuation(c).value, i, i + 1, [], NoError)
      else if c == QUOTE then
        var p := Literal(t, i + 1);
        Lexeme(StringLiteral, i, p.end, p.value, p.error)
      else if c == SLASH then Comment(t, i)
      else if c == MINUS then
        if IsDigit(CodeAt(t, i + 1)) then
          var p := Number(t, i + 1);
          Lexeme(NumericLiteral, i, p.end, [MINUS] + p.value, p.error)
        else Lexeme(Unknown, i, i + 1, [MINUS], NoError)
      else if IsDigit(c) then
        var p := Number(t, i);
        Lexeme(NumericLiteral, i, p.end, p.value, p.error)
      else
        var e := RunEnd(t, i, IsWord);
        Lexeme(WordKind(t[i..e]), i, e, t[i..e], NoError)
  }

  // ---------------------------------------------------------------- progress

  /** Every token before the end of the text starts where the scan starts and takes at least a character. */
  lemma Advances(t: Text, i: nat)
    requires i < |t|
    ensures var x := Lex(t, i);
            && x.kind != EndOfFile && x.start == i < x.end
            && (x.end <= |t| || (x.end == |t| + 1 && x.kind == BlockComment && x.error == EndOfComment))
  {
    hide RunEnd, Literal, Number, Closing;
  }

  /** All tokens from an offset on, the end of the text excluded. */
  function Lexemes(t: Text, i: nat): seq<Lexeme>
    decreases |t| - i
  {
    if i >= |t| then []
    else
      Advances(t, i);
      [Lex(t, i)] + Lexemes(t, Lex(t, i).end)
  }

  /** The tokens cover the text without gap or overlap: each starts where the one before it ends. */
  lemma {:induction false} Tiles(t: Text, i: nat)
    requires i < |t|
    ensures var r := Lexemes(t, i);
            && |r| > 0 && r[0].start == i && |t| <= r[|r| - 1].end <= |t| + 1
            && (forall k :: 0 <= k < |r| ==> r[k].start < |t| && r[k].start < r[k].end)
            && (forall k :: 0 <= k < |r| - 1 ==> r[k].end == r[k + 1].start)
            && (forall k :: 0 <= k < |r| ==> r[k] == Lex(t, r[k].start))
    decreases |t| - i
  {
    hide Lex;
    Advances(t, i);
    var x := Lex(t, i);
    var rest := Lexemes(t, x.end);
    assert Lexemes(t, i) == [x] + rest;
    if x.end < |t| {
      hide Lexemes;
      Tiles(t, x.end);
    } else {
      assert rest == [];
    }
  }
}
