/** The JSON scanner object: a position moving over a text, with the token last read. */
module JsonScanners {
  import opened TextDocuments
  import opened JsonLexemes
  import JsonGrammar

  // ---------------------------------------------------------------- line numbers

  /** Line `line` is the one n lies on, and it starts at `start`. */
  ghost predicate OnLine(t: Text, n: int, line: nat, start: nat) {
    && start <= n && (start == 0 || LineStart(t, start)) && line == |StartsBefore(t, start)|
    && forall k :: start < k <= n ==> !LineStart(t, k)
  }

  /** A character that ends a line; the CR of a CR LF does not. */
  predicate EndsLine(t: Text, k: nat)
    requires k < |t|
  {
    t[k] == LF || (t[k] == CR && CodeAt(t, k + 1) != LF as int)
  }

  /** A string literal, not the last thing in the text, that holds the end of a line: an escaped one. */
  predicate SwallowsBreak(t: Text, i: nat)
    requires i < |t|
  {
    var x := Lex(t, i);
    x.kind == StringLiteral && x.end < |t| && exists k :: i < k < x.end && EndsLine(t, k)
  }

  /** The place is the position of n. */
  ghost predicate Fits(t: Text, n: nat, p: Place) {
    p.start <= n && PositionFits(t, n, Position(p.line, n - p.start))
  }

  lemma {:induction false} StartsFlat(t: Text, a: nat, b: nat)
    requires a <= b && forall k :: a <= k < b ==> !LineStart(t, k)
    ensures StartsBefore(t, b) == StartsBefore(t, a)
    decreases b
  {
    if a < b {
      StartsFlat(t, a, b - 1);
    }
  }

  /** A count of lines and the start of the last one. */
  datatype Place = Place(line: nat, start: nat)

  /** The count carried over a part of the text in which the end of every line is seen. */
  function Passed(t: Text, n: nat, m: nat, p: Place): Place
    requires n <= m <= |t|
    decreases m
  {
    if n == m then p
    else if EndsLine(t, m - 1) then Place(Passed(t, n, m - 1, p).line + 1, m)
    else Passed(t, n, m - 1, p)
  }

  lemma {:induction false} PassedOnLine(t: Text, n: nat, m: nat, p: Place)
    requires n <= m <= |t| && t != [] && OnLine(t, n, p.line, p.start)
    ensures OnLine(t, m, Passed(t, n, m, p).line, Passed(t, n, m, p).start)
    decreases m
  {
    if n < m {
      hide OnLine;
      PassedOnLine(t, n, m - 1, p);
      OnLineStep(t, m - 1, Passed(t, n, m - 1, p));
    }
  }

  lemma OnLineStep(t: Text, n: nat, p: Place)
    requires n < |t| && OnLine(t, n, p.line, p.start)
    ensures if EndsLine(t, n) then OnLine(t, n + 1, p.line + 1, n + 1) else OnLine(t, n + 1, p.line, p.start)
  {
    if EndsLine(t, n) {
      assert LineStart(t, n + 1) && LineStart(t, p.start);
      StartsFlat(t, p.start + 1, n + 1);
      assert StartsBefore(t, p.start + 1) == StartsBefore(t, p.start) + [p.start];
    }
  }

  /** A place on a line is the position of its offset. */
  lemma OnLinePosition(t: Text, n: nat, line: nat, start: nat)
    requires OnLine(t, n, line, start) && n < |t|
    ensures Fits(t, n, Place(line, start))
  {
    var r := LineOffsets(t);
    StartsPrefix(t, start + 1, |t| + 1);
    assert LineStart(t, start);
    assert r[line] == start;
    OffsetsExact(t);
    if line + 1 < |r| {
      assert r[line] < r[line + 1] && LineStart(t, r[line + 1]);
    }
  }

  /** A literal that escapes a line break leaves the count of lines behind. */
  lemma EscapedBreakMiscounts()
    ensures var t: Text := [QUOTE, BACKSLASH, LF, QUOTE, MINUS];
            && Lex(t, 0).kind == StringLiteral && Lex(t, 0).end == 4
            && OnLine(t, 0, 0, 0) && !OnLine(t, 4, 0, 0) && OnLine(t, 4, 1, 3)
  {
    var t: Text := [QUOTE, BACKSLASH, LF, QUOTE, MINUS];
    assert Literal(t, 3).end == 4;
    assert Escape(t, 2).end == 3;
    assert LineStart(t, 3) && LineStart(t, 0) && !LineStart(t, 1) && !LineStart(t, 2);
    assert StartsBefore(t, 1) == [0];
    assert StartsBefore(t, 2) == [0];
    assert StartsBefore(t, 3) == [0];
  }

  /** Of the tokens that are not line breaks or block comments, only string literals can hold a line break. */
  lemma LexFlat(t: Text, i: nat, k: nat)
    requires i < |t| && Lex(t, i).kind !in {LineBreak, BlockComment, StringLiteral} && i <= k < Lex(t, i).end
    ensures k < |t| && !IsBreak(t[k])
  {
    hide Literal, Number;
    Advances(t, i);
    if IsDigit(t[i]) {
      NumberFlat(t, i, k);
    } else if t[i] == MINUS && IsDigit(CodeAt(t, i + 1)) && i < k {
      NumberFlat(t, i + 1, k);
    }
  }

  /** The scanner counts lines at line breaks and in block comments only. */
  function After(t: Text, x: Lexeme, p: Place): Place
    requires x.start <= x.end < |t|
  {
    if x.kind == LineBreak || x.kind == BlockComment then Passed(t, x.start, x.end, p) else p
  }

  /** After any token its count stays right exactly when the token is no literal that swallows a break. */
  lemma CountAfter(t: Text, i: nat, p: Place)
    requires i < |t| && OnLine(t, i, p.line, p.start) && Lex(t, i).end < |t|
    ensures Lex(t, i).start == i < Lex(t, i).end
    ensures var q := After(t, Lex(t, i), p); OnLine(t, Lex(t, i).end, q.line, q.start) <==> !SwallowsBreak(t, i)
  {
    hide Lex, Passed;
    Advances(t, i);
    var e := Lex(t, i).end;
    if Lex(t, i).kind in {LineBreak, BlockComment} {
      PassedOnLine(t, i, e, p);
    } else if SwallowsBreak(t, i) {
      var k :| i < k < e && EndsLine(t, k);
      assert LineStart(t, k + 1);
    } else {
      forall k | i < k <= e
        ensures !LineStart(t, k)
      {
        if Lex(t, i).kind != StringLiteral {
          LexFlat(t, i, k - 1);
        } else if k - 1 == i {
          StringStarts(t, i);
        } else {
          assert !EndsLine(t, k - 1);
        }
      }
    }
  }

  lemma StringStarts(t: Text, i: nat)
    requires i < |t| && Lex(t, i).kind == StringLiteral
    ensures t[i] == QUOTE
  {
    hide RunEnd, Number, Literal;
  }

  lemma NumberFlat(t: Text, i: nat, k: nat)
    requires i < |t| && IsDigit(t[i]) && i <= k < Number(t, i).end
    ensures !IsBreak(t[k])
  {
    hide Exponent, RunEnd;
    var a := if t[i] == 48 then i + 1 else RunEnd(t, i + 1, IsDigit);
    var b := if CodeAt(t, a) == DOT as int && IsDigit(CodeAt(t, a + 1)) then RunEnd(t, a + 2, IsDigit) else a;
    if k >= b && (CodeAt(t, a) != DOT as int || IsDigit(CodeAt(t, a + 1))) {
      ExponentFlat(t, i, b, k);
    }
  }

  lemma ExponentFlat(t: Text, i: nat, a: nat, k: nat)
    requires i <= a <= |t| && a <= k < Exponent(t, i, a).end
    ensures !IsBreak(t[k])
  {
    hide RunEnd;
  }

  // ---------------------------------------------------------------- the whole text

  /** The count the scanner carries when it has read some tokens from the start of the text. */
  function Counted(t: Text, xs: seq<Lexeme>): Place
    requires forall k :: 0 <= k < |xs| ==> xs[k].start <= xs[k].end < |t|
  {
    if xs == [] then Place(0, 0) else After(t, xs[|xs| - 1], Counted(t, xs[..|xs| - 1]))
  }

  /** Fewer lines counted than begin up to an offset. */
  predicate Behind(t: Text, n: nat, p: Place) {
    p.line + 1 < |StartsBefore(t, n + 1)|
  }

  lemma {:induction false} PassedStarts(t: Text, n: nat, m: nat, p: Place)
    requires n <= m <= |t|
    ensures Passed(t, n, m, p).line - p.line == |StartsBefore(t, m + 1)| - |StartsBefore(t, n + 1)|
    decreases m
  {
    if n < m {
      PassedStarts(t, n, m - 1, p);
      assert LineStart(t, m) <==> EndsLine(t, m - 1);
    }
  }

  /** A count once behind stays behind: no token makes it catch up. */
  lemma BehindStays(t: Text, x: Lexeme, p: Place)
    requires x.start <= x.end < |t| && Behind(t, x.start, p)
    ensures Behind(t, x.end, After(t, x, p))
  {
    hide Passed, StartsBefore;
    PassedStarts(t, x.start, x.end, p);
    StartsPrefix(t, x.start + 1, x.end + 1);
  }

  /** A literal that swallows a break puts it behind. */
  lemma FallsBehind(t: Text, i: nat, p: Place)
    requires i < |t| && OnLine(t, i, p.line, p.start) && SwallowsBreak(t, i)
    ensures Behind(t, Lex(t, i).end, p)
  {
    hide Lex, OnLine, EndsLine, StartsBefore;
    var e := Lex(t, i).end;
    var k :| i < k < e && EndsLine(t, k);
    LineCounts(t, i, p);
    BreakCounts(t, k);
    StartsPrefix(t, p.start + 1, k + 1);
    StartsPrefix(t, k + 2, e + 1);
  }

  lemma LineCounts(t: Text, i: nat, p: Place)
    requires i < |t| && OnLine(t, i, p.line, p.start)
    ensures p.start <= i && |StartsBefore(t, p.start + 1)| == p.line + 1
  {
    assert LineStart(t, p.start);
  }

  lemma BreakCounts(t: Text, k: nat)
    requires k < |t| && EndsLine(t, k)
    ensures |StartsBefore(t, k + 2)| == |StartsBefore(t, k + 1)| + 1
  {
    assert LineStart(t, k + 1);
  }

  lemma BehindNeverFits(t: Text, n: nat, p: Place)
    requires n < |t| && Behind(t, n, p)
    ensures !Fits(t, n, p)
  {
    StartsExact(t, n + 1);
    StartsPrefix(t, n + 1, |t| + 1);
    var s, r := StartsBefore(t, n + 1), LineOffsets(t);
    assert s[p.line + 1] == r[p.line + 1] && s[p.line + 1] in s;
  }

  lemma Earlier(t: Text, m: nat)
    requires m < |Lexemes(t, 0)|
    ensures var xs := Lexemes(t, 0);
            && t != [] && xs[0].start == 0 && xs[m].start < |t|
            && (forall k :: 0 <= k < m ==> xs[k].start < xs[k].end < |t| && xs[k] == Lex(t, xs[k].start))
            && (m > 0 ==> xs[m - 1].end == xs[m].start)
  {
    hide Lex;
    assert t != [];
    hide Lexemes;
    Tiles(t, 0);
    var xs := Lexemes(t, 0);
    forall k | 0 <= k < m
      ensures xs[k].end < |t|
    {
      assert xs[k].end == xs[k + 1].start;
    }
  }

  /** Some token of those read is a literal that swallows a break. */
  predicate Swallowed(t: Text, xs: seq<Lexeme>)
    requires forall k :: 0 <= k < |xs| ==> xs[k].start < |t|
  {
    exists k :: 0 <= k < |xs| && SwallowsBreak(t, xs[k].start)
  }

  /** The count is right, or it has fallen behind. */
  ghost predicate Tracks(t: Text, n: nat, p: Place, behind: bool) {
    if behind then Behind(t, n, p) else OnLine(t, n, p.line, p.start)
  }

  lemma TracksOn(t: Text, x: Lexeme, p: Place, behind: bool)
    requires x.start < x.end < |t| && x == Lex(t, x.start) && Tracks(t, x.start, p, behind)
    ensures Tracks(t, x.end, After(t, x, p), behind || SwallowsBreak(t, x.start))
  {
    hide Lex, OnLine, SwallowsBreak, Behind, After;
    if behind {
      BehindStays(t, x, p);
    } else {
      CountAfter(t, x.start, p);
      if SwallowsBreak(t, x.start) {
        FallsBehind(t, x.start, p);
        StringsCountNothing(t, x, p);
      }
    }
  }

  /** The count before token m is right when no token before it swallows a break, and behind otherwise. */
  lemma {:induction false} CountBefore(t: Text, m: nat)
    requires m < |Lexemes(t, 0)|
    ensures var xs := Lexemes(t, 0)[..m];
            && (forall k :: 0 <= k < m ==> xs[k].start < xs[k].end < |t|)
            && Tracks(t, Lexemes(t, 0)[m].start, Counted(t, xs), Swallowed(t, xs))
  {
    hide Lexemes, Lex, Tracks, SwallowsBreak, After;
    Earlier(t, m);
    var xs := Lexemes(t, 0);
    if m == 0 {
      OnLineStart(t);
    } else {
      Earlier(t, m - 1);
      CountBefore(t, m - 1);
      assert xs[..m][..m - 1] == xs[..m - 1];
      TracksOn(t, xs[m - 1], Counted(t, xs[..m - 1]), Swallowed(t, xs[..m - 1]));
      assert forall k :: 0 <= k < m - 1 ==> xs[..m][k] == xs[..m - 1][k];
    }
  }

  lemma OnLineStart(t: Text)
    requires t != []
    ensures Tracks(t, 0, Place(0, 0), false)
  {
  }

  lemma StringsCountNothing(t: Text, x: Lexeme, p: Place)
    requires x.start < x.end < |t| && x == Lex(t, x.start) && SwallowsBreak(t, x.start)
    ensures After(t, x, p) == p
  {
    hide Lex;
  }

  /** In every text, the place recorded for a token is the position of its offset exactly when no token before it is
      a literal that swallows a break. */
  lemma PlacedRightIff(t: Text, m: nat)
    requires m < |Lexemes(t, 0)|
    ensures var xs := Lexemes(t, 0)[..m];
            && (forall k :: 0 <= k < m ==> xs[k].start < xs[k].end < |t|)
            && (Fits(t, Lexemes(t, 0)[m].start, Counted(t, xs)) <==>
                forall k :: 0 <= k < m ==> !SwallowsBreak(t, xs[k].start))
  {
    hide Lexemes, OnLine, SwallowsBreak, Behind, Fits, Counted;
    Earlier(t, m);
    CountBefore(t, m);
    var n, p := Lexemes(t, 0)[m].start, Counted(t, Lexemes(t, 0)[..m]);
    if Swallowed(t, Lexemes(t, 0)[..m]) {
      BehindNeverFits(t, n, p);
    } else {
      OnLinePosition(t, n, p.line, p.start);
    }
  }

  // ---------------------------------------------------------------- the scanner

  /** Which character is which structural token, and none of the others one (RFC 8259, section 2). */
  predicate Punctuates(ch: int, k: Kind) {
    && (k == OpenBrace <==> ch == '{' as int) && (k == CloseBrace <==> ch == '}' as int)
    && (k == OpenBracket <==> ch == '[' as int) && (k == CloseBracket <==> ch == ']' as int)
    && (k == Colon <==> ch == ':' as int) && (k == Comma <==> ch == ',' as int)
  }

  class Scanner {
    const text: Text
    var pos: nat
    var value: Text
    var tokenOffset: nat
    var token: Kind
    var lineNumber: nat
    var tokenStartLine: nat
    var lineStartOffset: nat
    var prevTokenLineStart: nat
    var scanError: ScanError

    constructor (text: Text)
      ensures this.text == text && pos == 0 && lineNumber == 0 && lineStartOffset == 0
    {
      this.text := text;
      pos, value, tokenOffset, token := 0, [], 0, Unknown;
      lineNumber, tokenStartLine, lineStartOffset, prevTokenLineStart := 0, 0, 0, 0;
      scanError := NoError;
    }

    /** The line count is right for the current position. */
    ghost predicate Located()
      reads this
    {
      pos < |text| ==> OnLine(text, pos, lineNumber, lineStartOffset)
    }

    /** The line count and the start of the line, as a value. */
    function Reached(): Place
      reads this
    {
      Place(lineNumber, lineStartOffset)
    }

    /** The token last read, as a value. */
    function Current(): Lexeme
      reads this
    {
      Lexeme(token, tokenOffset, pos, value, scanError)
    }

    static method DigitValue(ch: int) returns (d: int)
      requires IsHex(ch)
      ensures d == HexDigit(ch)
    {
      if 48 <= ch <= 57 {
        d := ch - 48;
      } else if 65 <= ch <= 70 {
        d := ch - 65 + 10;
      } else {
        d := ch - 97 + 10;
      }
    }

    /** Reads hexadecimal digits, as many as asked for; -1 when there are fewer. */
    method ScanHexDigits(count: nat) returns (r: int)
      requires count <= 4 && pos <= |text|
      modifies this`pos
      ensures pos == old(pos) + HexRun(text, old(pos), count)
      ensures r == if pos == old(pos) + count then HexValue(text[old(pos)..pos]) else -1
    {
      hide HexValue, HexRun, IsHex, HexDigit;
      var digits, v := 0, 0;
      ghost var from := pos;
      NoHex(text, from);
      while digits < count
        invariant digits <= count && pos == from + digits <= |text|
        invariant forall j :: from <= j < pos ==> IsHex(text[j])
        invariant v == HexValue(text[from..pos])
        invariant HexRun(text, from, count) == digits + HexRun(text, pos, count - digits)
      {
        var ch := CodeAt(text, pos);
        HexStop(text, pos, count - digits);
        if !IsHex(ch) {
          break;
        }
        var d := DigitValue(ch);
        HexStep(text, from, pos, count - digits);
        v := v * 16 + d;
        pos, digits := pos + 1, digits + 1;
      }
      if digits < count {
        v := -1;
      } else {
        HexStop(text, pos, 0);
      }
      r := v;
    }

    /** The digits at the current position. */
    method SkipDigits()
      requires pos <= |text|
      modifies this`pos
      ensures pos == RunEnd(text, old(pos), IsDigit)
    {
      while pos < |text| && IsDigit(CodeAt(text, pos))
        invariant pos <= |text| && RunEnd(text, pos, IsDigit) == RunEnd(text, old(pos), IsDigit)
      {
        pos := pos + 1;
      }
    }

    method ScanNumber() returns (r: Text)
      requires pos < |text| && IsDigit(text[pos]) && scanError == NoError
      modifies this`pos, this`scanError
      ensures Part(r, pos, scanError) == Number(text, old(pos))
    {
      hide RunEnd, Exponent, Number;
      NumberGoes(text, pos);
      var start := pos;
      if CodeAt(text, pos) == 48 {
        pos := pos + 1;
      } else {
        pos := pos + 1;
        SkipDigits();
      }
      if pos < |text| && CodeAt(text, pos) == DOT as int {
        pos := pos + 1;
        if pos < |text| && IsDigit(CodeAt(text, pos)) {
          pos := pos + 1;
          SkipDigits();
        } else {
          scanError := EndOfNumber;
          return text[start..pos];
        }
      }
      r := ScanExponent(start);
    }

    method ScanExponent(start: nat) returns (r: Text)
      requires start <= pos <= |text| && scanError == NoError
      modifies this`pos, this`scanError
      ensures Part(r, pos, scanError) == Exponent(text, start, old(pos))
    {
      var end := pos;
      if pos < |text| && (CodeAt(text, pos) == 69 || CodeAt(text, pos) == 101) {
        pos := pos + 1;
        if pos < |text| && (CodeAt(text, pos) == 43 || CodeAt(text, pos) == 45) {
          pos := pos + 1;
        }
        if pos < |text| && IsDigit(CodeAt(text, pos)) {
          pos := pos + 1;
          SkipDigits();
          end := pos;
        } else {
          scanError := EndOfNumber;
        }
      }
      r := text[start..end];
    }

    /** The letter of an escape sequence, and what follows it. */
    method ScanEscape() returns (r: Text)
      requires pos < |text|
      modifies this`pos, this`scanError
      ensures var p := Escape(text, old(pos));
              Part(r, pos, scanError) == p.(error := Latest(old(scanError), p.error))
    {
      r := [];
      var ch := CodeAt(text, pos);
      pos := pos + 1;
      match ch
      case 34 => r := [34];
      case 92 => r := [92];
      case 47 => r := [47];
      case 98 => r := [8];
      case 102 => r := [12];
      case 110 => r := [10];
      case 114 => r := [13];
      case 116 => r := [9];
      case 117 =>
        var from := pos;
        var code := ScanHexDigits(4);
        if code >= 0 {
          HexValueBound(text[from..pos]);
          r := [code];
        } else {
          scanError := InvalidUnicode;
        }
      case _ => scanError := InvalidEscape;
    }

    /** A string literal from inside its quotes on. */
    method ScanString() returns (r: Text)
      requires pos <= |text|
      modifies this`pos, this`scanError
      ensures var p := Literal(text, old(pos));
              Part(r, pos, scanError) == p.(error := Latest(old(scanError), p.error))
    {
      hide Literal, Escape, ReadsAs;
      r := [];
      var start: nat := pos;
      ReadsStart(text, pos, scanError);
      assert r + text[start..pos] == [];
      while true
        invariant start <= pos <= |text|
        invariant ReadsAs(text, old(pos), r + text[start..pos], pos, old(scanError), scanError)
        decreases |text| - pos
      {
        LiteralStep(text, old(pos), r + text[start..pos], pos, old(scanError), scanError);
        ghost var read := r + text[start..pos];
        if pos >= |text| {
          r := r + text[start..pos];
          scanError := EndOfString;
          break;
        }
        var ch := CodeAt(text, pos);
        if ch == QUOTE {
          r := r + text[start..pos];
          pos := pos + 1;
          break;
        }
        if ch == BACKSLASH {
          r := r + text[start..pos];
          pos := pos + 1;
          if pos >= |text| {
            scanError := EndOfString;
            break;
          }
          var c := ScanEscape();
          r := r + c;
          start := pos;
          assert r + text[start..pos] == r;
          continue;
        }
        if 0 <= ch <= 31 {
          if IsBreak(ch) {
            r := r + text[start..pos];
            scanError := EndOfString;
            break;
          } else {
            scanError := InvalidCharacter;
          }
        }
        pos := pos + 1;
        assert r + text[start..pos] == read + [text[pos - 1]];
      }
    }

    /** A run of blanks, collected one by one. */
    method ScanBlanks()
      requires pos < |text| && IsBlank(text[pos]) && value == [] && tokenOffset == pos && scanError == NoError
      modifies this`pos, this`value, this`token
      ensures Current() == Lex(text, old(pos))
    {
      ghost var from := pos;
      var ch := CodeAt(text, pos);
      while IsBlank(ch)
        invariant from <= pos <= |text| && ch == CodeAt(text, pos) && (pos == from ==> IsBlank(ch))
        invariant RunEnd(text, pos, IsBlank) == RunEnd(text, from, IsBlank)
        invariant value == text[from..pos]
        decreases |text| - pos
      {
        value := value + [ch];
        pos := pos + 1;
        ch := CodeAt(text, pos);
      }
      token := Trivia;
    }

    method ScanLineBreak()
      requires pos < |text| && IsBreak(text[pos]) && value == [] && tokenOffset == pos && scanError == NoError
      modifies this`pos, this`value, this`token, this`lineNumber, this`lineStartOffset
      ensures Current() == Lex(text, old(pos)) && token == LineBreak
      ensures pos <= |text| && Reached() == Passed(text, old(pos), pos, old(Reached()))
    {
      ghost var from := pos;
      var ch: Code := text[pos];
      SliceShort(text, from);
      PassedNone(text, from, Reached());
      PassedStep(text, from, from, Reached());
      pos := pos + 1;
      value := value + [ch];
      if ch == CR && CodeAt(text, pos) == LF as int {
        pos := pos + 1;
        value := value + [LF];
      }
      assert value == text[from..pos];
      lineNumber := lineNumber + 1;
      lineStartOffset := pos;
      token := LineBreak;
    }

    /** A line comment, whose slashes stand at the current position. */
    method ScanLineComment()
      requires CodeAt(text, pos) == CodeAt(text, pos + 1) == SLASH
      requires tokenOffset == pos && scanError == NoError
      modifies this`pos, this`value, this`token
      ensures Current() == Comment(text, old(pos))
    {
      ghost var from := pos;
      var commentStart := pos - 1;
      pos := pos + 2;
      while pos < |text| && !IsBreak(CodeAt(text, pos))
        invariant from + 2 <= pos <= |text| && RunEnd(text, pos, NotBreak) == RunEnd(text, from + 2, NotBreak)
      {
        pos := pos + 1;
      }
      value := text[Clamp(commentStart, |text|)..Clamp(pos, |text|)];
      token := LineComment;
    }

    /** A block comment, which may run over several lines. */
    method ScanBlockComment()
      requires CodeAt(text, pos) == SLASH && CodeAt(text, pos + 1) == STAR
      requires tokenOffset == pos && scanError == NoError
      modifies this`pos, this`value, this`token, this`scanError, this`lineNumber, this`lineStartOffset
      ensures Current() == Lex(text, old(pos)) && token == BlockComment
      ensures pos < |text| ==> Reached() == Passed(text, old(pos), pos, old(Reached()))
    {
      hide Passed, Closes, Closing, Lex;
      CommentLex(text, pos);
      PassedComment(text, pos, Reached());
      var commentStart := pos - 1;
      pos := pos + 2;
      var closed := SkipComment();
      if !closed {
        pos := pos + 1;
        scanError := EndOfComment;
      }
      value := text[Clamp(commentStart, |text|)..Clamp(pos, |text|)];
      token := BlockComment;
    }

    /** To the end of a block comment, or to the last character that could not start its closing. */
    method SkipComment() returns (closed: bool)
      requires pos <= |text|
      modifies this`pos, this`lineNumber, this`lineStartOffset
      ensures closed <==> Closing(text, old(pos)) < |text|
      ensures closed ==> pos == Closing(text, old(pos)) + 2 <= |text|
      ensures !closed ==> pos + 1 == Overshoot(text, old(pos))
      ensures closed ==> Reached() == Passed(text, old(pos), pos, old(Reached()))
    {
      hide Passed, Closing, Closes, Overshoot;
      ghost var from, before := pos, Reached();
      var safeLength := |text| - 1;
      closed := false;
      OvershootStart(text);
      PassedNone(text, from, before);
      while pos < safeLength
        invariant from <= pos <= |text| && !closed
        invariant Closing(text, pos) == Closing(text, from)
        invariant Overshoot(text, from) == if pos == |text| then |text| + 1 else Overshoot(text, pos)
        invariant Reached() == Passed(text, from, pos, before)
      {
        var ch := CodeAt(text, pos);
        ghost var at := pos;
        PassedStep(text, from, at, before);
        if ch == STAR as int && CodeAt(text, pos + 1) == SLASH as int {
          ClosingHere(text, pos);
          pos := pos + 2;
          closed := true;
          break;
        }
        ClosingStep(text, pos);
        OvershootStep(text, pos);
        pos := pos + 1;
        if IsBreak(ch) {
          if ch == CR as int && CodeAt(text, pos) == LF as int {
            ClosingStep(text, pos);
            pos := pos + 1;
          }
          lineNumber := lineNumber + 1;
          lineStartOffset := pos;
        }
      }
      if !closed {
        ClosingEnd(text, pos);
        OvershootEnd(text, from, pos);
      }
    }

  /** A word: a keyword when it is one of the three, unknown content otherwise. */
    method ScanWord()
      requires pos < |text| && IsWord(text[pos]) && tokenOffset == pos && scanError == NoError
      modifies this`pos, this`value, this`token
      ensures pos == RunEnd(text, old(pos), IsWord) && value == text[old(pos)..pos] && token == WordKind(value)
    {
      ghost var from := pos;
      var ch := CodeAt(text, pos);
      while pos < |text| && IsWord(ch)
        invariant from <= pos <= |text| && ch == CodeAt(text, pos)
        invariant RunEnd(text, pos, IsWord) == RunEnd(text, from, IsWord)
      {
        pos := pos + 1;
        ch := CodeAt(text, pos);
      }
      // A word is never empty here, so the source's last resort of taking one character is not reached.
      assert tokenOffset != pos;
      value := text[tokenOffset..pos];
      if value == TRUE {
        token := TrueKeyword;
      } else if value == FALSE {
        token := FalseKeyword;
      } else if value == NULL {
        token := NullKeyword;
      } else {
        token := Unknown;
      }
    }

    /** Reads one token and carries the count on over it.  With a right count before, the token's recorded place is
        the position of its offset, and the count is right after it exactly when the token swallows no break. */
    method Scan() returns (kind: Kind)
      modifies this
      ensures kind == token && Current() == Lex(text, old(pos))
      ensures Place(tokenStartLine, prevTokenLineStart) == old(Reached())
      ensures pos < |text| ==> Reached() == After(text, Current(), old(Reached()))
      ensures Punctuates(CodeAt(text, old(pos)), kind)
      ensures old(Located()) && old(pos) < |text| ==> (Located() <==> !SwallowsBreak(text, old(pos)))
      ensures old(Located()) && old(pos) < |text| ==> Fits(text, tokenOffset, Place(tokenStartLine, prevTokenLineStart))
    {
      hide OnLine, Fits, SwallowsBreak, Lex, Passed;
      Placed();
      LexEnd(text, pos);
      if pos < |text| {
        Structural(text, pos);
      }
      value := [];
      scanError := NoError;
      tokenOffset := pos;
      tokenStartLine := lineNumber;
      prevTokenLineStart := lineStartOffset;
      if pos >= |text| {
        tokenOffset := |text|;
        token := EndOfFile;
        return token;
      }
      var ch := CodeAt(text, pos);
      if IsBreak(ch) {
        ScanLineBreak();
      } else if ch == SLASH as int && CodeAt(text, pos + 1) == STAR as int {
        ScanBlockComment();
      } else {
        ScanInLine(ch);
      }
      if old(Located()) && pos < |text| {
        CountAfter(text, old(pos), old(Reached()));
      }
      LastNeverSwallows(text, old(pos));
      kind := token;
    }

    ghost method Placed()
      ensures Located() && pos < |text| ==> Fits(text, pos, Reached())
    {
      if Located() && pos < |text| {
        OnLinePosition(text, pos, lineNumber, lineStartOffset);
      }
    }

    /** Any token but a line break or a block comment. */
    method ScanInLine(ch: int)
      requires pos < |text| && ch == text[pos] && !IsBreak(ch) && !(ch == SLASH && CodeAt(text, pos + 1) == STAR)
      requires value == [] && tokenOffset == pos && scanError == NoError
      modifies this`pos, this`value, this`token, this`scanError
      ensures Current() == Lex(text, old(pos)) && token !in {LineBreak, BlockComment}
      ensures Punctuates(ch, token)
    {
      hide RunEnd, Number, Literal, Closing, CommentText, Punctuates;
      Structural(text, pos);
      if IsBlank(ch) {
        ScanBlanks();
        return;
      }
      match ch
      case 123 => pos, token := pos + 1, OpenBrace;
      case 125 => pos, token := pos + 1, CloseBrace;
      case 91 => pos, token := pos + 1, OpenBracket;
      case 93 => pos, token := pos + 1, CloseBracket;
      case 58 => pos, token := pos + 1, Colon;
      case 44 => pos, token := pos + 1, Comma;
      case 34 =>
        pos := pos + 1;
        value := ScanString();
        token := StringLiteral;
      case 47 =>
        if CodeAt(text, pos + 1) == SLASH as int {
          ScanLineComment();
        } else {
          value := value + [ch];
          pos, token := pos + 1, Unknown;
        }
      case 45 =>
        value := value + [ch];
        pos := pos + 1;
        if pos == |text| || !IsDigit(CodeAt(text, pos)) {
          token := Unknown;
          return;
        }
        var digits := ScanNumber();
        value := value + digits;
        token := NumericLiteral;
      case _ =>
        if IsDigit(ch) {
          var digits := ScanNumber();
          value := value + digits;
          assert value == digits;
          token := NumericLiteral;
        } else {
          ScanWord();
        }
    }
  }

  lemma Structural(t: Text, i: nat)
    requires i < |t|
    ensures Punctuates(t[i], Lex(t, i).kind)
  {
    hide Lex;
    JsonGrammar.StructuralExact(t, i);
  }

  lemma NumberGoes(t: Text, i: nat)
    requires i < |t| && IsDigit(t[i])
    ensures var a := if t[i] == 48 then i + 1 else RunEnd(t, i + 1, IsDigit);
            Number(t, i) ==
            if CodeAt(t, a) != DOT as int then Exponent(t, i, a)
            else if IsDigit(CodeAt(t, a + 1)) then Exponent(t, i, RunEnd(t, a + 2, IsDigit))
            else Part(t[i..a + 1], a + 1, EndOfNumber)
  {
    hide RunEnd, Exponent;
  }

  lemma LexEnd(t: Text, i: nat)
    ensures i >= |t| ==> Lex(t, i) == Lexeme(EndOfFile, |t|, i, [], NoError)
  {
  }

  lemma CommentLex(t: Text, i: nat)
    requires CodeAt(t, i) == SLASH && CodeAt(t, i + 1) == STAR
    ensures Lex(t, i) == Comment(t, i)
  {
    hide Comment;
  }

  lemma LastNeverSwallows(t: Text, i: nat)
    requires i < |t|
    ensures Lex(t, i).end >= |t| ==> !SwallowsBreak(t, i)
  {
    hide Lex;
  }

  lemma PassedNone(t: Text, n: nat, p: Place)
    requires n <= |t|
    ensures Passed(t, n, n, p) == p
  {
  }

  /** How the count goes on past one more character, past CR LF, and past the closing of a comment. */
  lemma PassedStep(t: Text, n: nat, m: nat, p: Place)
    requires n <= m < |t|
    ensures var q := Passed(t, n, m, p);
            && (!IsBreak(t[m]) ==> Passed(t, n, m + 1, p) == q)
            && (IsBreak(t[m]) && !(t[m] == CR && CodeAt(t, m + 1) == LF) ==>
                  Passed(t, n, m + 1, p) == Place(q.line + 1, m + 1))
            && (t[m] == CR && CodeAt(t, m + 1) == LF ==> Passed(t, n, m + 2, p) == Place(q.line + 1, m + 2))
            && (Closes(t, m) ==> m + 2 <= |t| && Passed(t, n, m + 2, p) == q)
  {
  }

  lemma {:induction false} PassedJoin(t: Text, n: nat, m: nat, e: nat, p: Place)
    requires n <= m <= e <= |t|
    ensures Passed(t, n, e, p) == Passed(t, m, e, Passed(t, n, m, p))
    decreases e
  {
    if m < e {
      PassedJoin(t, n, m, e - 1, p);
    }
  }

  /** The two characters that open a comment end no line. */
  lemma PassedComment(t: Text, n: nat, p: Place)
    requires CodeAt(t, n) == SLASH && CodeAt(t, n + 1) == STAR
    ensures forall e :: n + 2 <= e <= |t| ==> Passed(t, n, e, p) == Passed(t, n + 2, e, p)
  {
    hide Passed;
    PassedNone(t, n, p);
    PassedStep(t, n, n, p);
    PassedStep(t, n, n + 1, p);
    forall e | n + 2 <= e <= |t|
      ensures Passed(t, n, e, p) == Passed(t, n + 2, e, p)
    {
      PassedJoin(t, n, n + 2, e, p);
    }
  }

  lemma ClosingStep(t: Text, i: nat)
    requires i < |t| && !(CodeAt(t, i) == STAR && CodeAt(t, i + 1) == SLASH)
    ensures Closing(t, i) == Closing(t, i + 1)
  {
  }

  /** Stepping over a character, or over CR LF, leaves the end of an unterminated comment where it is. */
  lemma OvershootStep(t: Text, i: nat)
    requires i < |t| - 1
    ensures var n := if t[i] == CR && t[i + 1] == LF then i + 2 else i + 1;
            Overshoot(t, i) == if n == |t| then |t| + 1 else Overshoot(t, n)
  {
  }

  lemma ClosingHere(t: Text, i: nat)
    requires i < |t| && CodeAt(t, i) == STAR && CodeAt(t, i + 1) == SLASH
    ensures Closing(t, i) == i && i + 2 <= |t|
  {
  }

  lemma OvershootStart(t: Text)
    ensures Overshoot(t, |t|) == |t| + 1
  {
  }

  lemma OvershootEnd(t: Text, from: nat, i: nat)
    requires from <= i <= |t| && |t| - 1 <= i
    requires Overshoot(t, from) == if i == |t| then |t| + 1 else Overshoot(t, i)
    ensures i + 1 == Overshoot(t, from)
  {
  }

  /** No comment is closed by the last character alone. */
  lemma ClosingEnd(t: Text, i: nat)
    requires |t| - 1 <= i <= |t|
    ensures Closing(t, i) == |t|
  {
  }

  lemma SliceShort(t: Text, i: nat)
    requires i < |t|
    ensures t[i..i + 1] == [] + [t[i]]
    ensures i + 1 < |t| ==> t[i..i + 2] == [] + [t[i]] + [t[i + 1]]
  {
  }

  lemma NoHex(t: Text, i: nat)
    requires i <= |t|
    ensures HexValue(t[i..i]) == 0
  {
  }

  lemma HexStep(t: Text, from: nat, i: nat, most: nat)
    requires from <= i < |t| && IsHex(t[i]) && most > 0 && forall j :: from <= j < i ==> IsHex(t[j])
    ensures HexValue(t[from..i + 1]) == 16 * HexValue(t[from..i]) + HexDigit(t[i])
    ensures HexRun(t, i, most) == 1 + HexRun(t, i + 1, most - 1)
  {
    assert t[from..i + 1][..i - from] == t[from..i];
  }

  lemma HexStop(t: Text, i: nat, most: nat)
    requires i <= |t|
    ensures most == 0 || !IsHex(CodeAt(t, i)) ==> HexRun(t, i, most) == 0
  {
  }

  /** What is read so far, with what is to come, makes the literal. */
  ghost predicate ReadsAs(t: Text, from: nat, read: Text, at: nat, before: ScanError, error: ScanError)
    requires from <= |t| && at <= |t|
  {
    var p, q := Literal(t, from), Literal(t, at);
    p.value == read + q.value && p.end == q.end && Latest(before, p.error) == Latest(error, q.error)
  }

  lemma ReadsStart(t: Text, at: nat, error: ScanError)
    requires at <= |t|
    ensures ReadsAs(t, at, [], at, error, error)
  {
    assert [] + Literal(t, at).value == Literal(t, at).value;
  }

  /** How each way on from a position keeps the reading right. */
  lemma LiteralStep(t: Text, from: nat, read: Text, at: nat, before: ScanError, error: ScanError)
    requires from <= |t| && at <= |t| && ReadsAs(t, from, read, at, before, error)
    ensures at == |t| || IsBreak(t[at]) || (t[at] == BACKSLASH && at + 1 == |t|) ==>
              var p := Literal(t, from);
              && p.value == read && Latest(before, p.error) == EndOfString
              && p.end == if at < |t| && t[at] == BACKSLASH then at + 1 else at
    ensures at < |t| && t[at] == QUOTE ==>
              var p := Literal(t, from);
              p.value == read && p.end == at + 1 && Latest(before, p.error) == error
    ensures at < |t| && t[at] == BACKSLASH && at + 1 < |t| ==>
              var e := Escape(t, at + 1);
              ReadsAs(t, from, read + e.value, e.end, before, Latest(error, e.error))
    ensures at < |t| && t[at] != QUOTE && t[at] != BACKSLASH && !IsBreak(t[at]) ==>
              ReadsAs(t, from, read + [t[at]], at + 1, before, if t[at] < 32 then InvalidCharacter else error)
  {
    hide Escape;
  }
}
