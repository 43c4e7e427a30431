/** The scanner's numbers and strings against the grammar of RFC 8259, sections 6 and 7. */
module JsonGrammar {
  import opened LabSessions
  import opened TextDocuments
  import opened JsonLexemes

  // ---------------------------------------------------------------- which token starts where (sections 2 and 3)

  /** A character stands at an offset. */
  predicate Stands(t: Text, i: nat, c: char) {
    i < |t| && t[i] == c as int
  }

  /** Nothing, or a character no word goes on with. */
  predicate WordStops(t: Text, e: nat) {
    e < |t| ==> t[e] in {' ' as int, 9, 10, 13, '{' as int, '}' as int, '[' as int, ']' as int, '"' as int, ':' as int,
                         ',' as int, '/' as int}
  }

  /** A word stands at an offset, and is not just the front of a longer one. */
  predicate WordStands(t: Text, i: nat, w: string) {
    i + |w| <= |t| && (forall k :: 0 <= k < |w| ==> t[i + k] == w[k] as int) && WordStops(t, i + |w|)
  }

  /** The six structural characters, each a token of its own. */
  lemma StructuralExact(t: Text, i: nat)
    ensures var x := Lex(t, i);
            && (x.kind == OpenBrace <==> Stands(t, i, '{')) && (x.kind == CloseBrace <==> Stands(t, i, '}'))
            && (x.kind == OpenBracket <==> Stands(t, i, '[')) && (x.kind == CloseBracket <==> Stands(t, i, ']'))
            && (x.kind == Colon <==> Stands(t, i, ':')) && (x.kind == Comma <==> Stands(t, i, ','))
            && (x.kind in {OpenBrace, CloseBrace, OpenBracket, CloseBracket, Colon, Comma} ==> x.end == i + 1)
  {
    hide RunEnd, Number, Literal, Closing;
  }

  /** What the first one or two characters say of the other tokens. */
  lemma OpeningExact(t: Text, i: nat)
    ensures var k := Lex(t, i).kind;
            && (k == EndOfFile <==> i >= |t|)
            && (k == StringLiteral <==> Stands(t, i, '"'))
            && (k == LineComment <==> Stands(t, i, '/') && Stands(t, i + 1, '/'))
            && (k == BlockComment <==> Stands(t, i, '/') && Stands(t, i + 1, '*'))
            && (k == LineBreak <==> i < |t| && (t[i] == 10 || t[i] == 13))
            && (k == Trivia <==> i < |t| && (t[i] == 32 || t[i] == 9))
            && (k == NumericLiteral <==> DigitStands(t, i) || (Stands(t, i, '-') && DigitStands(t, i + 1)))
  {
    hide RunEnd, Number, Literal, Closing;
  }

  predicate DigitStands(t: Text, i: nat) {
    i < |t| && '0' as int <= t[i] <= '9' as int
  }

  /** The three literal names, read to their end. */
  lemma NamesExact(t: Text, i: nat)
    ensures var x := Lex(t, i);
            && (x.kind == TrueKeyword <==> WordStands(t, i, "true")) && (x.kind == TrueKeyword ==> x.end == i + 4)
            && (x.kind == FalseKeyword <==> WordStands(t, i, "false")) && (x.kind == FalseKeyword ==> x.end == i + 5)
            && (x.kind == NullKeyword <==> WordStands(t, i, "null")) && (x.kind == NullKeyword ==> x.end == i + 4)
  {
    hide RunEnd, Number, Literal, Closing;
    WordIs(t, i, "true", TRUE);
    WordIs(t, i, "false", FALSE);
    WordIs(t, i, "null", NULL);
  }

  /** A run of word characters is a given word exactly when that word stands there. */
  lemma WordIs(t: Text, i: nat, w: string, codes: Text)
    requires |codes| == |w| > 0 && forall k :: 0 <= k < |w| ==> codes[k] == w[k] as int && IsWord(codes[k])
    ensures i < |t| ==> (t[i..RunEnd(t, i, IsWord)] == codes <==> WordStands(t, i, w))
  {
    if i < |t| {
      if WordStands(t, i, w) {
        assert forall k :: i <= k < i + |w| ==> t[k] == w[k - i] as int == codes[k - i];
        RunEndUnique(t, i, IsWord, i + |w|);
      }
      if t[i..RunEnd(t, i, IsWord)] == codes {
        assert forall k :: 0 <= k < |w| ==> t[i + k] == t[i..RunEnd(t, i, IsWord)][k];
      }
    }
  }

  /** Anything else is unknown content: a '-' or a '/' alone, or the word that stands there. */
  lemma UnknownIs(t: Text, i: nat)
    requires Lex(t, i).kind == Unknown
    ensures i < |t|
    ensures var e := Lex(t, i).end;
            if Stands(t, i, '-') || Stands(t, i, '/') then e == i + 1
            else i < e <= |t| && WordStops(t, e) && forall k :: i <= k < e ==> !WordStops(t, k)
  {
    hide Number, Literal, Closing;
  }

  /** How far blanks, line breaks and line comments go, and what they hold. */
  lemma FlatExtent(t: Text, i: nat)
    requires i < |t|
    ensures var x := Lex(t, i);
            && (x.kind == Trivia ==>
                  && x.end <= |t| && x.value == t[i..x.end]
                  && (forall k :: i <= k < x.end ==> t[k] == 32 || t[k] == 9)
                  && (x.end < |t| ==> t[x.end] != 32 && t[x.end] != 9))
            && (x.kind == LineBreak ==>
                  && x.end == (if t[i] == 13 && i + 1 < |t| && t[i + 1] == 10 then i + 2 else i + 1)
                  && x.value == t[i..x.end])
            && (x.kind == LineComment ==>
                  && i + 2 <= x.end <= |t| && x.value == t[if i == 0 then 0 else i - 1..x.end] && x.error == NoError
                  && (forall k :: i + 2 <= k < x.end ==> t[k] != 10 && t[k] != 13)
                  && (x.end < |t| ==> t[x.end] == 10 || t[x.end] == 13))
  {
    hide Number, Literal, Closing;
  }

  /** A closed comment goes to its first closing; its text starts one character early, when there is one. */
  lemma CommentExtent(t: Text, i: nat)
    requires Lex(t, i).kind == BlockComment && Lex(t, i).error == NoError
    ensures var e := Lex(t, i).end;
            && i + 4 <= e <= |t| && Stands(t, e - 2, '*') && Stands(t, e - 1, '/')
            && (forall j :: i + 2 <= j < e - 2 ==> !(Stands(t, j, '*') && Stands(t, j + 1, '/')))
            && Lex(t, i).value == t[if i == 0 then 0 else i - 1..e]
  {
    hide RunEnd, Number, Literal;
    var e := Lex(t, i).end;
    forall j | i + 2 <= j < e - 2
      ensures !(Stands(t, j, '*') && Stands(t, j + 1, '/'))
    {
      assert !Closes(t, j);
    }
  }

  // ---------------------------------------------------------------- numbers (section 6)

  predicate Digits(s: Text) {
    s != [] && forall k :: 0 <= k < |s| ==> '0' as int <= s[k] <= '9' as int
  }

  predicate IsInt(s: Text) {
    Digits(s) && (s[0] == '0' as int ==> |s| == 1)
  }

  predicate IsFrac(s: Text) {
    s == [] || (s[0] == '.' as int && Digits(s[1..]))
  }

  predicate IsExp(s: Text) {
    s == [] || (s[0] in {'e' as int, 'E' as int} &&
                (Digits(s[1..]) || (|s| > 1 && s[1] in {'+' as int, '-' as int} && Digits(s[2..]))))
  }

  predicate SplitsAt(s: Text, a: nat, b: nat) {
    a <= b <= |s| && IsInt(s[..a]) && IsFrac(s[a..b]) && IsExp(s[b..])
  }

  /** A number without its sign: int, optional frac, optional exp. */
  predicate IsNumber(s: Text) {
    exists a: nat, b: nat :: a <= |s| && b <= |s| && SplitsAt(s, a, b)
  }

  /** What is read without an error is a number. */
  lemma NumberIsJson(t: Text, i: nat)
    requires i < |t| && IsDigit(t[i]) && Number(t, i).error == NoError
    ensures Number(t, i).value == t[i..Number(t, i).end] && IsNumber(t[i..Number(t, i).end])
  {
    hide RunEnd, SplitsAt, Exponent;
    var a := if t[i] == 48 then i + 1 else RunEnd(t, i + 1, IsDigit);
    var b := if CodeAt(t, a) == DOT as int && IsDigit(CodeAt(t, a + 1)) then RunEnd(t, a + 2, IsDigit) else a;
    var e := Exponent(t, i, b).end;
    var s := t[i..e];
    SplitsThere(t, i, a, b, s);
  }

  lemma SplitsThere(t: Text, i: nat, a: nat, b: nat, s: Text)
    requires i < |t| && IsDigit(t[i]) && a == (if t[i] == 48 then i + 1 else RunEnd(t, i + 1, IsDigit))
    requires b == if CodeAt(t, a) == DOT as int && IsDigit(CodeAt(t, a + 1)) then RunEnd(t, a + 2, IsDigit) else a
    requires Exponent(t, i, b).error == NoError && s == t[i..Exponent(t, i, b).end]
    ensures i <= a <= b <= i + |s| && SplitsAt(s, a - i, b - i)
  {
    hide RunEnd, Exponent, IsInt, IsFrac, IsExp;
    IntAt(t, i, a, s);
    FracAt(t, i, a, b, s);
    ExpAt(t, i, b, s);
  }

  lemma IntAt(t: Text, i: nat, a: nat, s: Text)
    requires i < |t| && IsDigit(t[i]) && a == (if t[i] == 48 then i + 1 else RunEnd(t, i + 1, IsDigit))
    requires i < a <= i + |s| <= |t| && s == t[i..i + |s|]
    ensures IsInt(s[..a - i])
  {
    assert forall k :: 0 <= k < a - i ==> s[k] == t[i + k];
  }

  lemma FracAt(t: Text, i: nat, a: nat, b: nat, s: Text)
    requires i <= a <= |t|
    requires b == if CodeAt(t, a) == DOT as int && IsDigit(CodeAt(t, a + 1)) then RunEnd(t, a + 2, IsDigit) else a
    requires a <= b <= i + |s| <= |t| && s == t[i..i + |s|]
    ensures IsFrac(s[a - i..b - i])
  {
    var f := s[a - i..b - i];
    if b > a {
      assert forall k :: a <= k < b ==> s[k - i] == t[k];
      assert f[0] == s[a - i] && forall k :: 0 <= k < |f| ==> f[k] == s[a - i + k];
      assert f[0] == DOT && forall k :: 0 <= k < |f[1..]| ==> f[1..][k] == t[a + 1 + k];
    }
  }

  lemma ExpAt(t: Text, i: nat, b: nat, s: Text)
    requires i <= b <= |t| && Exponent(t, i, b).error == NoError && s == t[i..Exponent(t, i, b).end]
    ensures IsExp(s[b - i..])
  {
    var f := s[b - i..];
    assert forall k :: 0 <= k < |f| ==> f[k] == t[b + k];
    if f != [] {
      var d := if IsSign(CodeAt(t, b + 1)) then 2 else 1;
      assert IsExponent(f[0]) && |f| > d && f[d] == t[b + d] && (d == 2 ==> IsSign(f[1]));
      assert forall k :: 0 <= k < |f[d..]| ==> f[d..][k] == t[b + d + k];
      assert Digits(f[d..]);
    }
  }

  /** Every number is read to its end, without an error. */
  lemma NumberReadsAll(s: Text, a: nat, b: nat)
    requires SplitsAt(s, a, b)
    ensures IsDigit(s[0]) && Number(s, 0) == Part(s, |s|, NoError)
  {
    assert s[..a][0] == s[0];
    assert forall k :: 0 <= k < a ==> s[k] == s[..a][k];
    IntReads(s, a, b);
    FracReads(s, a, b);
    ExpReads(s, b);
  }

  lemma IntReads(s: Text, a: nat, b: nat)
    requires SplitsAt(s, a, b)
    ensures a > 0 && a == if s[0] == 48 then 1 else RunEnd(s, 1, IsDigit)
  {
    assert s[..a][0] == s[0];
    assert forall k :: 0 <= k < a ==> s[k] == s[..a][k];
    if a < |s| {
      assert !IsDigit(s[a]) by {
        if a < b {
          assert s[a..b][0] == s[a];
        } else {
          assert s[b..][0] == s[a];
        }
      }
    }
    if s[0] != 48 {
      RunEndUnique(s, 1, IsDigit, a);
    }
  }

  lemma FracReads(s: Text, a: nat, b: nat)
    requires SplitsAt(s, a, b)
    ensures a < b ==> CodeAt(s, a) == DOT as int && IsDigit(CodeAt(s, a + 1)) && b == RunEnd(s, a + 2, IsDigit)
    ensures a == b ==> CodeAt(s, a) != DOT as int
  {
    var f := s[a..b];
    assert forall k :: 0 <= k < |f| ==> f[k] == s[a + k];
    if b < |s| {
      assert s[b..][0] == s[b];
    }
    if a < b {
      assert forall k :: 0 <= k < |f[1..]| ==> f[1..][k] == s[a + 1 + k];
      assert IsDigit(f[1..][0]);
      assert forall k :: a + 1 <= k < b ==> s[k] == f[1..][k - a - 1];
      RunEndUnique(s, a + 2, IsDigit, b);
    }
  }

  lemma ExpReads(s: Text, b: nat)
    requires b <= |s| && IsExp(s[b..])
    ensures Exponent(s, 0, b) == Part(s, |s|, NoError)
  {
    var f := s[b..];
    assert s[0..|s|] == s;
    if f != [] {
      assert f[0] == s[b];
      var d := if Digits(f[1..]) then 1 else 2;
      assert forall k :: 0 <= k < |f[d..]| ==> f[d..][k] == s[b + d + k];
      assert IsDigit(f[d..][0]);
      assert forall k :: b + d <= k < |s| ==> s[k] == f[d..][k - b - d];
      if d == 1 {
        assert s[b + 1] == f[1..][0];
      } else {
        assert f[1] == s[b + 1];
      }
      RunEndUnique(s, b + d + 1, IsDigit, |s|);
    }
  }

  /** An unsigned text is read to its end as an error-free number exactly when the grammar makes it one. */
  lemma NumberWhole(t: Text)
    requires t != [] && IsDigit(t[0])
    ensures Number(t, 0).error == NoError && Number(t, 0).end == |t| <==> IsNumber(t)
  {
    hide Number, SplitsAt;
    if IsNumber(t) {
      var a: nat, b: nat :| a <= |t| && b <= |t| && SplitsAt(t, a, b);
      NumberReadsAll(t, a, b);
    }
    if Number(t, 0).error == NoError && Number(t, 0).end == |t| {
      NumberIsJson(t, 0);
      assert t[0..|t|] == t;
    }
  }

  lemma FirstDigit(t: Text)
    requires IsNumber(t)
    ensures t != [] && IsDigit(t[0])
  {
    var a: nat, b: nat :| a <= |t| && b <= |t| && SplitsAt(t, a, b);
    assert t[..a][0] == t[0];
  }

  predicate ReadAsNumber(t: Text) {
    t != [] && Lex(t, 0).kind == NumericLiteral && Lex(t, 0).error == NoError && Lex(t, 0).end == |t|
  }

  /** A text is one error-free number to the scanner exactly when the grammar makes it a number, signed or not. */
  lemma NumberExact(t: Text)
    ensures ReadAsNumber(t) <==> IsNumber(t) || (t != [] && t[0] == '-' as int && IsNumber(t[1..]))
  {
    hide Number, IsNumber;
    if IsNumber(t) {
      FirstDigit(t);
    }
    if t != [] && IsDigit(t[0]) {
      NumberWhole(t);
    } else if t != [] && t[0] == MINUS {
      Signed(t);
    }
  }

  lemma Signed(t: Text)
    requires t != [] && t[0] == MINUS
    ensures ReadAsNumber(t) <==> IsNumber(t[1..])
  {
    hide Number, IsNumber;
    var s := t[1..];
    if IsNumber(s) {
      FirstDigit(s);
    }
    if s != [] && IsDigit(s[0]) {
      NumberWhole(s);
      NumberShift(t);
    }
  }

  lemma {:induction false} RunEndShift(t: Text, i: nat, accepts: int -> bool)
    requires 1 <= i <= |t|
    ensures RunEnd(t, i, accepts) == RunEnd(t[1..], i - 1, accepts) + 1
    decreases |t| - i
  {
    if i < |t| && accepts(t[i]) {
      RunEndShift(t, i + 1, accepts);
    }
  }

  lemma NumberShift(t: Text)
    requires |t| > 1 && IsDigit(t[1])
    ensures Number(t, 1).end == Number(t[1..], 0).end + 1 && Number(t, 1).error == Number(t[1..], 0).error
  {
    hide RunEnd, Exponent;
    var s := t[1..];
    assert forall k :: 0 <= k ==> CodeAt(s, k) == CodeAt(t, k + 1);
    RunEndShift(t, 2, IsDigit);
    var a := if t[1] == 48 then 2 else RunEnd(t, 2, IsDigit);
    if CodeAt(t, a) == DOT as int && IsDigit(CodeAt(t, a + 1)) {
      RunEndShift(t, a + 2, IsDigit);
      ExponentShift(t, RunEnd(t, a + 2, IsDigit));
    } else {
      ExponentShift(t, a);
    }
  }

  lemma ExponentShift(t: Text, a: nat)
    requires 1 <= a <= |t|
    ensures Exponent(t, 1, a).end == Exponent(t[1..], 0, a - 1).end + 1
    ensures Exponent(t, 1, a).error == Exponent(t[1..], 0, a - 1).error
  {
    var s := t[1..];
    assert forall k :: 0 <= k ==> CodeAt(s, k) == CodeAt(t, k + 1);
    if IsExponent(CodeAt(t, a)) {
      var b := if IsSign(CodeAt(t, a + 1)) then a + 2 else a + 1;
      if IsDigit(CodeAt(t, b)) {
        RunEndShift(t, b + 1, IsDigit);
      }
    }
  }

  // ---------------------------------------------------------------- strings (section 7)

  /** The character an escape letter stands for. */
  function Escaped(letter: Code): Option<Code> {
    if letter in {'"' as int, '\\' as int, '/' as int} then Some(letter)
    else if letter == 'b' as int then Some(8)
    else if letter == 'f' as int then Some(12)
    else if letter == 'n' as int then Some(10)
    else if letter == 'r' as int then Some(13)
    else if letter == 't' as int then Some(9)
    else None
  }

  /** One char of the grammar and the code unit it stands for: unescaped, an escape letter, or four digits. */
  predicate Spells(u: Text, c: Code) {
    || (u == [c] && c >= 32 && c != '"' as int && c != '\\' as int)
    || (|u| == 2 && u[0] == '\\' as int && Escaped(u[1]) == Some(c))
    || (|u| == 6 && u[0] == '\\' as int && u[1] == 'u' as int && FourHex(u[2..], c))
  }

  function HexOf(c: Code): Option<nat> {
    if '0' as int <= c <= '9' as int then Some(c - '0' as int)
    else if 'a' as int <= c <= 'f' as int then Some(10 + c - 'a' as int)
    else if 'A' as int <= c <= 'F' as int then Some(10 + c - 'A' as int)
    else None
  }

  /** Four hexadecimal digits, most significant first. */
  predicate FourHex(s: Text, c: Code) {
    && |s| == 4 && (forall j :: 0 <= j < 4 ==> HexOf(s[j]).Some?)
    && c == ((HexOf(s[0]).value * 16 + HexOf(s[1]).value) * 16 + HexOf(s[2]).value) * 16 + HexOf(s[3]).value
  }

  lemma FourHexReads(s: Text, c: Code)
    requires |s| == 4
    ensures FourHex(s, c) <==> (forall j :: 0 <= j < 4 ==> IsHex(s[j])) && HexValue(s) == c
  {
    assert forall j :: 0 <= j < 4 ==> (IsHex(s[j]) <==> HexOf(s[j]).Some?);
    assert s[..3][..2] == s[..2] && s[..2][..1] == s[..1] && s[..1][..0] == [];
    if forall j :: 0 <= j < 4 ==> IsHex(s[j]) {
      assert HexValue(s[..1]) == HexOf(s[0]).value;
      assert HexValue(s[..2]) == HexOf(s[0]).value * 16 + HexOf(s[1]).value;
    }
  }

  /** A sequence of chars of the grammar, and the text it stands for. */
  predicate Chars(s: Text, w: Text)
    decreases |w|
  {
    if w == [] then s == []
    else exists n: nat :: n <= |s| && Spells(s[..n], w[0]) && Chars(s[n..], w[1..])
  }

  /** A string of the grammar from offset i up to e, quotes included. */
  predicate IsString(t: Text, i: nat, e: nat, w: Text) {
    i + 2 <= e <= |t| && t[i] == '"' as int == t[e - 1] && Chars(t[i + 1..e - 1], w)
  }

  /** Four digits are read as the code unit they make. */
  lemma {:induction false} HexRunFull(t: Text, i: nat, most: nat)
    requires i + most <= |t| && forall j :: i <= j < i + most ==> IsHex(t[j])
    ensures HexRun(t, i, most) == most
    decreases most
  {
    if most > 0 {
      HexRunFull(t, i + 1, most - 1);
    }
  }

  /** A literal continuing with one char of the grammar reads its code unit and goes on after it. */
  lemma CharReads(t: Text, i: nat, n: nat, c: Code)
    requires i + n <= |t| && Spells(t[i..i + n], c)
    ensures n > 0
    ensures var r := Literal(t, i + n); Literal(t, i) == Part([c] + r.value, r.end, r.error)
  {
    var u := t[i..i + n];
    assert forall j :: 0 <= j < n ==> u[j] == t[i + j];
    assert u[0] == t[i];
    if n == 2 {
      assert u[1] == t[i + 1];
    } else if n == 6 {
      FourHexReads(u[2..], c);
      assert u[1] == t[i + 1] && u[2..] == t[i + 2..i + 6];
      assert forall j :: 2 <= j < 6 ==> u[j] == u[2..][j - 2];
      assert forall j :: i + 2 <= j < i + 6 ==> t[j] == u[j - i];
      HexRunFull(t, i + 2, 4);
    }
  }

  /** What an error-free literal starts with: its closing quote, or one char of the grammar. */
  lemma ReadsChar(t: Text, i: nat) returns (n: nat)
    requires i <= |t| && Literal(t, i).error == NoError
    ensures i < |t| && i + n <= |t|
    ensures t[i] == QUOTE ==> n == 0 && Literal(t, i) == Part([], i + 1, NoError)
    ensures t[i] != QUOTE ==>
              var w, r := Literal(t, i).value, Literal(t, i + n);
              && n > 0 && w != [] && Spells(t[i..i + n], w[0]) && w[1..] == r.value
              && Literal(t, i) == Part(w, r.end, NoError) && r.error == NoError
  {
    if t[i] == QUOTE {
      n := 0;
    } else if t[i] == BACKSLASH {
      n := if t[i + 1] == 117 then 6 else 2;
      EscapeReads(t, i);
    } else {
      n := 1;
      assert t[i..i + 1] == [t[i]];
    }
  }

  lemma EscapeReads(t: Text, i: nat)
    requires i + 1 < |t| && t[i] == BACKSLASH && Escape(t, i + 1).error == NoError
    ensures var n := if t[i + 1] == 117 then 6 else 2;
            && Escape(t, i + 1).end == i + n <= |t|
            && |Escape(t, i + 1).value| == 1 && Spells(t[i..i + n], Escape(t, i + 1).value[0])
  {
    if t[i + 1] == 117 {
      var u := t[i..i + 6];
      assert u[2..] == t[i + 2..i + 6];
      assert forall j :: 0 <= j < 4 ==> u[2..][j] == t[i + 2 + j];
      FourHexReads(u[2..], Escape(t, i + 1).value[0]);
    } else {
      assert t[i..i + 2] == [t[i], t[i + 1]];
    }
  }

  lemma Slices(t: Text, i: nat, n: nat, e: nat)
    requires i + n <= e <= |t|
    ensures t[i..e][..n] == t[i..i + n] && t[i..e][n..] == t[i + n..e]
  {
  }

  lemma CharsCons(s: Text, w: Text, n: nat)
    requires w != [] && n <= |s| && Spells(s[..n], w[0]) && Chars(s[n..], w[1..])
    ensures Chars(s, w)
  {
  }

  lemma FirstChar(s: Text, w: Text) returns (n: nat)
    requires w != [] && Chars(s, w)
    ensures n <= |s| && Spells(s[..n], w[0]) && Chars(s[n..], w[1..])
  {
    n :| n <= |s| && Spells(s[..n], w[0]) && Chars(s[n..], w[1..]);
  }

  /** What stands between quotes in the grammar is read to its closing quote, as the text it stands for. */
  lemma {:induction false} CharsRead(t: Text, i: nat, e: nat, w: Text)
    requires i < e <= |t| && t[e - 1] == QUOTE && Chars(t[i..e - 1], w)
    ensures Literal(t, i) == Part(w, e, NoError)
    decreases |w|
  {
    hide *;
    if w == [] {
      NothingReads(t, i, e, w);
    } else {
      var n := FirstChar(t[i..e - 1], w);
      Slices(t, i, n, e - 1);
      CharReads(t, i, n, w[0]);
      CharsRead(t, i + n, e, w[1..]);
      assert [w[0]] + w[1..] == w;
    }
  }

  lemma NothingReads(t: Text, i: nat, e: nat, w: Text)
    requires i < e <= |t| && t[e - 1] == QUOTE && Chars(t[i..e - 1], w) && w == []
    ensures Literal(t, i) == Part(w, e, NoError)
  {
    assert |t[i..e - 1]| == 0;
  }

  /** What is read without an error stands between quotes in the grammar, for the value read. */
  lemma {:induction false} ReadsChars(t: Text, i: nat)
    requires i <= |t| && Literal(t, i).error == NoError
    ensures var p := Literal(t, i); i < p.end && t[p.end - 1] == QUOTE && Chars(t[i..p.end - 1], p.value)
    decreases |t| - i
  {
    hide *;
    var n := ReadsChar(t, i);
    var p := Literal(t, i);
    if t[i] == QUOTE {
      assert t[i..i] == [];
      NoChars();
    } else {
      ReadsChars(t, i + n);
      Slices(t, i, n, p.end - 1);
      CharsCons(t[i..p.end - 1], p.value, n);
    }
  }

  lemma NoChars()
    ensures Chars([], [])
  {
  }

  /** A string is read without an error, with some value, exactly when the grammar has it there, for that text. */
  lemma StringExact(t: Text, i: nat, e: nat, w: Text)
    requires i < |t|
    ensures Lex(t, i) == Lexeme(StringLiteral, i, e, w, NoError) <==> IsString(t, i, e, w)
  {
    hide Literal, Chars, Number, RunEnd, Closing;
    if IsString(t, i, e, w) {
      CharsRead(t, i + 1, e, w);
    }
    if Lex(t, i) == Lexeme(StringLiteral, i, e, w, NoError) {
      ReadsChars(t, i + 1);
    }
  }

  // ---------------------------------------------------------------- errors

  /** An escape is no unicode escape without four digits after its letter, and none at all with another letter. */
  lemma EscapeErrors(t: Text, i: nat)
    requires i < |t|
    ensures var e := Escape(t, i).error;
            && (e == InvalidUnicode <==>
                  Stands(t, i, 'u') && !(i + 4 < |t| && forall j :: i < j <= i + 4 ==> HexOf(t[j]).Some?))
            && (e == InvalidEscape <==> !Stands(t, i, 'u') && Escaped(t[i]).None?)
            && e in {NoError, InvalidUnicode, InvalidEscape}
  {
    assert forall c: Code :: IsHex(c) <==> HexOf(c).Some?;
    if i + 4 < |t| && forall j :: i < j <= i + 4 ==> HexOf(t[j]).Some? {
      HexRunFull(t, i + 1, 4);
    }
  }

  /** A literal without its closing quote ends in that error, at a line break or the end of the text; any other one
      ends in its quote. */
  lemma {:induction false} LiteralErrors(t: Text, i: nat)
    requires i <= |t|
    ensures var p := Literal(t, i);
            && (p.error == EndOfString ==> p.end == |t| || t[p.end] == 10 || t[p.end] == 13)
            && (p.error != EndOfString ==> p.end > i && Stands(t, p.end - 1, '"'))
    decreases |t| - i
  {
    if i < |t| && t[i] == BACKSLASH && i + 1 < |t| {
      EscapeErrors(t, i + 1);
      LiteralErrors(t, Escape(t, i + 1).end);
    } else if i < |t| && t[i] != BACKSLASH && t[i] != QUOTE && !IsBreak(t[i]) {
      LiteralErrors(t, i + 1);
    }
  }

  /** A control character on its own before the closing quote. */
  lemma ControlError(t: Text, i: nat)
    requires i < |t| && t[i] < 32 && t[i] != 10 && t[i] != 13 && Stands(t, i + 1, '"')
    ensures Literal(t, i).error == InvalidCharacter
  {
    assert Literal(t, i + 1) == Part([], i + 2, NoError);
  }

  /** A number broken off has one error; which numbers have none, NumberExact says. */
  lemma NumberError(t: Text, i: nat)
    requires Lex(t, i).kind == NumericLiteral
    ensures Lex(t, i).error in {NoError, EndOfNumber}
  {
    hide RunEnd, Literal, Closing;
  }

  /** A block comment has an error exactly when nothing closes it. */
  lemma CommentError(t: Text, i: nat)
    requires Stands(t, i, '/') && Stands(t, i + 1, '*')
    ensures Lex(t, i).error == if exists j :: i + 2 <= j && Stands(t, j, '*') && Stands(t, j + 1, '/') then NoError
                               else EndOfComment
  {
    hide RunEnd, Number, Literal;
    var e := Closing(t, i + 2);
    if j :| i + 2 <= j && Stands(t, j, '*') && Stands(t, j + 1, '/') {
      assert Closes(t, j) && e < |t|;
    }
    if e < |t| {
      assert Stands(t, e, '*') && Stands(t, e + 1, '/');
    }
  }

  // ---------------------------------------------------------------- one spelling for every text

  function DigitCode(v: nat): (c: Code)
    requires v < 16
    ensures IsHex(c) && HexDigit(c) == v
  {
    if v < 10 then 48 + v else 87 + v
  }

  /** One code unit as a string literal may spell it. */
  function SpellCode(c: Code): (s: Text)
    ensures |s| > 0
  {
    if c == QUOTE || c == BACKSLASH then [BACKSLASH, c]
    else if c < 32 then [BACKSLASH, 117, 48, 48, DigitCode(c / 16), DigitCode(c % 16)]
    else [c]
  }

  function Spell(w: Text): Text {
    if w == [] then [] else SpellCode(w[0]) + Spell(w[1..])
  }

  lemma CodeSpells(c: Code)
    ensures Spells(SpellCode(c), c)
  {
    var u := SpellCode(c);
    if c < 32 {
      var h := u[2..];
      assert h == [48, 48, u[4], u[5]];
      assert h[..3] == [48, 48, u[4]] && h[..3][..2] == [48, 48] && h[..3][..2][..1] == [48];
      assert HexValue([48]) == 0;
      assert HexValue([48, 48]) == 0;
      assert HexValue(h[..3]) == c / 16;
      FourHexReads(h, c);
    }
  }

  lemma {:induction false} SpellIsChars(w: Text)
    ensures Chars(Spell(w), w)
  {
    if w != [] {
      var x, y := SpellCode(w[0]), Spell(w[1..]);
      CodeSpells(w[0]);
      SpellIsChars(w[1..]);
      assert (x + y)[..|x|] == x && (x + y)[|x|..] == y;
    }
  }

  lemma Quoted(t: Text, i: nat, s: Text)
    requires i + |s| + 2 <= |t| && t[i..i + |s| + 2] == [QUOTE] + s + [QUOTE]
    ensures t[i] == t[i + |s| + 1] == QUOTE && t[i + 1..i + |s| + 1] == s
  {
    var q := t[i..i + |s| + 2];
    assert q[0] == t[i] && q[|s| + 1] == t[i + |s| + 1];
    forall k | 0 <= k < |s|
      ensures t[i + 1..i + |s| + 1][k] == s[k]
    {
      assert q[k + 1] == t[i + 1 + k];
    }
  }

  /** Every text, spelled as a string, is read back as itself, wherever the literal stands. */
  lemma StringReads(t: Text, i: nat, w: Text)
    requires i + |Spell(w)| + 2 <= |t| && t[i..i + |Spell(w)| + 2] == [QUOTE] + Spell(w) + [QUOTE]
    ensures Lex(t, i) == Lexeme(StringLiteral, i, i + |Spell(w)| + 2, w, NoError)
  {
    hide Lex, Chars, Spell;
    SpellIsChars(w);
    Quoted(t, i, Spell(w));
    StringExact(t, i, i + |Spell(w)| + 2, w);
  }
}
