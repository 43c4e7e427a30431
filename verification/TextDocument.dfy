/** A text document: line starts, and the two ways between offsets and (line, character) positions. */
module TextDocuments {
  import opened LabSessions

  /** A UTF-16 code unit, the element of a JavaScript string. */
  type Code = x: int | 0 <= x < 65536

  type Text = seq<Code>

  const LF: Code := 10
  const CR: Code := 13

  datatype Position = Position(line: int, character: int)

  // ---------------------------------------------------------------- line starts

  /** A line starts at the front of a non-empty text and after each line break, CR LF counting as one. */
  predicate LineStart(t: Text, k: int) {
    (k == 0 && t != []) || (0 < k <= |t| && (t[k - 1] == LF || (t[k - 1] == CR && !(k < |t| && t[k] == LF))))
  }

  function StartsBefore(t: Text, n: nat): seq<nat> {
    if n == 0 then [] else StartsBefore(t, n - 1) + (if LineStart(t, n - 1) then [n - 1] else [])
  }

  function LineOffsets(t: Text): seq<nat> {
    StartsBefore(t, |t| + 1)
  }

  /** The offsets before n at which a line starts: all of them, each once, in order. */
  lemma {:induction false} StartsExact(t: Text, n: nat)
    ensures var r := StartsBefore(t, n);
            && (forall i, j :: 0 <= i < j < |r| ==> r[i] < r[j])
            && (forall k :: k in r <==> 0 <= k < n && LineStart(t, k))
            && (n > 0 && t != [] ==> |r| > 0 && r[0] == 0)
  {
    if n > 0 {
      StartsExact(t, n - 1);
      var r := StartsBefore(t, n - 1);
      assert forall i :: 0 <= i < |r| ==> r[i] in r;
    }
  }

  lemma OffsetsExact(t: Text)
    ensures var r := LineOffsets(t);
            && (forall i, j :: 0 <= i < j < |r| ==> r[i] < r[j])
            && (forall i :: 0 <= i < |r| ==> r[i] <= |t| && LineStart(t, r[i]))
            && (forall k :: 0 < k <= |t| ==>
                  (k in r <==> t[k - 1] == 10 || (t[k - 1] == 13 && (k == |t| || t[k] != 10))))
            && (forall k :: LineStart(t, k) ==> k in r)
            && (t != [] ==> |r| > 0 && r[0] == 0) && (t == [] ==> r == [])
  {
    StartsExact(t, |t| + 1);
    var r := LineOffsets(t);
    assert forall i :: 0 <= i < |r| ==> r[i] in r;
  }

  // ---------------------------------------------------------------- positions and offsets

  function Clamp(o: int, length: nat): nat {
    if o < 0 then 0 else if o > length then length else o
  }

  /** An offset on the line it falls in: the last line starting at or before it. */
  predicate PositionFits(t: Text, o: int, p: Position) {
    var r := LineOffsets(t);
    var e := Clamp(o, |t|);
    if r == [] then p == Position(0, e)
    else
      && 0 <= p.line < |r| && r[p.line] <= e && (p.line + 1 < |r| ==> e < r[p.line + 1])
      && p.character == e - r[p.line]
  }

  /** A character past its line's end counts as the start of the next line, a line past the last as the end. */
  function OffsetIn(t: Text, p: Position): int {
    var r := LineOffsets(t);
    if p.line >= |r| then |t|
    else if p.line < 0 then 0
    else
      var i := r[p.line];
      var n := if p.line + 1 < |r| then r[p.line + 1] else |t|;
      var o := if i + p.character < n then i + p.character else n;
      if o < i then i else o
  }

  /** On a line from a to b, a position is its character-th offset, cut off at the line's start and at the start of
      the next line or the end of the text; past the last line it is the end of the text. */
  lemma OffsetIs(t: Text, p: Position, a: nat, b: nat)
    requires a <= b <= |t| && LineStart(t, a) && (a < b || a == |t|) && (b == |t| || LineStart(t, b))
    requires forall k :: a < k < b ==> !LineStart(t, k)
    requires p.line == |StartsBefore(t, a)|
    ensures OffsetIn(t, p) == if p.character < 0 then a else if a + p.character < b then a + p.character else b
  {
    hide LineStart, LineOffsets, StartsBefore;
    StartAt(t, a);
    NextStart(t, p.line, a, b);
  }

  lemma NextStart(t: Text, line: nat, a: nat, b: nat)
    requires line < |LineOffsets(t)| && LineOffsets(t)[line] == a
    requires a <= b <= |t| && (a < b || a == |t|) && (b == |t| || LineStart(t, b))
    requires forall k :: a < k < b ==> !LineStart(t, k)
    ensures b == if line + 1 < |LineOffsets(t)| then LineOffsets(t)[line + 1] else |t|
  {
    hide LineStart, LineOffsets;
    var r := LineOffsets(t);
    OffsetsExact(t);
    if line + 1 < |r| {
      assert LineStart(t, r[line + 1]) && r[line] < r[line + 1];
    }
    if b < |t| {
      assert b in r;
      var j :| 0 <= j < |r| && r[j] == b;
      assert line < j;
    }
  }

  /** A line start stands in the offsets with as many before it as lines start before it. */
  lemma {:induction false} StartAt(t: Text, a: nat)
    requires LineStart(t, a)
    ensures |StartsBefore(t, a)| < |LineOffsets(t)| && LineOffsets(t)[|StartsBefore(t, a)|] == a
  {
    StartsPrefix(t, a + 1, |t| + 1);
  }

  lemma {:induction false} StartsPrefix(t: Text, a: nat, b: nat)
    requires a <= b
    ensures StartsBefore(t, a) <= StartsBefore(t, b)
    decreases b
  {
    if a < b {
      StartsPrefix(t, a, b - 1);
    }
  }

  lemma OffsetOutside(t: Text, p: Position)
    ensures p.line >= |LineOffsets(t)| ==> OffsetIn(t, p) == |t|
    ensures p.line < 0 ==> OffsetIn(t, p) == 0
  {
  }

  lemma OffsetInRange(t: Text, p: Position)
    ensures 0 <= OffsetIn(t, p) <= |t|
  {
    OffsetsExact(t);
  }

  predicate NotAfter(p: Position, q: Position) {
    p.line < q.line || (p.line == q.line && p.character <= q.character)
  }

  /** A position not after another has an offset not after the other's. */
  lemma OffsetMonotone(t: Text, p: Position, q: Position)
    requires NotAfter(p, q)
    ensures OffsetIn(t, p) <= OffsetIn(t, q)
  {
    hide LineOffsets;
    OffsetsExact(t);
    OffsetInRange(t, p);
    OffsetInRange(t, q);
    var r := LineOffsets(t);
    if 0 <= p.line < q.line < |r| {
      assert p.line + 1 < |r| && (p.line + 1 < q.line ==> r[p.line + 1] < r[q.line]);
    }
  }

  /** From an offset to its position and back: the offset itself, when it lies in the text. */
  lemma OffsetOfPosition(t: Text, o: int, p: Position)
    requires PositionFits(t, o, p)
    ensures OffsetIn(t, p) == Clamp(o, |t|)
  {
    hide LineOffsets;
    OffsetsExact(t);
  }

  /** No two positions can be the one an offset falls on. */
  lemma PositionUnique(t: Text, o: int, p: Position, q: Position)
    requires PositionFits(t, o, p) && PositionFits(t, o, q)
    ensures p == q
  {
    hide LineOffsets;
    OffsetsExact(t);
  }

  // ---------------------------------------------------------------- the document

  class TextDocument {
    var content: Text
    var lineOffsets: Option<seq<nat>>

    ghost predicate Valid()
      reads this
    {
      lineOffsets.Some? ==> lineOffsets.value == LineOffsets(content)
    }

    constructor (content: Text)
      ensures Valid() && this.content == content
    {
      this.content := content;
      lineOffsets := None;
    }

    /** A new content makes the cached line starts obsolete. */
    method Update(text: Text)
      modifies this
      ensures Valid() && content == text
    {
      content := text;
      lineOffsets := None;
    }

    method GetLineOffsets() returns (r: seq<nat>)
      requires Valid()
      modifies this`lineOffsets
      ensures Valid() && lineOffsets == Some(r) && r == LineOffsets(content)
    {
      if lineOffsets.None? {
        var e: seq<nat> := [];
        var isLineStart := true;
        var n := 0;
        while n < |content|
          invariant 0 <= n <= |content| && lineOffsets.None?
          invariant e == StartsBefore(content, n)
          invariant content != [] ==> isLineStart == LineStart(content, n)
          invariant content == [] ==> isLineStart
        {
          if isLineStart {
            e := e + [n];
          }
          var ch := content[n];
          isLineStart := ch == CR || ch == LF;
          if ch == CR && n + 1 < |content| && content[n + 1] == LF {
            n := n + 1;
          }
          n := n + 1;
        }
        if isLineStart && |content| > 0 {
          e := e + [|content|];
        }
        lineOffsets := Some(e);
      }
      r := lineOffsets.value;
    }

    method PositionAt(offset: int) returns (p: Position)
      requires Valid()
      modifies this`lineOffsets
      ensures Valid() && PositionFits(content, offset, p)
    {
      hide LineOffsets;
      OffsetsExact(content);
      var e := Clamp(offset, |content|);
      var r := GetLineOffsets();
      var low, high := 0, |r|;
      if high == 0 {
        return Position(0, e);
      }
      while low < high
        invariant 0 <= low <= high <= |r|
        invariant forall i :: 0 <= i < low ==> r[i] <= e
        invariant forall i :: high <= i < |r| ==> r[i] > e
      {
        var mid := (low + high) / 2;
        if r[mid] > e {
          high := mid;
        } else {
          low := mid + 1;
        }
      }
      var line := low - 1;
      p := Position(line, e - r[line]);
    }

    method OffsetAt(p: Position) returns (o: int)
      requires Valid()
      modifies this`lineOffsets
      ensures Valid() && o == OffsetIn(content, p)
    {
      hide LineOffsets;
      var r := GetLineOffsets();
      if p.line >= |r| {
        return |content|;
      }
      if p.line < 0 {
        return 0;
      }
      var i := r[p.line];
      var n := if p.line + 1 < |r| then r[p.line + 1] else |content|;
      o := i + p.character;
      if o > n {
        o := n;
      }
      if o < i {
        o := i;
      }
    }
  }
}
