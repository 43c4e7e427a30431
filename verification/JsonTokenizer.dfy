/** The JSON line tokenizer: one line at a time, with the state it hands from line to line. */
module JsonTokenizers {
  import opened LabSessions
  import opened TextDocuments
  import opened JsonLexemes
  import opened JsonScanners
  import opened JsonGrammar

  /** The open brackets around a place, innermost first. */
  datatype Parents = Root | Nested(outer: Parents, inArray: bool)

  datatype LineState = LineState(scanError: ScanError, lastWasColon: bool, parents: Parents)

  datatype Scope =
    | BracketDelimiter | ArrayDelimiter | ColonDelimiter | CommaDelimiter | Keyword
    | StringValue | StringKey | NumberScope | BlockCommentScope | LineCommentScope | NoScope

  datatype Info = Info(startIndex: int, scope: Scope)

  /** What a line continuing a string or a comment is prefixed with, to be scanned like its beginning. */
  function Prefix(e: ScanError): Text {
    match e
    case EndOfString => [QUOTE]
    case EndOfComment => [SLASH, STAR]
    case _ => []
  }

  // ---------------------------------------------------------------- one token

  function Pop(p: Parents): Parents {
    if p.Root? then Root else p.outer
  }

  function NextParents(k: Kind, p: Parents): Parents {
    match k
    case OpenBrace => Nested(p, false)
    case OpenBracket => Nested(p, true)
    case CloseBrace => Pop(p)
    case CloseBracket => Pop(p)
    case _ => p
  }

  function NextColon(k: Kind, colon: bool): bool {
    if k == Colon then true
    else if k in {LineComment, BlockComment, LineBreak, Trivia, Unknown, EndOfFile} then colon
    else false
  }

  function ScopeOf(k: Kind, colon: bool, p: Parents): Scope {
    match k
    case OpenBrace => BracketDelimiter
    case CloseBrace => BracketDelimiter
    case OpenBracket => ArrayDelimiter
    case CloseBracket => ArrayDelimiter
    case Colon => ColonDelimiter
    case Comma => CommaDelimiter
    case TrueKeyword => Keyword
    case FalseKeyword => Keyword
    case NullKeyword => Keyword
    case StringLiteral => if colon || (p.Nested? && p.inArray) then StringValue else StringKey
    case NumericLiteral => NumberScope
    case LineComment => LineCommentScope
    case BlockComment => BlockCommentScope
    case _ => NoScope
  }

  function After(x: Lexeme, s: LineState): LineState {
    LineState(x.error, NextColon(x.kind, s.lastWasColon), NextParents(x.kind, s.parents))
  }

  // ---------------------------------------------------------------- one line

  /** Where the k-th token of a line starts: the prefix does not count, and the first token starts with the line. */
  function StartIndex(xs: seq<Lexeme>, k: nat, prefix: nat): int
    requires k < |xs|
  {
    xs[k].start - (if k == 0 then 0 else prefix)
  }

  function StateAfter(xs: seq<Lexeme>, s: LineState): LineState {
    if xs == [] then s else After(xs[|xs| - 1], StateAfter(xs[..|xs| - 1], s))
  }

  /** The tokens of a line are those the scanner reads in the prefixed line. */
  ghost predicate TokensFit(tokens: seq<Info>, xs: seq<Lexeme>, s: LineState, prefix: nat, delta: int) {
    && |tokens| == |xs|
    && forall k :: 0 <= k < |xs| ==>
         && tokens[k].startIndex == delta + StartIndex(xs, k, prefix)
         && tokens[k].scope == ScopeOf(xs[k].kind, StateAfter(xs[..k], s).lastWasColon, StateAfter(xs[..k], s).parents)
  }

  /** Start indexes go up from token to token. */
  predicate Increasing(tokens: seq<Info>) {
    forall i, j :: 0 <= i < j < |tokens| ==> tokens[i].startIndex < tokens[j].startIndex
  }

  /** A string carried over to a line whose first character is a line break, which no line of an editor has. */
  predicate BrokenCarry(line: Text, s: LineState) {
    s.scanError == EndOfString && line != [] && IsBreak(line[0])
  }

  method Classify(kind: Kind, colon: bool, parents: Parents) returns (scope: Scope, colon': bool, parents': Parents)
    ensures scope == ScopeOf(kind, colon, parents) && colon' == NextColon(kind, colon)
    ensures parents' == NextParents(kind, parents)
  {
    scope, colon', parents' := NoScope, colon, parents;
    match kind
    case OpenBrace => parents' := Nested(parents, false); scope := BracketDelimiter; colon' := false;
    case CloseBrace => parents' := Pop(parents); scope := BracketDelimiter; colon' := false;
    case OpenBracket => parents' := Nested(parents, true); scope := ArrayDelimiter; colon' := false;
    case CloseBracket => parents' := Pop(parents); scope := ArrayDelimiter; colon' := false;
    case Colon => scope := ColonDelimiter; colon' := true;
    case Comma => scope := CommaDelimiter; colon' := false;
    case TrueKeyword => scope := Keyword; colon' := false;
    case FalseKeyword => scope := Keyword; colon' := false;
    case NullKeyword => scope := Keyword; colon' := false;
    case StringLiteral =>
      var inArray := parents.Nested? && parents.inArray;
      scope := if colon || inArray then StringValue else StringKey;
      colon' := false;
    case NumericLiteral => scope := NumberScope; colon' := false;
    case LineComment => scope := LineCommentScope;
    case BlockComment => scope := BlockCommentScope;
    case _ =>
  }

  /**
   * Tokenizes a line. The scanner always advances, and the start indexes go up strictly, whatever is carried
   * over from the line before.
   */
  method Tokenize(line: Text, s: LineState, delta: int := 0) returns (tokens: seq<Info>, endState: LineState)
    ensures var xs := Lexemes(Prefix(s.scanError) + line, 0);
            TokensFit(tokens, xs, s, |Prefix(s.scanError)|, delta) && endState == StateAfter(xs, s)
    ensures tokens != [] ==> tokens[0].startIndex == delta
    ensures Increasing(tokens) <==> !BrokenCarry(line, s)
    ensures AllColoured(tokens, Prefix(s.scanError) + line)
  {
    hide Lex, Lexemes, StateAfter, Prefix, BrokenCarry, Increasing, TokensFit, ScopeOf, NextColon, NextParents;
    hide AllColoured, Punctuates, Fits, SwallowsBreak, Passed;
    var prefix, text := 0, line;
    if s.scanError == EndOfString {
      text, prefix := [QUOTE] + line, 1;
    } else if s.scanError == EndOfComment {
      text, prefix := [SLASH, STAR] + line, 2;
    }
    PrefixIs(line, s, text, prefix);
    var scanner := new Scanner(text);
    var colon, parents := s.lastWasColon, s.parents;
    tokens, endState := [], s;
    ghost var xs: seq<Lexeme> := [];
    var adjust := false;
    StateStart(s, prefix, delta);
    assert [] + Lexemes(text, 0) == Lexemes(text, 0);
    while true
      invariant scanner.text == text && adjust == (prefix > 0 && xs != [])
      invariant Lexemes(text, 0) == xs + Lexemes(text, scanner.pos)
      invariant TokensFit(tokens, xs, s, prefix, delta)
      invariant endState == StateAfter(xs, s) && colon == endState.lastWasColon && parents == endState.parents
      invariant xs == [] ==> scanner.pos == 0
      decreases |text| - scanner.pos
    {
      var v := delta + scanner.pos;
      ghost var at := scanner.pos;
      var kind := scanner.Scan();
      ghost var x := Lex(text, at);
      if kind == EndOfFile {
        AtEnd(text, at);
        break;
      }
      InText(text, at);
      assert x.start == at && x.end == scanner.pos && x.kind == kind && x.error == scanner.scanError;
      Extend(text, tokens, xs, s, prefix, delta, at);
      // Where the source throws because the scanner did not advance.
      assert v != delta + scanner.pos;
      if adjust {
        v := v - prefix;
      }
      adjust := prefix > 0;
      var scope;
      scope, colon, parents := Classify(kind, colon, parents);
      endState := LineState(scanner.scanError, colon, parents);
      tokens := tokens + [Info(v, scope)];
      xs := xs + [x];
    }
    assert xs + [] == xs;
    Starts(line, s, tokens, delta);
    TokenScopes(tokens, text, s, prefix, delta);
  }

  lemma PrefixIs(line: Text, s: LineState, text: Text, prefix: nat)
    requires text == (if s.scanError == EndOfString then [QUOTE] + line
                      else if s.scanError == EndOfComment then [SLASH, STAR] + line else line)
    requires prefix == (if s.scanError == EndOfString then 1 else if s.scanError == EndOfComment then 2 else 0)
    ensures text == Prefix(s.scanError) + line && prefix == |Prefix(s.scanError)|
  {
    assert [] + line == line;
  }

  lemma StateStart(s: LineState, prefix: nat, delta: int)
    ensures StateAfter([], s) == s && TokensFit([], [], s, prefix, delta)
  {
  }

  lemma AtEnd(t: Text, i: nat)
    requires Lex(t, i).kind == EndOfFile
    ensures i >= |t| && Lexemes(t, i) == []
  {
    if i < |t| {
      Advances(t, i);
    }
  }

  lemma InText(t: Text, i: nat)
    requires Lex(t, i).kind != EndOfFile
    ensures i < |t| && Lex(t, i).start == i < Lex(t, i).end
    ensures Lexemes(t, i) == [Lex(t, i)] + Lexemes(t, Lex(t, i).end)
  {
    if i < |t| {
      Advances(t, i);
    }
  }

  /** One more token keeps the tokens in step with what was scanned. */
  lemma Extend(t: Text, tokens: seq<Info>, xs: seq<Lexeme>, s: LineState, prefix: nat, delta: int, at: nat)
    requires TokensFit(tokens, xs, s, prefix, delta) && Lexemes(t, 0) == xs + Lexemes(t, at)
    requires Lex(t, at).kind != EndOfFile
    ensures var x, now := Lex(t, at), StateAfter(xs, s);
            var index := delta + at - (if xs == [] then 0 else prefix);
            && Lexemes(t, 0) == (xs + [x]) + Lexemes(t, x.end)
            && StateAfter(xs + [x], s) == After(x, now)
            && TokensFit(tokens + [Info(index, ScopeOf(x.kind, now.lastWasColon, now.parents))], xs + [x],
                         s, prefix, delta)
  {
    hide Lex, Lexemes, ScopeOf;
    InText(t, at);
    var x := Lex(t, at);
    assert xs + ([x] + Lexemes(t, x.end)) == (xs + [x]) + Lexemes(t, x.end);
    var ys := xs + [x];
    assert ys[..|xs|] == xs;
    assert forall k :: 0 <= k < |xs| ==> ys[..k] == xs[..k];
  }

  // ---------------------------------------------------------------- start indexes

  /** The first token of a prefixed line takes in the prefix, and something of the line if there is any. */
  lemma FirstToken(line: Text, s: LineState)
    requires Prefix(s.scanError) != []
    ensures var t := Prefix(s.scanError) + line;
            && Lex(t, 0).end >= |Prefix(s.scanError)|
            && (Lex(t, 0).end > |Prefix(s.scanError)| || line == [] <==> !BrokenCarry(line, s))
            && (s.scanError == EndOfComment ==> Lex(t, 0) == Comment(t, 0))
  {
    hide RunEnd;
    var t := Prefix(s.scanError) + line;
    if s.scanError == EndOfString {
      assert t[0] == QUOTE && (line != [] ==> t[1] == line[0]);
    } else {
      assert t[0] == SLASH && t[1] == STAR;
    }
  }

  lemma Starts(line: Text, s: LineState, tokens: seq<Info>, delta: int)
    requires TokensFit(tokens, Lexemes(Prefix(s.scanError) + line, 0), s, |Prefix(s.scanError)|, delta)
    ensures tokens != [] ==> tokens[0].startIndex == delta
    ensures Increasing(tokens) <==> !BrokenCarry(line, s)
  {
    hide Lex, Prefix, BrokenCarry, StateAfter, ScopeOf;
    var prefix := |Prefix(s.scanError)|;
    var t := Prefix(s.scanError) + line;
    if t == [] {
      NoCarry(line, s);
    } else {
      Tiles(t, 0);
      var xs := Lexemes(t, 0);
      Ordered(xs);
      if prefix == 0 {
        NoCarry(line, s);
      } else {
        FirstToken(line, s);
        SecondToken(line, s, xs, tokens, delta);
      }
    }
  }

  lemma NoCarry(line: Text, s: LineState)
    requires Prefix(s.scanError) == []
    ensures !BrokenCarry(line, s)
  {
  }

  /** Tokens that follow one another start one after another. */
  lemma {:induction false} Ordered(xs: seq<Lexeme>)
    requires forall k :: 0 <= k < |xs| ==> xs[k].start < xs[k].end
    requires forall k :: 0 <= k < |xs| - 1 ==> xs[k].end == xs[k + 1].start
    ensures forall i, j :: 0 <= i < j < |xs| ==> xs[i].end <= xs[j].start
  {
    if xs != [] {
      var ys := xs[..|xs| - 1];
      Ordered(ys);
      forall i | 0 <= i < |ys|
        ensures xs[i].end <= xs[|ys|].start
      {
        assert xs[i].end == ys[i].end && xs[|ys| - 1].end == xs[|ys|].start;
      }
    }
  }

  lemma SecondToken(line: Text, s: LineState, xs: seq<Lexeme>, tokens: seq<Info>, delta: int)
    requires Prefix(s.scanError) != [] && xs == Lexemes(Prefix(s.scanError) + line, 0)
    requires xs != [] && xs[0].start == 0 && xs[0] == Lex(Prefix(s.scanError) + line, 0)
    requires |Prefix(s.scanError)| + |line| <= xs[|xs| - 1].end
    requires forall k :: 0 <= k < |xs| ==> xs[k].start < |Prefix(s.scanError)| + |line|
    requires forall k :: 0 <= k < |xs| - 1 ==> xs[k].end == xs[k + 1].start
    requires forall i, j :: 0 <= i < j < |xs| ==> xs[i].start < xs[i].end <= xs[j].start
    requires TokensFit(tokens, xs, s, |Prefix(s.scanError)|, delta)
    requires xs[0].end >= |Prefix(s.scanError)|
    requires xs[0].end > |Prefix(s.scanError)| || line == [] <==> !BrokenCarry(line, s)
    ensures Increasing(tokens) <==> !BrokenCarry(line, s)
  {
    hide Lex, Prefix, StateAfter, ScopeOf, Lexemes;
    var prefix := |Prefix(s.scanError)|;
    if BrokenCarry(line, s) {
      assert |xs| > 1 && tokens[1].startIndex == delta + xs[1].start - prefix == tokens[0].startIndex;
    } else {
      forall i, j | 0 <= i < j < |tokens|
        ensures tokens[i].startIndex < tokens[j].startIndex
      {
        assert tokens[j].startIndex == delta + xs[j].start - prefix;
      }
    }
  }

  // ---------------------------------------------------------------- what is coloured how

  /** The name a scope goes by outside. */
  function ScopeName(s: Scope): string {
    match s
    case BracketDelimiter => "delimiter.bracket.json"
    case ArrayDelimiter => "delimiter.array.json"
    case ColonDelimiter => "delimiter.colon.json"
    case CommaDelimiter => "delimiter.comma.json"
    case Keyword => "keyword.json"
    case StringValue => "string.value.json"
    case StringKey => "string.key.json"
    case NumberScope => "number.json"
    case BlockCommentScope => "comment.block.json"
    case LineCommentScope => "comment.line.json"
    case NoScope => ""
  }

  /** A token's scope by the characters it starts with, whatever came before it. */
  lemma ScopeExact(t: Text, i: nat, colon: bool, p: Parents)
    ensures var s := ScopeOf(Lex(t, i).kind, colon, p);
            && (Stands(t, i, '{') || Stands(t, i, '}') <==> s == BracketDelimiter)
            && (Stands(t, i, '[') || Stands(t, i, ']') <==> s == ArrayDelimiter)
            && (Stands(t, i, ':') <==> s == ColonDelimiter)
            && (Stands(t, i, ',') <==> s == CommaDelimiter)
            && (WordStands(t, i, "true") || WordStands(t, i, "false") || WordStands(t, i, "null") <==> s == Keyword)
            && (Stands(t, i, '"') <==> s == StringValue || s == StringKey)
            && (DigitStands(t, i) || (Stands(t, i, '-') && DigitStands(t, i + 1)) <==> s == NumberScope)
            && (Stands(t, i, '/') && Stands(t, i + 1, '*') <==> s == BlockCommentScope)
            && (Stands(t, i, '/') && Stands(t, i + 1, '/') <==> s == LineCommentScope)
  {
    hide Lex, Stands, WordStands, DigitStands;
    StructuralExact(t, i);
    OpeningExact(t, i);
    NamesExact(t, i);
  }

  /** A scope name and the characters at an offset that call for it. */
  predicate Coloured(name: string, t: Text, i: nat) {
    && (name == "delimiter.bracket.json" <==> Stands(t, i, '{') || Stands(t, i, '}'))
    && (name == "delimiter.array.json" <==> Stands(t, i, '[') || Stands(t, i, ']'))
    && (name == "delimiter.colon.json" <==> Stands(t, i, ':'))
    && (name == "delimiter.comma.json" <==> Stands(t, i, ','))
    && (name == "keyword.json" <==>
          WordStands(t, i, "true") || WordStands(t, i, "false") || WordStands(t, i, "null"))
    && (name == "string.value.json" || name == "string.key.json" <==> Stands(t, i, '"'))
    && (name == "number.json" <==> DigitStands(t, i) || (Stands(t, i, '-') && DigitStands(t, i + 1)))
    && (name == "comment.block.json" <==> Stands(t, i, '/') && Stands(t, i + 1, '*'))
    && (name == "comment.line.json" <==> Stands(t, i, '/') && Stands(t, i + 1, '/'))
  }

  /** Every token of a line has the scope its first characters call for. */
  ghost predicate AllColoured(tokens: seq<Info>, t: Text) {
    |tokens| == |Lexemes(t, 0)| &&
    forall m :: 0 <= m < |tokens| ==> Coloured(ScopeName(tokens[m].scope), t, Lexemes(t, 0)[m].start)
  }

  lemma TokenScopes(tokens: seq<Info>, t: Text, s: LineState, prefix: nat, delta: int)
    requires TokensFit(tokens, Lexemes(t, 0), s, prefix, delta)
    ensures AllColoured(tokens, t)
  {
    hide Coloured, ScopeName, Lexemes;
    forall m | 0 <= m < |tokens|
      ensures Coloured(ScopeName(tokens[m].scope), t, Lexemes(t, 0)[m].start)
    {
      TokenScope(tokens, t, s, prefix, delta, m);
    }
  }

  lemma TokenScope(tokens: seq<Info>, t: Text, s: LineState, prefix: nat, delta: int, m: nat)
    requires TokensFit(tokens, Lexemes(t, 0), s, prefix, delta) && m < |tokens|
    ensures Coloured(ScopeName(tokens[m].scope), t, Lexemes(t, 0)[m].start)
  {
    hide Lex, Lexemes, Stands, WordStands, DigitStands, ScopeOf, StateAfter, ScopeName;
    NotEmpty(t, tokens, s, prefix, delta);
    Tiles(t, 0);
    var xs := Lexemes(t, 0);
    var now := StateAfter(xs[..m], s);
    ScopeExact(t, xs[m].start, now.lastWasColon, now.parents);
    ScopeNames(tokens[m].scope);
  }

  lemma NotEmpty(t: Text, tokens: seq<Info>, s: LineState, prefix: nat, delta: int)
    requires TokensFit(tokens, Lexemes(t, 0), s, prefix, delta) && tokens != []
    ensures t != []
  {
    hide Lex;
  }

  lemma ScopeNames(s: Scope)
    ensures ScopeName(s) == "delimiter.bracket.json" <==> s == BracketDelimiter
    ensures ScopeName(s) == "delimiter.array.json" <==> s == ArrayDelimiter
    ensures ScopeName(s) == "delimiter.colon.json" <==> s == ColonDelimiter
    ensures ScopeName(s) == "delimiter.comma.json" <==> s == CommaDelimiter
    ensures ScopeName(s) == "keyword.json" <==> s == Keyword
    ensures ScopeName(s) == "string.value.json" <==> s == StringValue
    ensures ScopeName(s) == "string.key.json" <==> s == StringKey
    ensures ScopeName(s) == "number.json" <==> s == NumberScope
    ensures ScopeName(s) == "comment.block.json" <==> s == BlockCommentScope
    ensures ScopeName(s) == "comment.line.json" <==> s == LineCommentScope
  {
    var n := ScopeName(s);
    assert |"delimiter.bracket.json"| == 22 && |"delimiter.array.json"| == 20 && |"delimiter.colon.json"| == 20;
    assert |n| == 20 ==> n[10] in {'a', 'c'};
  }

  // ---------------------------------------------------------------- from line to line

  lemma {:induction false} ClosingShift(p: Text, line: Text, i: nat)
    requires i <= |line|
    ensures Closing(p + line, |p| + i) == |p| + Closing(line, i)
    decreases |line| - i
  {
    assert forall k :: 0 <= k ==> CodeAt(p + line, |p| + k) == CodeAt(line, k);
    if i < |line| && !Closes(line, i) {
      ClosingShift(p, line, i + 1);
    }
  }

  /** A comment carried over takes the line up to the first closing, or all of it, and is then carried on. */
  lemma CommentCarries(line: Text, s: LineState)
    requires s.scanError == EndOfComment
    ensures var m, xs := Closing(line, 0), Lexemes(Prefix(s.scanError) + line, 0);
            && xs != [] && xs[0].kind == BlockComment
            && (m < |line| ==> xs[0].end == |Prefix(s.scanError)| + m + 2 && xs[0].error == NoError)
            && (m == |line| ==> |xs| == 1 && StateAfter(xs, s) == s)
  {
    hide Lex;
    var t := Prefix(s.scanError) + line;
    FirstToken(line, s);
    ClosingShift(Prefix(s.scanError), line, 0);
    assert CodeAt(t, 1) == STAR;
    InText(t, 0);
    if Closing(line, 0) == |line| {
      assert Lexemes(t, Lex(t, 0).end) == [];
      assert StateAfter(Lexemes(t, 0), s) == After(Lex(t, 0), s);
    }
  }

  lemma {:induction false} LiteralShift(p: Text, line: Text, i: nat)
    requires i <= |line|
    ensures Literal(p + line, |p| + i) == Literal(line, i).(end := |p| + Literal(line, i).end)
    decreases |line| - i
  {
    hide Escape;
    var t := p + line;
    assert i < |line| ==> t[|p| + i] == line[i];
    if i < |line| && line[i] == BACKSLASH && i + 1 < |line| {
      EscapeShift(p, line, i + 1);
      LiteralShift(p, line, Escape(line, i + 1).end);
    } else if i < |line| && line[i] != QUOTE && line[i] != BACKSLASH && !IsBreak(line[i]) {
      LiteralShift(p, line, i + 1);
    }
  }

  lemma EscapeShift(p: Text, line: Text, i: nat)
    requires i < |line|
    ensures Escape(p + line, |p| + i) == Escape(line, i).(end := |p| + Escape(line, i).end)
  {
    assert (p + line)[|p| + i] == line[i];
    HexShift(p, line, i + 1, 4);
    var n := HexRun(line, i + 1, 4);
    assert (p + line)[|p| + i + 1..|p| + i + 1 + n] == line[i + 1..i + 1 + n];
  }

  lemma {:induction false} HexShift(p: Text, line: Text, i: nat, most: nat)
    requires i <= |line|
    ensures HexRun(p + line, |p| + i, most) == HexRun(line, i, most)
    decreases most
  {
    assert CodeAt(p + line, |p| + i) == CodeAt(line, i);
    if most > 0 && IsHex(CodeAt(line, i)) {
      HexShift(p, line, i + 1, most - 1);
    }
  }

  /** A string carried over is read on from the start of the line as if its quote stood before it. */
  lemma StringCarries(line: Text, s: LineState)
    requires s.scanError == EndOfString
    ensures var x, p := Lex(Prefix(s.scanError) + line, 0), Literal(line, 0);
            && |Prefix(s.scanError)| == 1
            && x.kind == StringLiteral && x.value == p.value && x.error == p.error && x.end == 1 + p.end
  {
    hide Literal, RunEnd;
    LiteralShift([QUOTE], line, 0);
    assert ([QUOTE] + line)[0] == QUOTE;
  }

  function Step(k: Kind): int {
    if k == OpenBrace || k == OpenBracket then 1 else if k == CloseBrace || k == CloseBracket then -1 else 0
  }

  /** How many more brackets are opened than closed. */
  function Depth(xs: seq<Lexeme>): int {
    if xs == [] then 0 else Depth(xs[..|xs| - 1]) + Step(xs[|xs| - 1].kind)
  }

  /** Every bracket closed was opened before it. */
  predicate NeverBelow(xs: seq<Lexeme>) {
    forall k :: 0 <= k <= |xs| ==> Depth(xs[..k]) >= 0
  }

  function Climb(p: Parents, levels: nat): Parents {
    if levels == 0 then p else Climb(Pop(p), levels - 1)
  }

  /** Popping what a line left open leads back to where the line began. */
  lemma {:induction false} ParentsReturn(xs: seq<Lexeme>, s: LineState)
    requires NeverBelow(xs)
    ensures Depth(xs) >= 0 && Climb(StateAfter(xs, s).parents, Depth(xs)) == s.parents
  {
    assert xs[..|xs|] == xs;
    if xs != [] {
      var ys := xs[..|xs| - 1];
      assert forall k :: 0 <= k <= |ys| ==> ys[..k] == xs[..k];
      ParentsReturn(ys, s);
    }
  }

  /** A line whose brackets balance hands on the nesting it was given. */
  lemma BalancedLine(xs: seq<Lexeme>, s: LineState)
    requires NeverBelow(xs) && Depth(xs) == 0
    ensures StateAfter(xs, s).parents == s.parents
  {
    ParentsReturn(xs, s);
  }

  // ---------------------------------------------------------------- keys and values

  /** The kind of the last token that is neither blank, nor comment, nor unknown content. */
  function LastKind(xs: seq<Lexeme>): Option<Kind> {
    if xs == [] then None
    else
      var k := xs[|xs| - 1].kind;
      if k in {LineComment, BlockComment, LineBreak, Trivia, Unknown, EndOfFile} then LastKind(xs[..|xs| - 1])
      else Some(k)
  }

  /** Whether a colon comes last on the line, or came last before it when nothing has come on it. */
  predicate AfterColon(xs: seq<Lexeme>, s: LineState) {
    match LastKind(xs)
    case None => s.lastWasColon
    case Some(k) => k == Colon
  }

  lemma {:induction false} ColonIsRemembered(xs: seq<Lexeme>, s: LineState)
    ensures StateAfter(xs, s).lastWasColon <==> AfterColon(xs, s)
  {
    if xs != [] {
      ColonIsRemembered(xs[..|xs| - 1], s);
    }
  }

  /** The innermost bracket around the end of a line: one opened on it, or one carried in, some levels up. */
  datatype Bracket = Opened(at: nat) | Carried(levels: nat)

  /** Looking back over a line, past as many opened brackets as were closed after them. */
  function Innermost(xs: seq<Lexeme>, closed: nat): Bracket {
    if xs == [] then Carried(closed)
    else
      var ys, step := xs[..|xs| - 1], Step(xs[|xs| - 1].kind);
      if step == -1 then Innermost(ys, closed + 1)
      else if step == 0 then Innermost(ys, closed)
      else if closed > 0 then Innermost(ys, closed - 1)
      else Opened(|ys|)
  }

  /** A bracket found that way is an opened one, and whatever is opened after it is closed again. */
  lemma {:induction false} InnermostEncloses(xs: seq<Lexeme>, closed: nat)
    requires Innermost(xs, closed).Opened?
    ensures var k := Innermost(xs, closed).at;
            && k < |xs| && Step(xs[k].kind) == 1 && Depth(xs[k + 1..]) == closed && NeverBelow(xs[k + 1..])
  {
    hide Depth, NeverBelow;
    var ys, step := xs[..|xs| - 1], Step(xs[|xs| - 1].kind);
    if step == 1 && closed == 0 {
      assert xs[|ys| + 1..] == [];
      DepthNone();
    } else {
      InnermostEncloses(ys, closed - step);
      var k := Innermost(xs, closed).at;
      assert xs[k + 1..] == ys[k + 1..] + [xs[|ys|]];
      DepthAppend(ys[k + 1..], xs[|ys|]);
    }
  }

  lemma DepthNone()
    ensures Depth([]) == 0 && NeverBelow([])
  {
  }

  lemma DepthAppend(ys: seq<Lexeme>, x: Lexeme)
    ensures Depth(ys + [x]) == Depth(ys) + Step(x.kind)
    ensures NeverBelow(ys) && Depth(ys) + Step(x.kind) >= 0 ==> NeverBelow(ys + [x])
  {
    var zs := ys + [x];
    assert zs[..|ys|] == ys && zs[..|zs|] == zs;
    forall k | 0 <= k <= |ys|
      ensures zs[..k] == ys[..k]
    {
    }
  }

  predicate InArray(xs: seq<Lexeme>, s: LineState) {
    match Innermost(xs, 0)
    case Opened(k) => k < |xs| && xs[k].kind == OpenBracket
    case Carried(levels) => var p := Climb(s.parents, levels); p.Nested? && p.inArray
  }

  lemma {:induction false} ParentsAre(xs: seq<Lexeme>, s: LineState, closed: nat)
    ensures var p := Climb(StateAfter(xs, s).parents, closed);
            match Innermost(xs, closed)
            case Opened(k) => k < |xs| && p.Nested? && (p.inArray <==> xs[k].kind == OpenBracket)
            case Carried(levels) => p == Climb(s.parents, levels)
  {
    if xs != [] {
      var ys, step := xs[..|xs| - 1], Step(xs[|xs| - 1].kind);
      if step != 1 || closed > 0 {
        ParentsAre(ys, s, closed - step);
      }
    }
  }

  /** A string is a value, whatever preceded it, exactly when a colon comes before it or the innermost bracket still
      open around it is an array's; otherwise it is a key. */
  lemma StringScope(tokens: seq<Info>, xs: seq<Lexeme>, s: LineState, prefix: nat, delta: int, m: nat)
    requires TokensFit(tokens, xs, s, prefix, delta) && m < |xs| && xs[m].kind == StringLiteral
    ensures tokens[m].scope == if AfterColon(xs[..m], s) || InArray(xs[..m], s) then StringValue else StringKey
  {
    hide StateAfter, AfterColon, Innermost;
    ColonIsRemembered(xs[..m], s);
    ParentsAre(xs[..m], s, 0);
  }
}
