/** Applying a batch of text edits: an in-place merge sort by start position, then splicing from last to first. */
module TextEdits {
  import opened TextDocuments

  datatype TextEdit = TextEdit(start: Position, end: Position, newText: Text)

  /** How applyEdits compares two edits: by line, then by character, of their starts. */
  function Compare(a: TextEdit, b: TextEdit): int {
    var k := a.start.line - b.start.line;
    if k == 0 then a.start.character - b.start.character else k
  }

  // ---------------------------------------------------------------- stable sorting

  predicate Ascending(s: seq<TextEdit>) {
    forall i, j :: 0 <= i < j < |s| ==> Compare(s[i], s[j]) <= 0
  }

  /** The edits starting at a position, in order. */
  function StartingAt(s: seq<TextEdit>, p: Position): seq<TextEdit> {
    if s == [] then [] else (if s[0].start == p then [s[0]] else []) + StartingAt(s[1..], p)
  }

  /** Sorted, the same edits, and those of one position in their original order. */
  ghost predicate StableSort(sorted: seq<TextEdit>, s: seq<TextEdit>) {
    Ascending(sorted) && forall p :: StartingAt(sorted, p) == StartingAt(s, p)
  }

  lemma {:induction false} StartingAppend(a: seq<TextEdit>, b: seq<TextEdit>, p: Position)
    ensures StartingAt(a + b, p) == StartingAt(a, p) + StartingAt(b, p)
  {
    if a == [] {
      assert a + b == b;
    } else {
      assert (a + b)[1..] == a[1..] + b;
      StartingAppend(a[1..], b, p);
    }
  }

  /** An edit of the sequence shows up under its own position, and only there. */
  lemma {:induction false} StartingHas(s: seq<TextEdit>, i: nat)
    requires i < |s|
    ensures s[i] in StartingAt(s, s[i].start)
  {
    if i > 0 {
      StartingHas(s[1..], i - 1);
    }
  }

  lemma {:induction false} StartingFrom(s: seq<TextEdit>, p: Position, e: TextEdit)
    requires e in StartingAt(s, p)
    ensures e in s && e.start == p
  {
    if s[0].start != p || s[0] != e {
      StartingFrom(s[1..], p, e);
    }
  }

  lemma StartingTail(s: seq<TextEdit>, p: Position)
    requires s != []
    ensures StartingAt(s[1..], p) == if s[0].start == p then StartingAt(s, p)[1..] else StartingAt(s, p)
  {
  }

  /** There is only one stable sort of a sequence. */
  lemma {:induction false} StableSortUnique(x: seq<TextEdit>, y: seq<TextEdit>, s: seq<TextEdit>)
    requires StableSort(x, s) && StableSort(y, s)
    ensures x == y
    decreases |x|
  {
    if x == [] {
      if y != [] {
        HeadsAgree(y, x, s);
      }
    } else {
      HeadsAgree(x, y, s);
      forall p
        ensures StartingAt(y[1..], p) == StartingAt(x[1..], p)
      {
        StartingTail(x, p);
        StartingTail(y, p);
        assert StartingAt(x, p) == StartingAt(y, p);
      }
      StableSortUnique(x[1..], y[1..], x[1..]);
      assert x == [x[0]] + x[1..] && y == [y[0]] + y[1..];
    }
  }

  lemma HeadsAgree(x: seq<TextEdit>, y: seq<TextEdit>, s: seq<TextEdit>)
    requires StableSort(x, s) && StableSort(y, s) && x != []
    ensures y != [] && x[0] == y[0]
  {
    var p := x[0].start;
    assert StartingAt(x, p) == StartingAt(y, p);
    StartingHas(x, 0);
    StartingFrom(y, p, x[0]);
    var q := y[0].start;
    assert StartingAt(x, q) == StartingAt(y, q);
    StartingHas(y, 0);
    StartingFrom(x, q, y[0]);
    var i :| 0 <= i < |y| && y[i] == x[0];
    var j :| 0 <= j < |x| && x[j] == y[0];
    if i > 0 && j > 0 {
      assert Compare(y[0], y[i]) <= 0 && Compare(x[0], x[j]) <= 0;
      assert p == q;
    }
    assert StartingAt(x, p)[0] == x[0];
  }

  /** The outcome of the merge loops, from what is left of the two halves. */
  function Merge(g: seq<TextEdit>, c: seq<TextEdit>): seq<TextEdit>
    decreases |g| + |c|
  {
    if g == [] then c
    else if c == [] then g
    else if Compare(g[0], c[0]) <= 0 then [g[0]] + Merge(g[1..], c)
    else [c[0]] + Merge(g, c[1..])
  }

  lemma {:induction false} MergeStarting(g: seq<TextEdit>, c: seq<TextEdit>, p: Position)
    requires Ascending(g) && Ascending(c)
    ensures StartingAt(Merge(g, c), p) == StartingAt(g, p) + StartingAt(c, p)
    decreases |g| + |c|
  {
    if g != [] && c != [] {
      var m := Merge(g, c);
      if Compare(g[0], c[0]) <= 0 {
        MergeStarting(g[1..], c, p);
        assert m[1..] == Merge(g[1..], c);
      } else {
        MergeStarting(g, c[1..], p);
        assert m[1..] == Merge(g, c[1..]);
        if c[0].start == p {
          NoneStarting(g, p);
        }
      }
    }
  }

  /** Where no edit starts at a position, none is listed under it. */
  lemma {:induction false} NoneStarting(g: seq<TextEdit>, p: Position)
    requires forall i :: 0 <= i < |g| ==> g[i].start != p
    ensures StartingAt(g, p) == []
  {
    if g != [] {
      NoneStarting(g[1..], p);
    }
  }

  lemma {:induction false} MergeAscending(g: seq<TextEdit>, c: seq<TextEdit>)
    requires Ascending(g) && Ascending(c)
    ensures Ascending(Merge(g, c)) && |Merge(g, c)| == |g| + |c|
    ensures forall e :: e in Merge(g, c) ==> e in g || e in c
    decreases |g| + |c|
  {
    if g != [] && c != [] {
      if Compare(g[0], c[0]) <= 0 {
        MergeAscending(g[1..], c);
        ConsAscending(g[0], Merge(g[1..], c));
      } else {
        MergeAscending(g, c[1..]);
        ConsAscending(c[0], Merge(g, c[1..]));
      }
    }
  }

  lemma ConsAscending(e: TextEdit, s: seq<TextEdit>)
    requires Ascending(s) && forall x :: x in s ==> Compare(e, x) <= 0
    ensures Ascending([e] + s)
  {
  }

  lemma ShortStable(s: seq<TextEdit>)
    requires |s| <= 1
    ensures StableSort(s, s)
  {
  }

  /** The vendored merge sort, writing its result over its argument. */
  method MergeSort(o: array<TextEdit>)
    modifies o
    ensures StableSort(o[..], old(o[..]))
    decreases o.Length
  {
    ghost var was := o[..];
    if o.Length <= 1 {
      ShortStable(was);
      return;
    }
    hide Merge, StableSort;
    var u := o.Length / 2;
    var g := new TextEdit[u](i requires 0 <= i < u reads o => o[i]);
    var c := new TextEdit[o.Length - u](i requires 0 <= i < o.Length - u reads o => o[u + i]);
    assert g[..] == was[..u] && c[..] == was[u..] && o[..] == was;
    MergeSort(g);
    MergeSort(c);
    MergeInto(g, c, o);
    MergeStable(g[..], c[..], was, u);
  }

  /** Merging the stable sorts of two halves is a stable sort of the whole. */
  lemma MergeStable(g: seq<TextEdit>, c: seq<TextEdit>, s: seq<TextEdit>, u: nat)
    requires u <= |s| && StableSort(g, s[..u]) && StableSort(c, s[u..])
    ensures StableSort(Merge(g, c), s)
  {
    hide Merge, StartingAt, Ascending;
    forall p
      ensures StartingAt(Merge(g, c), p) == StartingAt(s, p)
    {
      MergeStarting(g, c, p);
      StartingAppend(s[..u], s[u..], p);
      assert s == s[..u] + s[u..];
      assert StartingAt(g, p) == StartingAt(s[..u], p) && StartingAt(c, p) == StartingAt(s[u..], p);
    }
    MergeAscending(g, c);
  }

  /** One step of the merge, after what is done already. */
  lemma MergeTakes(done: seq<TextEdit>, g: seq<TextEdit>, c: seq<TextEdit>, v: nat, d: nat)
    requires v < |g| && d < |c|
    ensures done + Merge(g[v..], c[d..]) ==
            if Compare(g[v], c[d]) <= 0 then done + [g[v]] + Merge(g[v + 1..], c[d..])
            else done + [c[d]] + Merge(g[v..], c[d + 1..])
  {
    assert g[v..][1..] == g[v + 1..] && c[d..][1..] == c[d + 1..];
  }

  method MergeInto(g: array<TextEdit>, c: array<TextEdit>, o: array<TextEdit>)
    requires o.Length == g.Length + c.Length && o != g && o != c
    modifies o
    ensures o[..] == Merge(g[..], c[..])
  {
    hide Merge, Compare;
    var v, d, k := 0, 0, 0;
    ghost var gs, cs := g[..], c[..];
    assert o[..0] + Merge(gs[0..], cs[0..]) == Merge(gs, cs);
    while v < g.Length && d < c.Length
      invariant v <= g.Length && d <= c.Length && k == v + d && g[..] == gs && c[..] == cs
      invariant Merge(gs, cs) == o[..k] + Merge(gs[v..], cs[d..])
    {
      ghost var done := o[..k];
      MergeTakes(done, gs, cs, v, d);
      if Compare(g[v], c[d]) <= 0 {
        o[k] := g[v];
        k, v := k + 1, v + 1;
      } else {
        o[k] := c[d];
        k, d := k + 1, d + 1;
      }
      assert o[..k] == done + [o[k - 1]];
    }
    MergeRest(o[..k], gs[v..], cs[d..]);
    CopyRests(g, v, c, d, o, k);
  }

  /** The two loops that follow the merge: what is left of either half. */
  method CopyRests(g: array<TextEdit>, v: nat, c: array<TextEdit>, d: nat, o: array<TextEdit>, k: nat)
    requires o != g && o != c && v <= g.Length && d <= c.Length && k + g.Length - v + c.Length - d == o.Length
    modifies o
    ensures o[..] == old(o[..k]) + g[v..] + c[d..]
  {
    var n, v' := CopyRest(g, v, o, k);
    var m, d' := CopyRest(c, d, o, n);
    assert o[..] == o[..m];
  }

  method CopyRest(h: array<TextEdit>, v: nat, o: array<TextEdit>, k: nat) returns (k': nat, v': nat)
    requires o != h && v <= h.Length && k + h.Length - v <= o.Length
    modifies o
    ensures v' == h.Length && k' == k + h.Length - v
    ensures o[..k'] == old(o[..k]) + h[v..]
  {
    k', v' := k, v;
    while v' < h.Length
      invariant v <= v' <= h.Length && k' == k + v' - v
      invariant o[..k'] == old(o[..k]) + h[v..v']
    {
      o[k'] := h[v'];
      k', v' := k' + 1, v' + 1;
      assert o[..k'] == old(o[..k]) + h[v..v' - 1] + [h[v' - 1]];
    }
  }

  /** What the merge is when a half is used up. */
  lemma MergeRest(done: seq<TextEdit>, g: seq<TextEdit>, c: seq<TextEdit>)
    requires g == [] || c == []
    ensures done + Merge(g, c) == done + g + c
  {
  }

  // ---------------------------------------------------------------- what applying means

  /** An edit as offsets into one text: replace what lies from k up to p. */
  datatype Splice = Splice(k: nat, p: nat, text: Text)

  function Resolve(t: Text, e: TextEdit): (s: Splice)
    ensures s.k <= |t| && s.p <= |t|
  {
    OffsetInRange(t, e.start);
    OffsetInRange(t, e.end);
    Splice(OffsetIn(t, e.start), OffsetIn(t, e.end), e.newText)
  }

  function Resolved(t: Text, es: seq<TextEdit>): (r: seq<Splice>)
    ensures |r| == |es| && forall i :: 0 <= i < |es| ==> r[i] == Resolve(t, es[i])
  {
    seq(|es|, i requires 0 <= i < |es| => Resolve(t, es[i]))
  }

  predicate Within(t: Text, es: seq<Splice>) {
    forall i :: 0 <= i < |es| ==> es[i].k <= |t| && es[i].p <= |t|
  }

  /** No edit reaches into the next one. */
  predicate Apart(es: seq<Splice>) {
    forall i :: 0 <= i < |es| - 1 ==> es[i].p <= es[i + 1].k
  }

  predicate Forward(es: seq<Splice>) {
    forall i :: 0 <= i < |es| ==> es[i].k <= es[i].p
  }

  /** The new texts placed at an offset, in order. */
  function Inserts(es: seq<Splice>, i: nat): Text {
    if es == [] then [] else (if es[0].k == i then es[0].text else []) + Inserts(es[1..], i)
  }

  predicate Covered(es: seq<Splice>, i: nat) {
    exists e :: e in es && e.k <= i < e.p
  }

  /** Replacing all ranges at once: at every offset the new texts placed there, then the character unless replaced. */
  function Emit(t: Text, es: seq<Splice>, i: nat): Text
    requires i <= |t|
    decreases |t| - i
  {
    Inserts(es, i) + (if i == |t| then [] else (if Covered(es, i) then [] else [t[i]]) + Emit(t, es, i + 1))
  }

  function Simultaneous(t: Text, es: seq<Splice>): Text {
    Emit(t, es, 0)
  }

  /** The gaps between apart edits, and the new texts, from an offset on. */
  function Assemble(t: Text, es: seq<Splice>, a: nat): Text
    requires Within(t, es) && Apart(es) && a <= |t| && (es != [] ==> a <= es[0].k)
  {
    if es == [] then t[a..] else t[a..es[0].k] + es[0].text + Assemble(t, es[1..], es[0].p)
  }

  lemma AssembleCons(t: Text, es: seq<Splice>, a: nat)
    requires es != [] && Within(t, es) && Apart(es) && a <= es[0].k
    ensures Within(t, es[1..]) && Apart(es[1..]) && (|es| > 1 ==> es[0].p <= es[1..][0].k)
    ensures Assemble(t, es, a) == t[a..es[0].k] + es[0].text + Assemble(t, es[1..], es[0].p)
  {
  }

  lemma AssembleNone(t: Text, a: nat)
    requires a <= |t|
    ensures Within(t, []) && Apart([]) && Assemble(t, [], a) == t[a..]
  {
  }

  lemma Regroup(w: Text, x: Text, y: Text, z: Text)
    ensures (w + x) + y + z == w + (x + y + z)
  {
  }

  lemma AssembleDrop(t: Text, es: seq<Splice>, a: nat)
    requires Within(t, es) && Apart(es) && a <= |t| && (es != [] ==> a <= es[0].k)
    ensures Assemble(t, es, 0) == t[..a] + Assemble(t, es, a)
  {
    hide Assemble, Apart;
    if es == [] {
      AssembleNone(t, 0);
      AssembleNone(t, a);
    } else {
      AssembleCons(t, es, 0);
      AssembleCons(t, es, a);
      assert t[0..es[0].k] == t[..a] + t[a..es[0].k];
      Regroup(t[..a], t[a..es[0].k], es[0].text, Assemble(t, es[1..], es[0].p));
    }
  }

  /** All edits of an apart, forward sequence start at or after its head's end. */
  lemma {:induction false} StartsAfter(es: seq<Splice>, a: nat)
    requires Apart(es) && Forward(es) && (es != [] ==> a <= es[0].k)
    ensures forall e :: e in es ==> a <= e.k
  {
    if es != [] {
      StartsAfter(es[1..], es[0].p);
    }
  }

  lemma {:induction false} NoInserts(es: seq<Splice>, i: nat)
    requires forall e :: e in es ==> e.k != i
    ensures Inserts(es, i) == []
  {
    if es != [] {
      NoInserts(es[1..], i);
    }
  }

  lemma CoveredHead(es: seq<Splice>, i: nat)
    requires es != []
    ensures Covered(es, i) <==> es[0].k <= i < es[0].p || Covered(es[1..], i)
  {
    assert es == [es[0]] + es[1..];
  }

  lemma {:induction false} EmitSame(t: Text, x: seq<Splice>, y: seq<Splice>, i: nat)
    requires i <= |t|
    requires forall j: nat :: i <= j ==> Inserts(x, j) == Inserts(y, j) && (Covered(x, j) <==> Covered(y, j))
    ensures Emit(t, x, i) == Emit(t, y, i)
    decreases |t| - i
  {
    hide Inserts, Covered;
    if i < |t| {
      EmitSame(t, x, y, i + 1);
    }
  }

  /** An edit already passed no longer matters. */
  lemma EmitPassed(t: Text, es: seq<Splice>, i: nat)
    requires es != [] && es[0].k < i && es[0].p <= i <= |t|
    ensures Emit(t, es, i) == Emit(t, es[1..], i)
  {
    hide Emit;
    forall j: nat | i <= j
      ensures Inserts(es, j) == Inserts(es[1..], j) && (Covered(es, j) <==> Covered(es[1..], j))
    {
      CoveredHead(es, j);
    }
    EmitSame(t, es, es[1..], i);
  }

  /** Inside the head's range nothing is emitted. */
  lemma {:induction false} EmitReplaced(t: Text, es: seq<Splice>, i: nat)
    requires es != [] && es[0].k < i <= es[0].p <= |t| && Apart(es) && Forward(es)
    ensures Emit(t, es, i) == Emit(t, es[1..], es[0].p)
    decreases |t| - i
  {
    hide Emit, Covered, Inserts;
    if i == es[0].p {
      EmitPassed(t, es, i);
    } else {
      StartsAfter(es[1..], es[0].p);
      NoInserts(es[1..], i);
      InsertsHead(es, i);
      CoveredHead(es, i);
      EmitHere(t, es, i);
      EmitReplaced(t, es, i + 1);
    }
  }

  /** Splicing apart edits is replacing all their ranges at once. */
  lemma {:induction false} AssembleIsSimultaneous(t: Text, es: seq<Splice>, a: nat)
    requires Within(t, es) && Apart(es) && Forward(es) && a <= |t| && (es != [] ==> a <= es[0].k)
    ensures Assemble(t, es, a) == Emit(t, es, a)
    decreases |es|, |t| - a
  {
    hide Inserts, Emit, Assemble, Covered;
    StartsAfter(es, a);
    if es == [] {
      NothingPlaced(t, a);
    } else if a < es[0].k {
      AssembleStep(t, es, a);
      StartsAfter(es, es[0].k);
      NoInserts(es, a);
      NotCovered(es, a);
      EmitHere(t, es, a);
      AssembleIsSimultaneous(t, es, a + 1);
    } else {
      EmitHead(t, es);
      AssembleCons(t, es, a);
      AssembleIsSimultaneous(t, es[1..], es[0].p);
      assert t[a..a] == [];
    }
  }

  lemma {:induction false} NothingPlaced(t: Text, a: nat)
    requires a <= |t|
    ensures Assemble(t, [], a) == t[a..] == Emit(t, [], a)
    decreases |t| - a
  {
    if a < |t| {
      NothingPlaced(t, a + 1);
      assert t[a..] == [t[a]] + t[a + 1..];
    }
  }

  lemma NotCovered(es: seq<Splice>, a: nat)
    requires forall e :: e in es ==> a < e.k
    ensures !Covered(es, a)
  {
  }

  lemma AssembleStep(t: Text, es: seq<Splice>, a: nat)
    requires Within(t, es) && Apart(es) && es != [] && a < es[0].k
    ensures Assemble(t, es, a) == [t[a]] + Assemble(t, es, a + 1)
  {
    hide Assemble;
    AssembleCons(t, es, a);
    AssembleCons(t, es, a + 1);
    assert t[a..es[0].k] == [t[a]] + t[a + 1..es[0].k];
    Regroup([t[a]], t[a + 1..es[0].k], es[0].text, Assemble(t, es[1..], es[0].p));
  }

  /** At the head's start: its text, then everything after its range. */
  lemma EmitHead(t: Text, es: seq<Splice>)
    requires es != [] && Within(t, es) && Apart(es) && Forward(es)
    ensures Emit(t, es, es[0].k) == es[0].text + Emit(t, es[1..], es[0].p)
  {
    hide Emit, Inserts, Covered;
    var a := es[0].k;
    CoveredHead(es, a);
    if a < es[0].p {
      StartsAfter(es[1..], es[0].p);
      NoInserts(es[1..], a);
      EmitReplaced(t, es, a + 1);
      EmitRange(t, es, a);
    } else {
      if a < |t| {
        EmitPassed(t, es, a + 1);
      }
      EmitInsert(t, es, a);
    }
  }

  lemma Glue(all: Text, inserts: Text, w: Text, x: Text, y: Text, z: Text)
    requires all == inserts + (y + z) && inserts == w + x
    ensures all == w + (x + (y + z)) && (x == [] && y == [] ==> all == w + z)
  {
    assert (w + x) + (y + z) == w + (x + (y + z));
  }

  lemma EmitRange(t: Text, es: seq<Splice>, a: nat)
    requires es != [] && es[0].k == a < |t| && Covered(es, a) && Inserts(es[1..], a) == []
    ensures Emit(t, es, a) == es[0].text + Emit(t, es, a + 1)
  {
    hide *;
    EmitHere(t, es, a);
    InsertsHead(es, a);
    Glue(Emit(t, es, a), Inserts(es, a), es[0].text, [], [], Emit(t, es, a + 1));
  }

  lemma EmitInsert(t: Text, es: seq<Splice>, a: nat)
    requires es != [] && es[0].k == a <= |t| && (Covered(es, a) <==> Covered(es[1..], a))
    requires a < |t| ==> Emit(t, es, a + 1) == Emit(t, es[1..], a + 1)
    ensures Emit(t, es, a) == es[0].text + Emit(t, es[1..], a)
  {
    hide *;
    InsertsHead(es, a);
    EmitHere(t, es, a);
    EmitHere(t, es[1..], a);
    if a < |t| {
      var kept := if Covered(es, a) then [] else [t[a]];
      Glue(Emit(t, es, a), Inserts(es, a), es[0].text, Inserts(es[1..], a), kept, Emit(t, es, a + 1));
    }
  }

  lemma EmitHere(t: Text, es: seq<Splice>, i: nat)
    requires i <= |t|
    ensures i < |t| ==>
              Emit(t, es, i) == Inserts(es, i) + ((if Covered(es, i) then [] else [t[i]]) + Emit(t, es, i + 1))
    ensures i == |t| ==> Emit(t, es, i) == Inserts(es, i)
  {
    hide Covered, Inserts;
  }

  lemma InsertsHead(es: seq<Splice>, i: nat)
    requires es != []
    ensures Inserts(es, i) == (if es[0].k == i then es[0].text else []) + Inserts(es[1..], i)
  {
  }

  /** What replacing all ranges at once is, edit by edit: up to the first range the text stands, its new text takes its
      place, and after it the other edits have done what they do without it; no edit leaves the text as it is. */
  lemma ReplacesFirst(t: Text, es: seq<Splice>)
    requires Within(t, es) && Apart(es) && Forward(es)
    ensures es == [] ==> Simultaneous(t, es) == t
    ensures es != [] ==>
              var e, rest := es[0], Simultaneous(t, es[1..]);
              && e.p <= |rest| && rest[..e.p] == t[..e.p]
              && Simultaneous(t, es) == t[..e.k] + e.text + rest[e.p..]
  {
    hide Emit, Assemble, Apart;
    AssembleIsSimultaneous(t, es, 0);
    if es == [] {
      AssembleNone(t, 0);
    } else {
      var e := es[0];
      AssembleCons(t, es, 0);
      AssembleDrop(t, es[1..], e.p);
      AssembleIsSimultaneous(t, es[1..], 0);
      assert t[0..e.k] == t[..e.k];
    }
  }

  // ---------------------------------------------------------------- edits that end before they start

  predicate StartsAscend(es: seq<Splice>) {
    forall i :: 0 <= i < |es| - 1 ==> es[i].k <= es[i + 1].k
  }

  /** An edit that ends before it starts inserts its text and, again, what lies between its end and its start. */
  function Straight(t: Text, e: Splice): (s: Splice)
    requires e.k <= |t| && e.p <= |t|
    ensures s.k == e.k && s.k <= s.p <= |t|
    ensures e.k <= e.p ==> s == e
    ensures e.p < e.k ==> s.p == e.k && |s.text| == |e.text| + e.k - e.p
  {
    if e.k <= e.p then e else Splice(e.k, e.k, e.text + t[e.p..e.k])
  }

  function Straightened(t: Text, es: seq<Splice>): (r: seq<Splice>)
    requires Within(t, es)
    ensures |r| == |es| && forall i :: 0 <= i < |es| ==> r[i] == Straight(t, es[i])
  {
    seq(|es|, i requires 0 <= i < |es| => Straight(t, es[i]))
  }

  lemma StraightenedFits(t: Text, es: seq<Splice>)
    requires Within(t, es) && Apart(es) && StartsAscend(es)
    ensures Within(t, Straightened(t, es)) && Apart(Straightened(t, es)) && Forward(Straightened(t, es))
    ensures Forward(es) ==> Straightened(t, es) == es
  {
  }

  lemma AssembleFrom(t: Text, es: seq<Splice>, a: nat, b: nat)
    requires Within(t, es) && Apart(es) && a <= b <= |t| && (es != [] ==> b <= es[0].k)
    ensures Assemble(t, es, a) == t[a..b] + Assemble(t, es, b)
  {
    hide Assemble, Apart;
    if es == [] {
      AssembleNone(t, a);
      AssembleNone(t, b);
      assert t[a..] == t[a..b] + t[b..];
    } else {
      AssembleCons(t, es, a);
      AssembleCons(t, es, b);
      assert t[a..es[0].k] == t[a..b] + t[b..es[0].k];
      Regroup(t[a..b], t[b..es[0].k], es[0].text, Assemble(t, es[1..], es[0].p));
    }
  }

  /** Splicing apart edits gives what splicing them straightened gives. */
  lemma {:induction false} AssembleStraight(t: Text, es: seq<Splice>, a: nat)
    requires Within(t, es) && Apart(es) && StartsAscend(es) && a <= |t| && (es != [] ==> a <= es[0].k)
    ensures var ss := Straightened(t, es);
            Within(t, ss) && Apart(ss) && Assemble(t, es, a) == Assemble(t, ss, a)
    decreases |es|
  {
    hide Assemble;
    StraightenedFits(t, es);
    var ss := Straightened(t, es);
    if es != [] {
      var e, s, rest := es[0], ss[0], es[1..];
      assert ss[1..] == Straightened(t, rest);
      AssembleCons(t, es, a);
      AssembleCons(t, ss, a);
      AssembleStraight(t, rest, s.p);
      if e.p < e.k {
        AssembleFrom(t, rest, e.p, e.k);
        Turned(t[a..e.k], e.text, t[e.p..e.k], Assemble(t, rest, e.k));
      }
    } else {
      assert ss == es;
    }
  }

  lemma Turned(w: Text, x: Text, y: Text, z: Text)
    ensures w + x + (y + z) == w + (x + y) + z
  {
  }

  lemma CoveredStraight(t: Text, es: seq<Splice>, j: nat)
    requires Within(t, es)
    ensures Covered(Straightened(t, es), j) <==> Covered(es, j)
  {
    var ss := Straightened(t, es);
    if e :| e in es && e.k <= j < e.p {
      var i :| 0 <= i < |es| && es[i] == e;
      assert ss[i] in ss;
    }
    if s :| s in ss && s.k <= j < s.p {
      var i :| 0 <= i < |ss| && ss[i] == s;
      assert es[i] in es;
    }
  }

  /** Straightening only lengthens what is inserted, where an edit ends before it starts. */
  lemma {:induction false} InsertsStraight(t: Text, es: seq<Splice>, j: nat)
    requires Within(t, es)
    ensures |Inserts(Straightened(t, es), j)| >= |Inserts(es, j)|
    ensures (exists e :: e in es && e.k == j && e.p < e.k) ==> |Inserts(Straightened(t, es), j)| > |Inserts(es, j)|
  {
    if es != [] {
      var ss := Straightened(t, es);
      assert ss[1..] == Straightened(t, es[1..]);
      InsertsStraight(t, es[1..], j);
      InsertsHead(es, j);
      InsertsHead(ss, j);
      assert es == [es[0]] + es[1..];
    }
  }

  lemma {:induction false} EmitLonger(t: Text, es: seq<Splice>, i: nat)
    requires Within(t, es) && i <= |t|
    ensures |Emit(t, Straightened(t, es), i)| >= |Emit(t, es, i)|
    ensures (exists e :: e in es && i <= e.k && e.p < e.k) ==> |Emit(t, Straightened(t, es), i)| > |Emit(t, es, i)|
    decreases |t| - i
  {
    hide Emit, Inserts, Covered;
    var ss := Straightened(t, es);
    InsertsStraight(t, es, i);
    CoveredStraight(t, es, i);
    EmitHere(t, es, i);
    EmitHere(t, ss, i);
    if i < |t| {
      EmitLonger(t, es, i + 1);
    }
  }

  /** What splicing apart edits gives is all their ranges replaced at once, those that end before they start being
      straightened; it is the replacement of the edits as they are exactly when none ends before it starts. */
  lemma AssembleMeans(t: Text, es: seq<Splice>)
    requires Within(t, es) && Apart(es) && StartsAscend(es)
    ensures Assemble(t, es, 0) == Simultaneous(t, Straightened(t, es))
    ensures Assemble(t, es, 0) == Simultaneous(t, es) <==> Forward(es)
  {
    hide Assemble, Emit, Apart, StartsAscend;
    StraightenedFits(t, es);
    AssembleStraight(t, es, 0);
    AssembleIsSimultaneous(t, Straightened(t, es), 0);
    if !Forward(es) {
      var i :| 0 <= i < |es| && !(es[i].k <= es[i].p);
      assert es[i] in es;
      EmitLonger(t, es, 0);
    }
  }

  // ---------------------------------------------------------------- the order of the input

  /** Edits starting at one offset start at one position. */
  predicate Plain(t: Text, s: seq<TextEdit>) {
    forall x, y :: x in s && y in s && OffsetIn(t, x.start) == OffsetIn(t, y.start) ==> x.start == y.start
  }

  function Texts(s: seq<TextEdit>): Text {
    if s == [] then [] else s[0].newText + Texts(s[1..])
  }

  lemma SameEdits(sorted: seq<TextEdit>, s: seq<TextEdit>)
    requires StableSort(sorted, s)
    ensures forall e :: e in sorted <==> e in s
  {
    forall e | e in sorted
      ensures e in s
    {
      var i :| 0 <= i < |sorted| && sorted[i] == e;
      StartingHas(sorted, i);
      assert StartingAt(sorted, e.start) == StartingAt(s, e.start);
      StartingFrom(s, e.start, e);
    }
    forall e | e in s
      ensures e in sorted
    {
      var i :| 0 <= i < |s| && s[i] == e;
      StartingHas(s, i);
      assert StartingAt(sorted, e.start) == StartingAt(s, e.start);
      StartingFrom(sorted, e.start, e);
    }
  }

  /** The texts placed at an offset are those of the one position mapping to it. */
  lemma {:induction false} InsertsStarting(t: Text, s: seq<TextEdit>, i: nat, q: Position)
    requires forall e :: e in s ==> (OffsetIn(t, e.start) == i <==> e.start == q)
    ensures Inserts(Resolved(t, s), i) == Texts(StartingAt(s, q))
  {
    hide OffsetIn;
    if s != [] {
      InsertsStarting(t, s[1..], i, q);
      assert Resolved(t, s)[1..] == Resolved(t, s[1..]);
      TextsAppend(if s[0].start == q then [s[0]] else [], StartingAt(s[1..], q));
    }
  }

  lemma TextsAppend(a: seq<TextEdit>, b: seq<TextEdit>)
    requires |a| <= 1
    ensures Texts(a + b) == Texts(a) + Texts(b)
  {
    if a == [] {
      assert a + b == b;
    } else {
      assert (a + b)[1..] == b;
    }
  }

  /** Sorting the edits stably does not change what replacing them all at once gives. */
  lemma SortKeepsMeaning(t: Text, sorted: seq<TextEdit>, s: seq<TextEdit>)
    requires StableSort(sorted, s) && Plain(t, s)
    ensures Simultaneous(t, Resolved(t, sorted)) == Simultaneous(t, Resolved(t, s))
  {
    hide OffsetIn, Inserts, Covered, StableSort;
    SameEdits(sorted, s);
    var x, y := Resolved(t, sorted), Resolved(t, s);
    forall j: nat
      ensures Inserts(x, j) == Inserts(y, j) && (Covered(x, j) <==> Covered(y, j))
    {
      InsertsSorted(t, sorted, s, j);
      CoveredSorted(t, sorted, s, j);
    }
    EmitSame(t, x, y, 0);
  }

  lemma InsertsSorted(t: Text, sorted: seq<TextEdit>, s: seq<TextEdit>, j: nat)
    requires StableSort(sorted, s) && Plain(t, s) && forall e :: e in sorted <==> e in s
    ensures Inserts(Resolved(t, sorted), j) == Inserts(Resolved(t, s), j)
  {
    hide OffsetIn;
    if e :| e in s && OffsetIn(t, e.start) == j {
      InsertsStarting(t, sorted, j, e.start);
      InsertsStarting(t, s, j, e.start);
    } else {
      NoInserts(Resolved(t, sorted), j);
      NoInserts(Resolved(t, s), j);
    }
  }

  lemma CoveredSorted(t: Text, sorted: seq<TextEdit>, s: seq<TextEdit>, j: nat)
    requires forall e :: e in sorted <==> e in s
    ensures Covered(Resolved(t, sorted), j) <==> Covered(Resolved(t, s), j)
  {
    hide OffsetIn, Resolve;
    var x, y := Resolved(t, sorted), Resolved(t, s);
    assert forall e :: e in sorted ==> Resolve(t, e) in y by {
      forall e | e in sorted ensures Resolve(t, e) in y {
        var i :| 0 <= i < |s| && s[i] == e;
        assert y[i] == Resolve(t, e);
      }
    }
    assert forall e :: e in s ==> Resolve(t, e) in x by {
      forall e | e in s ensures Resolve(t, e) in x {
        var i :| 0 <= i < |sorted| && sorted[i] == e;
        assert x[i] == Resolve(t, e);
      }
    }
    assert forall z :: z in x <==> z in y;
  }

  // ---------------------------------------------------------------- applying

  datatype Outcome = Applied(text: Text) | OverlappingEdit

  /** The JavaScript substring: both ends clamped to the text, the smaller one first. */
  function Substring(s: Text, a: int, b: int): Text {
    var x, y := Clamp(a, |s|), Clamp(b, |s|);
    if x <= y then s[x..y] else s[y..x]
  }

  /** Starts sorted by position have sorted offsets. */
  lemma SortedOffsets(t: Text, s: seq<TextEdit>, i: nat)
    requires Ascending(s) && i + 1 < |s|
    ensures Resolve(t, s[i]).k <= Resolve(t, s[i + 1]).k
  {
    hide OffsetIn;
    assert Compare(s[i], s[i + 1]) <= 0;
    OffsetMonotone(t, s[i].start, s[i + 1].start);
  }

  lemma SpliceStep(t: Text, u: Text, es: seq<Splice>, e: Splice)
    requires Within(t, es) && Apart(es) && e.k <= |t| && e.p <= |t| && (es != [] ==> e.p <= es[0].k && e.k <= es[0].k)
    requires u == Assemble(t, es, 0)
    ensures Apart([e] + es) && Within(t, [e] + es)
    ensures Substring(u, 0, e.k) + e.text + Substring(u, e.p, |u|) == Assemble(t, [e] + es, 0)
  {
    hide Assemble;
    assert ([e] + es)[0] == e && ([e] + es)[1..] == es;
    AssembleCons(t, [e] + es, 0);
    assert Substring(u, 0, e.k) == t[0..e.k] by {
      AssembleDrop(t, es, e.k);
      assert t[0..e.k] == t[..e.k] == u[..e.k] == u[0..e.k];
    }
    assert Substring(u, e.p, |u|) == Assemble(t, es, e.p) by {
      AssembleDrop(t, es, e.p);
      assert u[e.p..] == u[e.p..|u|];
    }
  }

  /**
   * Sorts the edits in place, then splices them into the text from the last to the first. It fails exactly when an
   * edit reaches into the next one in that order; otherwise every gap is kept and every range replaced.
   */
  method ApplyEdits(doc: TextDocument, edits: array<TextEdit>) returns (r: Outcome)
    requires doc.Valid()
    modifies doc`lineOffsets, edits
    ensures doc.Valid() && StableSort(edits[..], old(edits[..]))
    ensures forall i, j :: 0 <= i < j < edits.Length ==> NotAfter(edits[i].start, edits[j].start)
    ensures r.Applied? <==>
              forall i :: 0 <= i < edits.Length - 1 ==>
                OffsetIn(doc.content, edits[i].end) <= OffsetIn(doc.content, edits[i + 1].start)
    ensures r.Applied? <==> Apart(Resolved(doc.content, edits[..]))
    ensures r.Applied? ==>
              r.text == Simultaneous(doc.content, Straightened(doc.content, Resolved(doc.content, edits[..])))
    ensures r.Applied? ==>
              (r.text == Simultaneous(doc.content, Resolved(doc.content, edits[..])) <==>
               Forward(Resolved(doc.content, edits[..])))
    ensures r.Applied? && Plain(doc.content, old(edits[..])) ==>
              (r.text == Simultaneous(doc.content, Resolved(doc.content, old(edits[..]))) <==>
               Forward(Resolved(doc.content, old(edits[..]))))
  {
    hide OffsetIn, StableSort, Simultaneous, Plain, Apart, Assemble;
    var t := doc.content;
    var u := t;
    MergeSort(edits);
    ghost var s := edits[..];
    ghost var es := Resolved(t, s);
    var c := |u|;
    var v := edits.Length;
    NothingSpliced(t);
    assert es[v..] == [];
    while v > 0
      invariant 0 <= v <= |s| && edits[..] == s && doc.Valid() && doc.content == t
      invariant Within(t, es[v..]) && Apart(es[v..]) && u == Assemble(t, es[v..], 0)
      invariant c == if v < |s| then es[v].k else |t|
    {
      v := v - 1;
      var k := doc.OffsetAt(edits[v].start);
      var p := doc.OffsetAt(edits[v].end);
      assert es[v] == Splice(k, p, edits[v].newText);
      if p > c {
        NotApart(es, v);
        ApartMeans(t, s, old(edits[..]));
        return OverlappingEdit;
      }
      assert es[v..] == [es[v]] + es[v + 1..];
      if v + 1 < |s| {
        SortedByStart(t, s, old(edits[..]), v);
      }
      SpliceStep(t, u, es[v + 1..], es[v]);
      u := Substring(u, 0, k) + edits[v].newText + Substring(u, p, |u|);
      c := k;
    }
    assert es[0..] == es;
    ApartMeans(t, s, old(edits[..]));
    Meaning(t, es, s, old(edits[..]));
    r := Applied(u);
  }

  /** Sorted edits are apart when none ends after the next one starts. */
  lemma ApartMeans(t: Text, s: seq<TextEdit>, before: seq<TextEdit>)
    requires StableSort(s, before)
    ensures forall i, j :: 0 <= i < j < |s| ==> NotAfter(s[i].start, s[j].start)
    ensures Apart(Resolved(t, s)) <==>
              forall i :: 0 <= i < |s| - 1 ==> OffsetIn(t, s[i].end) <= OffsetIn(t, s[i + 1].start)
  {
    hide OffsetIn, StartingAt;
    var es := Resolved(t, s);
    assert forall i :: 0 <= i < |s| ==> es[i].k == OffsetIn(t, s[i].start) && es[i].p == OffsetIn(t, s[i].end);
  }

  lemma NothingSpliced(t: Text)
    ensures Apart([]) && Within(t, []) && Assemble(t, [], 0) == t
  {
  }

  lemma NotApart(es: seq<Splice>, v: nat)
    requires v + 1 < |es| && es[v].p > es[v + 1].k
    ensures !Apart(es)
  {
  }

  lemma SortedByStart(t: Text, s: seq<TextEdit>, was: seq<TextEdit>, v: nat)
    requires StableSort(s, was) && v + 1 < |s|
    ensures Resolve(t, s[v]).k <= Resolve(t, s[v + 1]).k
  {
    SortedOffsets(t, s, v);
  }

  lemma AllSorted(t: Text, s: seq<TextEdit>, was: seq<TextEdit>)
    requires StableSort(s, was)
    ensures StartsAscend(Resolved(t, s))
    ensures Forward(Resolved(t, s)) <==> Forward(Resolved(t, was))
  {
    hide OffsetIn;
    forall i | 0 <= i < |s| - 1
      ensures Resolve(t, s[i]).k <= Resolve(t, s[i + 1]).k
    {
      SortedOffsets(t, s, i);
    }
    SameEdits(s, was);
    ForwardOf(t, s);
    ForwardOf(t, was);
  }

  lemma ForwardOf(t: Text, s: seq<TextEdit>)
    ensures Forward(Resolved(t, s)) <==> forall e :: e in s ==> Resolve(t, e).k <= Resolve(t, e).p
  {
    hide Resolve;
    var r := Resolved(t, s);
    if Forward(r) {
      forall e | e in s
        ensures Resolve(t, e).k <= Resolve(t, e).p
      {
        var i :| 0 <= i < |s| && s[i] == e;
        assert r[i] == Resolve(t, e);
      }
    }
  }

  lemma Meaning(t: Text, es: seq<Splice>, s: seq<TextEdit>, was: seq<TextEdit>)
    requires es == Resolved(t, s) && StableSort(s, was) && Apart(es)
    ensures Within(t, es)
    ensures Assemble(t, es, 0) == Simultaneous(t, Straightened(t, es))
    ensures Assemble(t, es, 0) == Simultaneous(t, es) <==> Forward(es)
    ensures Forward(es) <==> Forward(Resolved(t, was))
    ensures Plain(t, was) ==> Simultaneous(t, es) == Simultaneous(t, Resolved(t, was))
  {
    hide OffsetIn, StableSort, Plain, Emit, Assemble, Forward, Apart, StartsAscend;
    AllSorted(t, s, was);
    AssembleMeans(t, es);
    if Plain(t, was) {
      SortKeepsMeaning(t, s, was);
    }
  }
}
