/** One active session per client: Create's LIST-then-CREATE, GetActive, and every run of the two with the operator. */
module Admission {
  import opened LabSessions

  datatype Session = Session(client: string, phase: Phase)

  datatype Shown = ShownProvisioning | ShownReady | ShownPaused | ShownExpired

  /** The status the server shows for a phase: a failed session counts as expired. */
  function ShownStatus(phase: Phase): Shown {
    match phase
    case Ready => ShownReady
    case Paused => ShownPaused
    case Failed => ShownExpired
    case Expired => ShownExpired
    case _ => ShownProvisioning
  }

  /** Create's check over the listed sessions: refused while one has neither failed nor expired. */
  method Refuses(listed: seq<Session>) returns (exists_: bool)
    ensures exists_ <==> exists i :: 0 <= i < |listed| && listed[i].phase != Failed && listed[i].phase != Expired
  {
    for i := 0 to |listed|
      invariant forall j :: 0 <= j < i ==> listed[j].phase == Failed || listed[j].phase == Expired
    {
      if listed[i].phase != Failed && listed[i].phase != Expired {
        return true;
      }
    }
    return false;
  }

  /** GetActive: the first listed session not shown as expired, which is the first neither failed nor expired. */
  method GetActive(listed: seq<Session>) returns (found: Option<nat>)
    ensures found.Some? ==>
              && found.value < |listed| && listed[found.value].phase !in {Failed, Expired}
              && forall j :: 0 <= j < found.value ==> listed[j].phase in {Failed, Expired}
    ensures found.None? ==> forall j :: 0 <= j < |listed| ==> listed[j].phase in {Failed, Expired}
  {
    for i := 0 to |listed|
      invariant forall j :: 0 <= j < i ==> ShownStatus(listed[j].phase) == ShownExpired
    {
      if ShownStatus(listed[i].phase) != ShownExpired {
        return Some(i);
      }
    }
    return None;
  }

  /** On the same list Create refuses exactly when GetActive finds a session. */
  method RefusesIffActive(listed: seq<Session>) returns (refused: bool, found: Option<nat>)
    ensures refused <==> found.Some?
  {
    refused := Refuses(listed);
    found := GetActive(listed);
  }

  // ---------------------------------------------------------------- runs

  /** A session and whether it has ever been failed or expired. */
  datatype Entry = Entry(session: Session, ended: bool)

  /** pending: Create calls whose list came back clean and whose CREATE has not landed. */
  datatype World = World(entries: seq<Entry>, pending: multiset<string>)

  datatype Action =
    | List(client: string)
    | Create(client: string)
    | GiveUp(client: string)
    | SetPhase(i: nat, phase: Phase)
    | Remove(i: nat)

  /** A session counts until it has failed or expired. */
  predicate Active(phase: Phase): (r: bool)
    ensures r <==> phase != Failed && phase != Expired
  {
    ShownStatus(phase) != ShownExpired
  }

  predicate Clean(entries: seq<Entry>, client: string) {
    forall i :: 0 <= i < |entries| && entries[i].session.client == client ==> !Active(entries[i].session.phase)
  }

  function Step(w: World, a: Action): World {
    match a
    case List(client) => if Clean(w.entries, client) then w.(pending := w.pending + multiset{client}) else w
    case Create(client) =>
      if client in w.pending
      then World(w.entries + [Entry(Session(client, NoPhase), false)], w.pending - multiset{client})
      else w
    case GiveUp(client) => w.(pending := w.pending - multiset{client})
    case SetPhase(i, phase) =>
      if i < |w.entries| then
        var e := w.entries[i];
        w.(entries := w.entries[i := Entry(e.session.(phase := phase), e.ended || !Active(phase))])
      else w
    case Remove(i) => if i < |w.entries| then w.(entries := w.entries[..i] + w.entries[i + 1..]) else w
  }

  function Run(w: World, actions: seq<Action>): World
    decreases |actions|
  {
    if actions == [] then w else Run(Step(w, actions[0]), actions[1..])
  }

  /** A client's Create calls do not overlap: none lists while another is between its list and its create. */
  predicate Serial(w: World, actions: seq<Action>)
    decreases |actions|
  {
    actions != [] ==>
      (actions[0].List? ==> actions[0].client !in w.pending) && Serial(Step(w, actions[0]), actions[1..])
  }

  /** How many of a client's sessions are counted. */
  function Count(entries: seq<Entry>, client: string, counted: Entry -> bool): nat {
    if entries == [] then 0
    else (if entries[0].session.client == client && counted(entries[0]) then 1 else 0) +
         Count(entries[1..], client, counted)
  }

  predicate NeverEnded(e: Entry) {
    !e.ended
  }

  predicate IsActive(e: Entry) {
    Active(e.session.phase)
  }

  /** How many of a client's sessions have never been failed or expired. */
  function Open(entries: seq<Entry>, client: string): nat {
    Count(entries, client, NeverEnded)
  }

  /** How many of a client's sessions are active now. */
  function Live(entries: seq<Entry>, client: string): nat {
    Count(entries, client, IsActive)
  }

  lemma {:induction false} CountAppend(a: seq<Entry>, b: seq<Entry>, client: string, counted: Entry -> bool)
    ensures Count(a + b, client, counted) == Count(a, client, counted) + Count(b, client, counted)
  {
    if a == [] {
      assert a + b == b;
    } else {
      assert (a + b)[1..] == a[1..] + b;
      CountAppend(a[1..], b, client, counted);
    }
  }

  lemma CountAround(a: seq<Entry>, i: nat, mid: seq<Entry>, client: string, counted: Entry -> bool)
    requires i < |a|
    ensures Count(a[..i] + mid + a[i + 1..], client, counted) ==
            Count(a, client, counted) - Count([a[i]], client, counted) + Count(mid, client, counted)
  {
    hide Count;
    CountAppend(a[..i] + mid, a[i + 1..], client, counted);
    CountAppend(a[..i], mid, client, counted);
    CountAppend(a[..i] + [a[i]], a[i + 1..], client, counted);
    CountAppend(a[..i], [a[i]], client, counted);
    assert a == a[..i] + [a[i]] + a[i + 1..];
  }

  lemma CountOne(e: Entry, client: string, counted: Entry -> bool)
    ensures Count([e], client, counted) == if e.session.client == client && counted(e) then 1 else 0
    ensures Count([], client, counted) == 0
  {
  }

  lemma CreateCounts(w: World, client: string, c: string, counted: Entry -> bool)
    ensures var w', e := Step(w, Create(client)), Entry(Session(client, NoPhase), false);
            if c == client && c in w.pending then
              && w'.pending[c] == w.pending[c] - 1
              && Count(w'.entries, c, counted) == Count(w.entries, c, counted) + (if counted(e) then 1 else 0)
            else w'.pending[c] == w.pending[c] && Count(w'.entries, c, counted) == Count(w.entries, c, counted)
  {
    hide Count;
    var e := Entry(Session(client, NoPhase), false);
    CountAppend(w.entries, [e], c, counted);
    CountOne(e, c, counted);
  }

  lemma PhaseCounts(w: World, a: Action, c: string, counted: Entry -> bool)
    requires a.SetPhase?
    ensures var w' := Step(w, a);
            && w'.pending == w.pending
            && if a.i < |w.entries| && w.entries[a.i].session.client == c then
                 Count(w'.entries, c, counted) == Count(w.entries, c, counted)
                   - (if counted(w.entries[a.i]) then 1 else 0) + (if counted(w'.entries[a.i]) then 1 else 0)
               else Count(w'.entries, c, counted) == Count(w.entries, c, counted)
  {
    hide Active, Count;
    if a.i < |w.entries| {
      var e := Step(w, a).entries[a.i];
      CountAround(w.entries, a.i, [e], c, counted);
      CountOne(e, c, counted);
      CountOne(w.entries[a.i], c, counted);
      assert w.entries[a.i := e] == w.entries[..a.i] + [e] + w.entries[a.i + 1..];
    }
  }

  lemma RemoveCounts(w: World, i: nat, c: string, counted: Entry -> bool)
    ensures var w' := Step(w, Remove(i));
            w'.pending == w.pending && Count(w'.entries, c, counted) <= Count(w.entries, c, counted)
  {
    hide Count;
    if i < |w.entries| {
      CountAround(w.entries, i, [], c, counted);
      CountOne(w.entries[i], c, counted);
      assert w.entries[..i] + [] + w.entries[i + 1..] == w.entries[..i] + w.entries[i + 1..];
    }
  }

  lemma ListCounts(w: World, a: Action, c: string)
    requires a.List? || a.GiveUp?
    ensures var w' := Step(w, a);
            && w'.entries == w.entries
            && if a.GiveUp? then w'.pending[c] <= w.pending[c]
               else w'.pending[c] == w.pending[c] + (if c == a.client && Clean(w.entries, c) then 1 else 0)
  {
    hide Clean;
  }

  /** What one action does to a count and to the creates under way. */
  lemma StepCounts(w: World, a: Action, c: string, counted: Entry -> bool)
    ensures var w' := Step(w, a);
            var n, n' := Count(w.entries, c, counted), Count(w'.entries, c, counted);
            match a
            case List(client) =>
              w'.entries == w.entries
              && w'.pending[c] == w.pending[c] + (if c == client && Clean(w.entries, c) then 1 else 0)
            case Create(client) =>
              if c == client && c in w.pending then
                w'.pending[c] == w.pending[c] - 1 &&
                n' == n + (if counted(Entry(Session(client, NoPhase), false)) then 1 else 0)
              else w'.pending[c] == w.pending[c] && n' == n
            case GiveUp(_) => w'.entries == w.entries && w'.pending[c] <= w.pending[c]
            case SetPhase(i, phase) =>
              && w'.pending == w.pending
              && if i < |w.entries| && w.entries[i].session.client == c then
                   i < |w'.entries|
                   && n' == n - (if counted(w.entries[i]) then 1 else 0) + (if counted(w'.entries[i]) then 1 else 0)
                 else n' == n
            case Remove(_) => w'.pending == w.pending && n' <= n
  {
    hide Step, Active, Count, Clean;
    match a
    case List(_) => ListCounts(w, a, c);
    case Create(client) => CreateCounts(w, client, c, counted);
    case GiveUp(_) => ListCounts(w, a, c);
    case SetPhase(_, _) =>
      PhaseCounts(w, a, c, counted);
      if a.i < |w.entries| {
        PhaseIsSet(w, a);
      }
    case Remove(i) => RemoveCounts(w, i, c, counted);
  }

  lemma PhaseIsSet(w: World, a: Action)
    requires a.SetPhase? && a.i < |w.entries|
    ensures |Step(w, a).entries| == |w.entries|
    ensures Step(w, a).entries[a.i].session == w.entries[a.i].session.(phase := a.phase)
    ensures w.entries[a.i].ended ==> Step(w, a).entries[a.i].ended
  {
  }

  /** A client's list is clean exactly when none of its sessions is active. */
  lemma {:induction false} CleanIsNoneLive(entries: seq<Entry>, client: string)
    ensures Clean(entries, client) <==> Live(entries, client) == 0
  {
    hide Active;
    if entries != [] {
      CleanIsNoneLive(entries[1..], client);
      assert Clean(entries, client) <==>
             (entries[0].session.client == client ==> !IsActive(entries[0])) && Clean(entries[1..], client) by {
        assert entries == [entries[0]] + entries[1..];
      }
    }
  }

  // ---------------------------------------------------------------- sessions never ended

  /** A list by a client that has a call pending shows it an active session. */
  predicate Careful(w: World, a: Action) {
    a.List? && a.client in w.pending ==> !Clean(w.entries, a.client)
  }

  /** A client's open sessions and creates about to land are at most one together. */
  ghost predicate Single(w: World) {
    && (forall c :: Open(w.entries, c) + w.pending[c] <= 1)
    && (forall i :: 0 <= i < |w.entries| && !Active(w.entries[i].session.phase) ==> w.entries[i].ended)
  }

  lemma {:induction false} CleanHasNoneOpen(entries: seq<Entry>, client: string)
    requires Clean(entries, client)
    requires forall i :: 0 <= i < |entries| && !Active(entries[i].session.phase) ==> entries[i].ended
    ensures Open(entries, client) == 0
  {
    hide Active;
    if entries != [] {
      assert !Active(entries[0].session.phase) || entries[0].session.client != client;
      CleanHasNoneOpen(entries[1..], client);
    }
  }

  lemma StepKeepsSingle(w: World, a: Action)
    requires Single(w) && Careful(w, a)
    ensures Single(Step(w, a))
  {
    var w' := Step(w, a);
    forall c
      ensures Open(w'.entries, c) + w'.pending[c] <= 1
    {
      assert Open(w.entries, c) + w.pending[c] <= 1;
      StepKeepsOne(w, a, c);
    }
    StepKeepsEnded(w, a);
  }

  lemma StepKeepsOne(w: World, a: Action, c: string)
    requires Open(w.entries, c) + w.pending[c] <= 1 && Careful(w, a)
    requires forall i :: 0 <= i < |w.entries| && !Active(w.entries[i].session.phase) ==> w.entries[i].ended
    ensures var w' := Step(w, a); Open(w'.entries, c) + w'.pending[c] <= 1
  {
    hide Active, Step, Count;
    StepCounts(w, a, c, NeverEnded);
    if a.List? && Clean(w.entries, a.client) {
      CleanHasNoneOpen(w.entries, a.client);
    } else if a.SetPhase? && a.i < |w.entries| {
      PhaseIsSet(w, a);
    }
  }

  lemma StepKeepsEnded(w: World, a: Action)
    requires forall i :: 0 <= i < |w.entries| && !Active(w.entries[i].session.phase) ==> w.entries[i].ended
    ensures var es := Step(w, a).entries;
            forall i :: 0 <= i < |es| && !Active(es[i].session.phase) ==> es[i].ended
  {
  }

  /** If no client's Create calls overlap, every reachable state has at most one session of a client that has
      never been failed or expired. */
  lemma {:induction false} SerialKeepsSingle(w: World, actions: seq<Action>)
    requires Single(w) && Serial(w, actions)
    ensures Single(Run(w, actions))
    decreases |actions|
  {
    hide Single, Step;
    if actions != [] {
      StepKeepsSingle(w, actions[0]);
      SerialKeepsSingle(Step(w, actions[0]), actions[1..]);
    }
  }

  predicate AllCareful(w: World, actions: seq<Action>)
    decreases |actions|
  {
    actions != [] ==> Careful(w, actions[0]) && AllCareful(Step(w, actions[0]), actions[1..])
  }

  /** Whatever follows without overlapping calls, no client gets two sessions that never ended. */
  ghost predicate Safe(w: World) {
    forall actions :: Serial(w, actions) ==> forall c :: Open(Run(w, actions).entries, c) <= 1
  }

  /** Safe at every point of a run. */
  ghost predicate AlwaysSafe(w: World, actions: seq<Action>)
    decreases |actions|
  {
    Safe(w) && (actions != [] ==> AlwaysSafe(Step(w, actions[0]), actions[1..]))
  }

  lemma SingleIsSafe(w: World)
    requires Single(w)
    ensures Safe(w)
  {
    forall actions, c | Serial(w, actions)
      ensures Open(Run(w, actions).entries, c) <= 1
    {
      SerialKeepsSingle(w, actions);
    }
  }

  /** Both creates of a client with two under way land: two more of its sessions, of any kind a new one is. */
  lemma BothLand(w: World, client: string)
    requires w.pending[client] >= 2
    ensures var w' := Run(w, [Create(client), Create(client)]);
            && Serial(w, [Create(client), Create(client)])
            && Open(w'.entries, client) == Open(w.entries, client) + 2
            && Live(w'.entries, client) == Live(w.entries, client) + 2
  {
    hide Count;
    var a := Create(client);
    var w1 := Step(w, a);
    StepCounts(w, a, client, NeverEnded);
    StepCounts(w1, a, client, NeverEnded);
    StepCounts(w, a, client, IsActive);
    StepCounts(w1, a, client, IsActive);
    RunTwo(w, a, a);
    assert Serial(Step(w1, a), []) && Serial(w1, [a]);
  }

  lemma RunTwo(w: World, a: Action, b: Action)
    ensures Run(w, [a, b]) == Step(Step(w, a), b) && Run(w, [a]) == Step(w, a)
  {
    hide Step;
    assert [a, b][1..] == [b] && [b][1..] == [] && [a][1..] == [];
    assert Run(Step(w, a), [b]) == Run(Step(Step(w, a), b), []);
  }

  lemma CarelessIsUnsafe(w: World, a: Action)
    requires !Careful(w, a)
    ensures !Safe(Step(w, a))
  {
    hide Count;
    var w' := Step(w, a);
    BothLand(w', a.client);
    assert Open(Run(w', [Create(a.client), Create(a.client)]).entries, a.client) >= 2;
  }

  /** A run is safe throughout, no client ever able to get two sessions that never ended, exactly when none of its
      lists passes while another call of that client is pending. */
  lemma {:induction false} SingleIff(w: World, actions: seq<Action>)
    requires Single(w)
    ensures AlwaysSafe(w, actions) <==> AllCareful(w, actions)
    decreases |actions|
  {
    hide Single, Step, Careful, Safe;
    SingleIsSafe(w);
    if actions != [] {
      if Careful(w, actions[0]) {
        StepKeepsSingle(w, actions[0]);
        SingleIff(Step(w, actions[0]), actions[1..]);
      } else {
        CarelessIsUnsafe(w, actions[0]);
        assert !AlwaysSafe(Step(w, actions[0]), actions[1..]);
      }
    }
  }

  /** The same for one call: listing is safe exactly when it is careful; otherwise two sessions can follow. */
  lemma ListSafeIff(w: World, client: string)
    requires Single(w)
    ensures Safe(Step(w, List(client))) <==> (client in w.pending ==> !Clean(w.entries, client))
  {
    hide Step, Single, Safe;
    if Careful(w, List(client)) {
      StepKeepsSingle(w, List(client));
      SingleIsSafe(Step(w, List(client)));
    } else {
      CarelessIsUnsafe(w, List(client));
    }
  }

  /** LIST then CREATE is not atomic: two overlapping calls of a client without a session both get one. */
  lemma OverlapAdmitsTwo(client: string)
    ensures var w := Run(World([], multiset{}), [List(client), List(client), Create(client), Create(client)]);
            Open(w.entries, client) == 2 && Live(w.entries, client) == 2
  {
    hide Step;
    var a, b := List(client), Create(client);
    var w0 := World([], multiset{});
    var w2 := Run(w0, [a, a]);
    RunTwo(w0, a, a);
    ListsBoth(client);
    BothLand(w2, client);
    RunAppend(w0, [a, a], [b, b]);
    assert [a, a] + [b, b] == [a, a, b, b];
  }

  lemma ListsBoth(client: string)
    ensures Step(Step(World([], multiset{}), List(client)), List(client)) == World([], multiset{client, client})
    ensures Open([], client) == 0 && Live([], client) == 0
  {
    assert multiset{} + multiset{client} + multiset{client} == multiset{client, client};
  }

  lemma {:induction false} RunAppend(w: World, a: seq<Action>, b: seq<Action>)
    ensures Run(w, a + b) == Run(Run(w, a), b)
    decreases |a|
  {
    hide Step;
    if a == [] {
      assert a + b == b;
    } else {
      assert (a + b)[1..] == a[1..] + b;
      RunAppend(Step(w, a[0]), a[1..], b);
    }
  }

  // ---------------------------------------------------------------- active sessions

  /** The action brings a session that had ended back to life. */
  predicate Recovers(w: World, a: Action) {
    a.SetPhase? && a.i < |w.entries| && !Active(w.entries[a.i].session.phase) && Active(a.phase)
  }

  /** A list is careful, and a session recovers only while its client has no active one and no create under way. */
  predicate Held(w: World, a: Action) {
    && Careful(w, a)
    && (Recovers(w, a) ==>
          var client := w.entries[a.i].session.client; Clean(w.entries, client) && client !in w.pending)
  }

  predicate AllHeld(w: World, actions: seq<Action>)
    decreases |actions|
  {
    actions != [] ==> Held(w, actions[0]) && AllHeld(Step(w, actions[0]), actions[1..])
  }

  /** A client's active sessions and creates about to land are at most one together. */
  ghost predicate OneActive(w: World) {
    forall c :: Live(w.entries, c) + w.pending[c] <= 1
  }

  /** From a world with at most one for each client, a held action leads to one, and no other action does. */
  lemma StepOneActiveIff(w: World, a: Action)
    requires OneActive(w)
    ensures OneActive(Step(w, a)) <==> Held(w, a)
  {
    hide Live, Clean;
    var w' := Step(w, a);
    if Held(w, a) {
      forall c
        ensures Live(w'.entries, c) + w'.pending[c] <= 1
      {
        assert Live(w.entries, c) + w.pending[c] <= 1;
        HeldKeepsOne(w, a, c);
      }
    } else {
      var c := if a.List? then a.client else w.entries[a.i].session.client;
      assert Live(w.entries, c) + w.pending[c] <= 1;
      UnheldMakesTwo(w, a, c);
    }
  }

  lemma HeldKeepsOne(w: World, a: Action, c: string)
    requires Held(w, a) && Live(w.entries, c) + w.pending[c] <= 1
    ensures Live(Step(w, a).entries, c) + Step(w, a).pending[c] <= 1
  {
    hide Step, Count, Clean;
    StepCounts(w, a, c, IsActive);
    CleanIsNoneLive(w.entries, c);
    if a.SetPhase? && a.i < |w.entries| {
      PhaseIsSet(w, a);
    }
  }

  lemma UnheldMakesTwo(w: World, a: Action, c: string)
    requires !Held(w, a) && c == if a.List? then a.client else w.entries[a.i].session.client
    ensures Live(Step(w, a).entries, c) + Step(w, a).pending[c] >= 2
  {
    hide Step, Count, Clean;
    StepCounts(w, a, c, IsActive);
    CleanIsNoneLive(w.entries, c);
    if a.SetPhase? && a.i < |w.entries| {
      PhaseIsSet(w, a);
    }
  }

  /** Whatever held actions follow, no client has two active sessions. */
  ghost predicate Keeping(w: World) {
    forall actions :: AllHeld(w, actions) ==> forall c :: Live(Run(w, actions).entries, c) <= 1
  }

  ghost predicate AlwaysKeeping(w: World, actions: seq<Action>)
    decreases |actions|
  {
    Keeping(w) && (actions != [] ==> AlwaysKeeping(Step(w, actions[0]), actions[1..]))
  }

  lemma {:induction false} HeldKeepsOneActive(w: World, actions: seq<Action>)
    requires OneActive(w) && AllHeld(w, actions)
    ensures OneActive(Run(w, actions))
    decreases |actions|
  {
    hide OneActive, Step, Held;
    if actions != [] {
      StepOneActiveIff(w, actions[0]);
      HeldKeepsOneActive(Step(w, actions[0]), actions[1..]);
    }
  }

  lemma OneActiveKeeps(w: World)
    requires OneActive(w)
    ensures Keeping(w)
  {
    forall actions, c | AllHeld(w, actions)
      ensures Live(Run(w, actions).entries, c) <= 1
    {
      HeldKeepsOneActive(w, actions);
      assert Live(Run(w, actions).entries, c) + Run(w, actions).pending[c] <= 1;
    }
  }

  /** With two of a client's sessions active or about to be created, it can have two active ones. */
  lemma {:induction false} TwoCanBeActive(w: World, c: string)
    requires Live(w.entries, c) + w.pending[c] >= 2
    ensures !Keeping(w)
    decreases w.pending[c]
  {
    hide Count, Step, Keeping;
    if Live(w.entries, c) >= 2 {
      TwoAreActive(w, c);
    } else {
      var w' := Step(w, Create(c));
      CreateCounts(w, c, c, IsActive);
      TwoCanBeActive(w', c);
      if Keeping(w) {
        KeepingGoesOn(w, Create(c));
      }
    }
  }

  lemma TwoAreActive(w: World, c: string)
    requires Live(w.entries, c) >= 2
    ensures !Keeping(w)
  {
    assert Run(w, []) == w && AllHeld(w, []);
  }

  lemma KeepingGoesOn(w: World, a: Action)
    requires Keeping(w) && Held(w, a)
    ensures Keeping(Step(w, a))
  {
    forall actions, c | AllHeld(Step(w, a), actions)
      ensures Live(Run(Step(w, a), actions).entries, c) <= 1
    {
      assert ([a] + actions)[1..] == actions;
      assert AllHeld(w, [a] + actions) && Run(w, [a] + actions) == Run(Step(w, a), actions);
    }
  }

  /** One active session per client, exactly: from at most one for each client, a run keeps that whatever held
      actions may follow, at every point, if and only if every list in it is careful and every session that recovers
      finds its client without an active session and without a create under way. */
  lemma {:induction false} ActiveIff(w: World, actions: seq<Action>)
    requires OneActive(w)
    ensures AlwaysKeeping(w, actions) <==> AllHeld(w, actions)
    decreases |actions|
  {
    hide OneActive, Step, Held, Keeping;
    OneActiveKeeps(w);
    if actions != [] {
      StepOneActiveIff(w, actions[0]);
      if Held(w, actions[0]) {
        ActiveIff(Step(w, actions[0]), actions[1..]);
      } else {
        UnheldIsNotKept(w, actions[0]);
        assert !AlwaysKeeping(Step(w, actions[0]), actions[1..]);
      }
    }
  }

  lemma UnheldIsNotKept(w: World, a: Action)
    requires OneActive(w) && !Held(w, a)
    ensures !Keeping(Step(w, a))
  {
    hide Keeping, Step;
    var c := if a.List? then a.client else w.entries[a.i].session.client;
    UnheldMakesTwo(w, a, c);
    TwoCanBeActive(Step(w, a), c);
  }

  /** A failed session may come back to life: after a recovery, a client whose calls did not overlap has two active
      sessions. */
  lemma RecoveryLeavesTwo(client: string)
    ensures var w := World([Entry(Session(client, Failed), true)], multiset{});
            var actions := [List(client), Create(client), SetPhase(0, Running)];
            && Single(w) && OneActive(w) && Serial(w, actions) && !AllHeld(w, actions)
            && Live(Run(w, actions).entries, client) == 2
  {
    hide Count;
    var failed, created := Entry(Session(client, Failed), true), Entry(Session(client, NoPhase), false);
    var back := Entry(Session(client, Running), true);
    var w := World([failed], multiset{});
    var a0, a1, a2 := List(client), Create(client), SetPhase(0, Running);
    var w1 := Step(w, a0);
    var w2 := Step(w1, a1);
    assert w1 == World([failed], multiset{client}) && w2 == World([failed] + [created], multiset{});
    assert Step(w2, a2).entries == [back] + [created];
    assert [a0, a1, a2][1..] == [a1, a2] && [a1, a2][1..] == [a2] && [a2][1..] == [];
    RunTwo(w1, a1, a2);
    assert Run(w, [a0, a1, a2]) == Run(w1, [a1, a2]);
    assert Serial(Step(w2, a2), []) && Serial(w2, [a2]) && Serial(w1, [a1, a2]);
    CountOne(back, client, IsActive);
    CountOne(created, client, IsActive);
    CountAppend([back], [created], client, IsActive);
    assert w2.entries[1] == created && !Clean(w2.entries, client);
    assert !AllHeld(w2, [a2]) && !AllHeld(w1, [a1, a2]);
    forall c
      ensures Live(w.entries, c) + w.pending[c] <= 1 && Open(w.entries, c) + w.pending[c] <= 1
    {
      CountOne(failed, c, IsActive);
      CountOne(failed, c, NeverEnded);
    }
  }
}
