/** The list of completed steps, written by the server while the operator patches the same status. */
module StepHistory {
  import opened LabSessions
  import opened Protocol
  import opened ProtocolSafety

  /** No step twice, times never going back, none after `now`. */
  predicate Ordered(steps: seq<StepRecord>, now: int) {
    && (forall i :: 0 <= i < |steps| ==> steps[i].completedAt <= now)
    && (forall i, j :: 0 <= i < j < |steps| ==>
          steps[i].step != steps[j].step && steps[i].completedAt <= steps[j].completedAt)
  }

  predicate CallFits(k: StepCall, now: int) {
    Ordered(k.base, k.readAt) && k.readAt <= now && !Recorded(k.base, k.step)
  }

  predicate Recording(c: Cluster) {
    && (c.cr.Some? ==> Ordered(c.cr.value.status.completedSteps, c.clock))
    && (forall n :: n in c.calls ==> CallFits(c.calls[n], c.clock))
  }

  // ---------------------------------------------------------------- field ownership

  predicate WritesSteps(m: Move) {
    m.Env? && m.event.Server? && m.event.act.StepWrite?
  }

  /** Whatever the operator does, and however stale the copies it patches from, a run changes the completed steps
      only by the server's step patches. */
  lemma {:induction false} OperatorKeepsSteps(s: State, moves: seq<Move>)
    requires forall i :: 0 <= i < |moves| ==> !WritesSteps(moves[i])
    ensures var c := Run(s, moves).c;
            c.cr.Some? ==> s.c.cr.Some? && c.cr.value.status.completedSteps == s.c.cr.value.status.completedSteps
    decreases |moves|
  {
    hide Step;
    if moves != [] {
      StepWithoutWrite(s, moves[0]);
      OperatorKeepsSteps(Step(s, moves[0]), moves[1..]);
    }
  }

  lemma StepWithoutWrite(s: State, m: Move)
    requires !WritesSteps(m)
    ensures var c := Step(s, m).c;
            c.cr.Some? ==> s.c.cr.Some? && c.cr.value.status.completedSteps == s.c.cr.value.status.completedSteps
  {
    hide InfraStep, OpStep, Recorded;
    match m
    case Env(_) =>
    case Op(k) => OpFrame(s, k);
  }

  /** Whatever the server does, and however stale the lists it patches from, a run changes phase, service name,
      message and snapshot name only by the operator's calls. */
  lemma {:induction false} ServerKeepsLifecycle(s: State, moves: seq<Move>)
    requires forall i :: 0 <= i < |moves| ==> moves[i].Env?
    ensures var c := Run(s, moves).c;
            c.cr.Some? ==> s.c.cr.Some? && SameLifecycle(s.c.cr.value.status, c.cr.value.status)
    decreases |moves|
  {
    hide Step;
    if moves != [] {
      StepWithoutCall(s, moves[0]);
      ServerKeepsLifecycle(Step(s, moves[0]), moves[1..]);
    }
  }

  lemma StepWithoutCall(s: State, m: Move)
    requires m.Env?
    ensures var c := Step(s, m).c;
            c.cr.Some? ==> s.c.cr.Some? && SameLifecycle(s.c.cr.value.status, c.cr.value.status)
  {
    hide InfraStep, ServerStep;
    match m.event
    case Server(wait, act) => ServerKeepsFrame(s.c.(clock := s.c.clock + 1 + wait), act);
    case Nature(_, _) =>
  }

  // ---------------------------------------------------------------- every reachable list

  lemma WriteKeepsOrdered(k: StepCall, now: int, lag: nat)
    requires CallFits(k, now)
    ensures Ordered(k.base + [StepRecord(k.step, Stamp(k, now, lag))], now)
  {
    var steps := k.base + [StepRecord(k.step, Stamp(k, now, lag))];
    forall i, j | 0 <= i < j < |steps|
      ensures steps[i].step != steps[j].step && steps[i].completedAt <= steps[j].completedAt
    {
      assert steps[i] == k.base[i];
    }
  }

  lemma ServerKeepsRecording(c: Cluster, a: ServerAction)
    requires Recording(c)
    ensures Recording(ServerStep(c, a))
  {
    hide Ordered, CallFits, Stamp;
    match a
    case StepWrite(call, lag) =>
      if call in c.calls {
        WriteKeepsOrdered(c.calls[call], c.clock, lag);
        ServerKeepsFrame(c, a);
      }
    case StepRead(call, step) => ReadFits(c, step);
    case _ =>
  }

  lemma ReadFits(c: Cluster, step: string)
    requires c.cr.Some? ==> Ordered(c.cr.value.status.completedSteps, c.clock)
    ensures c.cr.Some? && !Recorded(c.cr.value.status.completedSteps, step)
            ==> CallFits(StepCall(c.cr.value.status.completedSteps, step, c.clock), c.clock)
  {
  }

  lemma TickKeepsRecording(c: Cluster, now: int)
    requires Recording(c) && now >= c.clock
    ensures Recording(c.(clock := now))
  {
  }

  lemma StepKeepsRecording(s: State, m: Move)
    requires Recording(s.c)
    ensures Recording(Step(s, m).c)
  {
    hide Ordered, CallFits, ServerStep, InfraStep, OpStep;
    match m
    case Env(e) =>
      TickKeepsRecording(s.c, s.c.clock + 1 + e.wait);
      if e.Server? {
        ServerKeepsRecording(s.c.(clock := s.c.clock + 1 + e.wait), e.act);
      }
    case Op(k) =>
      OpFrame(s, k);
      TickKeepsRecording(s.c, Step(s, m).c.clock);
  }

  /** The stored list is duplicate-free and its times never go back in every reachable state, even though
      overlapping calls overwrite each other's whole array. */
  lemma {:induction false} RunKeepsRecording(s: State, moves: seq<Move>)
    requires Recording(s.c)
    ensures Recording(Run(s, moves).c)
    decreases |moves|
  {
    hide Recording, Step;
    if moves != [] {
      StepKeepsRecording(s, moves[0]);
      RunKeepsRecording(Step(s, moves[0]), moves[1..]);
    }
  }

  // ---------------------------------------------------------------- calls that do not overlap

  /** No MarkStepComplete call reads while another is under way. */
  predicate Sequential(s: State, moves: seq<Move>)
    decreases |moves|
  {
    moves != [] ==>
      && (moves[0].Env? && moves[0].event.Server? && moves[0].event.act.StepRead? ==> s.c.calls == map[])
      && Sequential(Step(s, moves[0]), moves[1..])
  }

  /** At most one call is under way, and nothing has been written since its read. */
  predicate Alone(c: Cluster) {
    && (forall m, n :: m in c.calls && n in c.calls ==> m == n)
    && (c.cr.Some? ==> forall n :: n in c.calls ==> c.calls[n].base == c.cr.value.status.completedSteps)
  }

  lemma StepAppends(s: State, m: Move)
    requires Alone(s.c)
    requires m.Env? && m.event.Server? && m.event.act.StepRead? ==> s.c.calls == map[]
    ensures Alone(Step(s, m).c)
    ensures var c := Step(s, m).c;
            c.cr.Some? ==> s.c.cr.Some? && s.c.cr.value.status.completedSteps <= c.cr.value.status.completedSteps
  {
    hide InfraStep, OpStep, Recorded, Stamp;
    if m.Op? {
      OpFrame(s, m.call);
    }
  }

  /** When calls do not overlap the list only grows at its end. */
  lemma {:induction false} SequentialAppends(s: State, moves: seq<Move>)
    requires Alone(s.c) && Sequential(s, moves)
    ensures var c := Run(s, moves).c;
            c.cr.Some? ==> s.c.cr.Some? && s.c.cr.value.status.completedSteps <= c.cr.value.status.completedSteps
    decreases |moves|
  {
    hide Alone, Step;
    if moves != [] {
      StepAppends(s, moves[0]);
      SequentialAppends(Step(s, moves[0]), moves[1..]);
    }
  }

  // ---------------------------------------------------------------- exactly when the list only grows

  function Steps(c: Cluster): seq<StepRecord> {
    if c.cr.Some? then c.cr.value.status.completedSteps else []
  }

  function Record(k: StepCall, now: int, lag: nat): StepRecord {
    StepRecord(k.step, Stamp(k, now, lag))
  }

  /** A patch puts the list the call read, with its record after it, in the place of the list.  It keeps what is
      listed, in its place, exactly when that is a prefix of the list read or already the outcome; and for a step not
      listed yet, exactly when it is a prefix of the list read: nothing has been written since. */
  lemma WriteKeepsIff(c: Cluster, call: nat, lag: nat)
    requires c.cr.Some? && call in c.calls
    ensures var k, after := c.calls[call], Steps(ServerStep(c, StepWrite(call, lag)));
            && after == k.base + [Record(k, c.clock, lag)]
            && (Steps(c) <= after <==> Steps(c) <= k.base || Steps(c) == after)
            && (!Recorded(Steps(c), k.step) ==> (Steps(c) <= after <==> Steps(c) <= k.base))
  {
    var k, after := c.calls[call], Steps(ServerStep(c, StepWrite(call, lag)));
    assert after == k.base + [Record(k, c.clock, lag)];
    assert after[..|k.base|] == k.base && after[|k.base|].step == k.step;
    if Steps(c) <= after && !(Steps(c) <= k.base) {
      assert |Steps(c)| == |after|;
      assert Steps(c)[|k.base|].step == k.step;
    }
  }

  /** A step patch finds the list as its call read it, or shorter, or already has its outcome. */
  predicate UpToDate(s: State, m: Move) {
    WritesSteps(m) && s.c.cr.Some? && m.event.act.call in s.c.calls ==>
      var k := s.c.calls[m.event.act.call];
      || Steps(s.c) <= k.base
      || Steps(s.c) == k.base + [Record(k, s.c.clock + 1 + m.event.wait, m.event.act.lag)]
  }

  predicate AllUpToDate(s: State, moves: seq<Move>)
    decreases |moves|
  {
    moves != [] ==> UpToDate(s, moves[0]) && AllUpToDate(Step(s, moves[0]), moves[1..])
  }

  /** No step of a run takes anything from the list or changes it in its place, while there is a CR. */
  predicate Grows(s: State, moves: seq<Move>)
    decreases |moves|
  {
    moves != [] ==>
      && (Step(s, moves[0]).c.cr.Some? ==> Steps(s.c) <= Steps(Step(s, moves[0]).c))
      && Grows(Step(s, moves[0]), moves[1..])
  }

  /** A run never loses a recorded step exactly when every step patch in it is up to date. */
  lemma {:induction false} GrowsIff(s: State, moves: seq<Move>)
    ensures Grows(s, moves) <==> AllUpToDate(s, moves)
    decreases |moves|
  {
    hide Step, UpToDate, Steps;
    if moves != [] {
      StepGrowsIff(s, moves[0]);
      GrowsIff(Step(s, moves[0]), moves[1..]);
    }
  }

  lemma StepGrowsIff(s: State, m: Move)
    ensures (Step(s, m).c.cr.Some? ==> Steps(s.c) <= Steps(Step(s, m).c)) <==> UpToDate(s, m)
  {
    hide InfraStep, OpStep, Stamp, MarkPatch;
    if !WritesSteps(m) {
      StepWithoutWrite(s, m);
    } else {
      var act := m.event.act;
      var c := s.c.(clock := s.c.clock + 1 + m.event.wait);
      if c.cr.Some? && act.call in c.calls {
        WriteKeepsIff(c, act.call, act.lag);
      }
    }
  }

  /** When they do overlap an earlier record can be lost: two calls that read the same empty list leave only the
      second one's step. */
  lemma OverlapLosesAStep(s: State, a: string, b: string)
    requires s.c.cr.Some? && s.c.cr.value.status.completedSteps == [] && s.c.calls == map[] && a != b
    ensures var moves := [Env(Server(0, StepRead(0, a))), Env(Server(0, StepRead(1, b))),
                          Env(Server(0, StepWrite(0, 0))), Env(Server(0, StepWrite(1, 0)))];
            var c := Run(s, moves).c;
            && c.cr.Some? && Recorded(c.cr.value.status.completedSteps, b)
            && !Recorded(c.cr.value.status.completedSteps, a)
  {
    var m0, m1 := Env(Server(0, StepRead(0, a))), Env(Server(0, StepRead(1, b)));
    var m2, m3 := Env(Server(0, StepWrite(0, 0))), Env(Server(0, StepWrite(1, 0)));
    RunFour(s, m0, m1, m2, m3);
    var s2 := Step(Step(s, m0), m1);
    assert s2.c.cr.Some? && s2.c.calls.Keys == {0, 1} && s2.c.calls[1].step == b;
    assert s2.c.calls[0].base == s2.c.calls[1].base == [];
    LastWriteStays(s2, a, b);
  }

  /** Nobody interfering, a call for a step not yet recorded adds that step at the end of the list, at an instant
      between its read and its patch, and changes nothing else of the status; a recorded step is left alone. */
  lemma StepIsRecorded(s: State, call: nat, step: string, lag: nat, wait: nat)
    requires s.c.cr.Some? && call !in s.c.calls
    ensures var read := Step(s, Env(Server(0, StepRead(call, step))));
            var s' := Step(read, Env(Server(wait, StepWrite(call, lag))));
            var before := s.c.cr.value.status;
            && s'.c.cr.Some?
            && var after := s'.c.cr.value.status;
               if Recorded(before.completedSteps, step) then after == before
               else exists t :: read.c.clock <= t <= s'.c.clock &&
                      after == before.(completedSteps := before.completedSteps + [StepRecord(step, t)])
  {
    hide Recorded;
    var read := Step(s, Env(Server(0, StepRead(call, step))));
    var s' := Step(read, Env(Server(wait, StepWrite(call, lag))));
    var before := s.c.cr.value.status;
    if !Recorded(before.completedSteps, step) {
      var k := read.c.calls[call];
      assert k == StepCall(before.completedSteps, step, read.c.clock);
      var t := Stamp(k, s'.c.clock, lag);
      assert s'.c.cr.value.status == before.(completedSteps := before.completedSteps + [StepRecord(step, t)]);
    }
  }

  lemma LastWriteStays(s: State, a: string, b: string)
    requires s.c.cr.Some? && s.c.calls.Keys == {0, 1} && s.c.calls[1].step == b && a != b
    requires s.c.calls[0].base == s.c.calls[1].base == []
    ensures var c := Step(Step(s, Env(Server(0, StepWrite(0, 0)))), Env(Server(0, StepWrite(1, 0)))).c;
            && c.cr.Some? && Recorded(c.cr.value.status.completedSteps, b)
            && !Recorded(c.cr.value.status.completedSteps, a)
  {
    hide Stamp;
    var s1 := Step(s, Env(Server(0, StepWrite(0, 0))));
    assert s1.c.calls == map[1 := s.c.calls[1]];
    var s2 := Step(s1, Env(Server(0, StepWrite(1, 0))));
    var steps := s2.c.cr.value.status.completedSteps;
    assert steps == [StepRecord(b, Stamp(s.c.calls[1], s2.c.clock, 0))];
    assert steps[0].step == b;
  }
}
