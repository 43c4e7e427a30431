/** Exactly when pausing a running session is safe. */
module PauseGuard {
  import opened LabSessions
  import opened Protocol
  import opened ProtocolSafety
  import opened PauseSafety
  import opened DiskConservation
  import opened Passes
  import opened QuietPasses

  // ---------------------------------------------------------------- quiet passes are runs

  function QuietMoves(c: Cluster): seq<Move> {
    PassMoves(c, Quietly(0), 0)
  }

  lemma QuietMovesRun(s: State)
    requires s.op.Idle?
    ensures Run(s, QuietMoves(s.c)) == QuietPass(s.c, 0)
  {
    hide Pass, PassMoves, QuietPass;
    PassIsRun(s, Quietly(0), 0);
    QuietPassIsPass(s.c, 0, true);
  }

  predicate NoPause(moves: seq<Move>) {
    forall i :: 0 <= i < |moves| ==>
      !(moves[i].Env? && moves[i].event.Server? && moves[i].event.act.Pause?)
  }

  lemma {:induction false} NoPauseIsGuarded(s: State, moves: seq<Move>)
    requires NoPause(moves)
    ensures Guarded(s, moves)
    decreases |moves|
  {
    hide Step;
    if moves != [] {
      NoPauseIsGuarded(Step(s, moves[0]), moves[1..]);
    }
  }

  lemma {:induction false} QuietHasNoPause(s: State, i: nat)
    ensures NoPause(RestMoves(s, Quietly(0), i))
    decreases Rank(s.op)
  {
    hide OpStep, Rank;
    if s.op.At? {
      SlotRank(s, Quietly(0)(i));
      QuietHasNoPause(SlotStep(s, Quietly(0)(i)), i + 1);
    }
  }

  lemma PassHasNoPause(c: Cluster)
    ensures NoPause(QuietMoves(c))
  {
    hide OpStep, RestMoves;
    QuietHasNoPause(SlotStep(State(c, Idle, Stop), Quietly(0)(0)), 1);
  }

  // ---------------------------------------------------------------- losing the disk

  const PAUSE: Move := Env(Server(0, Pause))

  /** A session before any teardown and well before its TTL, at any point of a pass or between two. */
  predicate InUse(s: State) {
    && Kept(s) && !s.c.torn
    && s.c.cr.Some? && !s.c.cr.value.deleting
    && (s.c.cr.value.spec.expiresAt == 0 || s.c.clock + 30 < s.c.cr.value.spec.expiresAt)
  }

  /** A paused session whose snapshot is not of the disk as the VM left it, about to be parked. */
  predicate Doomed(c: Cluster) {
    var n := SnapshotNameOf(c.id);
    && CrFits(c) && c.cr.Some? && !c.cr.value.deleting && c.cr.value.finalizer && c.cr.value.spec.paused
    && c.cr.value.status.phase != Paused
    && !c.torn
    && ReadySnapshot(c.infra, n) && c.infra.left.Some? && Some(c.infra.snapshots[n].contents) != c.infra.left
  }

  lemma ParkLoses(s: State)
    requires s.op.Idle? && Doomed(s.c) && s.c.cr.value.status.snapshotName != ""
    requires !PastTtl(s.c.cr.value, s.c.clock + 1)
    ensures var c := Run(s, QuietMoves(s.c)).c; !c.torn && !Held(c)
  {
    hide QuietPass, QuietMoves, Run;
    QuietMovesRun(s);
    ParkPass(s.c, 0, true);
  }

  lemma SuspendKeepsDoomed(s: State)
    requires s.op.Idle? && Doomed(s.c) && s.c.cr.value.status.snapshotName == ""
    requires !PastTtl(s.c.cr.value, s.c.clock + 1)
    ensures var s' := Run(s, QuietMoves(s.c));
            && s'.op.Idle? && Doomed(s'.c) && s'.c.cr.Some? && s'.c.cr.value.status.snapshotName != ""
            && s'.c.clock <= s.c.clock + 6 && s'.c.cr.value.spec == s.c.cr.value.spec
  {
    hide QuietPass, QuietMoves, Run, SnapshotNameOf;
    QuietMovesRun(s);
    SuspendPass(s.c, 0, true);
  }

  /** A paused session with a snapshot that is not of the disk as the VM left it, or will not be for long. */
  predicate Perilous(s: State) {
    var c, f, n := s.c, s.c.infra, SnapshotNameOf(s.c.id);
    && CrFits(c) && c.cr.Some? && !c.cr.value.deleting && c.cr.value.finalizer && c.cr.value.spec.paused
    && c.cr.value.status.phase != Paused
    && !c.torn
    && n in f.snapshots && DiskFits(f)
    && (f.disk.Some? && f.disk.value.source.FromSnapshot? ==> f.disk.value.source.name == n)
    && (s.op.At? ==> s.op.ls.status.snapshotName in {"", n})
    && !(FreshSnapshot(f, n) && !(s.op.At? && Enabling(s.op.point, f)))
  }

  lemma PauseEndangers(s: State)
    requires InUse(s) && !SafeToPause(s)
    ensures var s' := Step(s, PAUSE);
            && Perilous(s') && s'.op == s.op && s'.c.clock == s.c.clock + 1 && s'.c.cr.Some?
            && s'.c.cr.value.spec.expiresAt == s.c.cr.value.spec.expiresAt
  {
    hide SnapshotNameOf, Progress;
  }

  /** The calls of a pass that are left, at most, when it goes on with its ensures and then gives up. */
  function CallsLeft(op: OpState): nat {
    if op.Idle? then 0
    else
      match op.point
      case EnsureDisk => 4
      case EnsureSecret => 3
      case EnsureVmi => 2
      case _ => 1
  }

  /** A pass under way sets the VM up if it is about to; any other call of it fails. */
  function NextCall(s: State): ApiCall
    requires s.op.At?
  {
    ApiCall(0, if Enabling(s.op.point, s.c.infra) then Done else Refused, None, true)
  }

  lemma CallKeepsPeril(s: State)
    requires Perilous(s) && s.op.At?
    ensures var s' := Step(s, Op(NextCall(s)));
            && Perilous(s') && CallsLeft(s'.op) < CallsLeft(s.op) && s'.c.clock == s.c.clock + 1
            && s'.c.cr == s.c.cr
  {
    hide SnapshotNameOf, Perform;
    if Enabling(s.op.point, s.c.infra) {
      SettingUpKeepsPeril(s);
    }
  }

  lemma SettingUpKeepsPeril(s: State)
    requires Perilous(s) && s.op.At? && Enabling(s.op.point, s.c.infra)
    ensures var s' := Step(s, Op(NextCall(s)));
            && Perilous(s') && CallsLeft(s'.op) < CallsLeft(s.op) && s'.c.clock == s.c.clock + 1
            && s'.c.cr == s.c.cr
  {
    hide SnapshotNameOf, AfterProvider, CrEffect, Abort, Begin;
  }

  lemma {:induction false} PassEndsInPeril(s: State) returns (moves: seq<Move>)
    requires Perilous(s)
    ensures NoPause(moves)
    ensures var s' := Run(s, moves);
            Perilous(s') && s'.op.Idle? && s'.c.clock <= s.c.clock + CallsLeft(s.op) && s'.c.cr == s.c.cr
    decreases CallsLeft(s.op)
  {
    hide Perilous, Step, Enabling;
    moves := [];
    if s.op.At? {
      CallKeepsPeril(s);
      var rest := PassEndsInPeril(Step(s, Op(NextCall(s))));
      RunCons(s, Op(NextCall(s)), rest);
      moves := [Op(NextCall(s))] + rest;
    }
  }

  /** What the cluster may do then: the snapshot turns ready, the VM comes up if it can, and writes. */
  function Writing(n: string, contents: Contents): seq<Move> {
    [Env(Nature(0, SnapshotTurnsReady(n))), Env(Nature(0, DiskPopulates)), Env(Nature(0, VmBoots)),
     Env(Nature(0, VmWrites(contents)))]
  }

  lemma WritingSpoils(f: Infra, n: string)
    requires n in f.snapshots && DiskFits(f) && !FreshSnapshot(f, n)
    requires f.disk.Some? && f.disk.value.source.FromSnapshot? ==> f.disk.value.source.name == n
    ensures var g := InfraStep(InfraStep(InfraStep(f, SnapshotTurnsReady(n)), DiskPopulates), VmBoots);
            var h := InfraStep(g, VmWrites(f.snapshots[n].contents + 1));
            ReadySnapshot(h, n) && h.left.Some? && Some(h.snapshots[n].contents) != h.left
  {
  }

  lemma WritingDooms(s: State)
    requires Perilous(s) && s.op.Idle?
    ensures var n := SnapshotNameOf(s.c.id);
            && n in s.c.infra.snapshots
            && var s' := Run(s, Writing(n, s.c.infra.snapshots[n].contents + 1));
               s'.op.Idle? && Doomed(s'.c) && s'.c.cr == s.c.cr && s'.c.clock == s.c.clock + 4
  {
    hide SnapshotNameOf, OpStep, Run, ServerStep, InfraStep, DiskFits, FreshSnapshot;
    var n := SnapshotNameOf(s.c.id);
    var w := Writing(n, s.c.infra.snapshots[n].contents + 1);
    RunFour(s, w[0], w[1], w[2], w[3]);
    WritingSpoils(s.c.infra, n);
  }

  /** One or two further passes park a doomed session on the snapshot it has. */
  lemma DoomedLoses(s: State) returns (moves: seq<Move>)
    requires s.op.Idle? && Doomed(s.c) && !PastTtl(s.c.cr.value, s.c.clock + 10)
    ensures NoPause(moves)
    ensures var c := Run(s, moves).c; !c.torn && !Held(c)
  {
    hide Step, Held;
    PassHasNoPause(s.c);
    moves := QuietMoves(s.c);
    if s.c.cr.value.status.snapshotName != "" {
      ParkLoses(s);
    } else {
      SuspendKeepsDoomed(s);
      var s1 := Run(s, moves);
      ParkLoses(s1);
      PassHasNoPause(s1.c);
      RunAppend(s, moves, QuietMoves(s1.c));
      moves := moves + QuietMoves(s1.c);
    }
  }

  /** Where pausing is not safe, a run without further pauses loses what the VM left last. */
  lemma PauseLoses(s: State) returns (moves: seq<Move>)
    requires InUse(s) && !SafeToPause(s)
    ensures NoPause(moves)
    ensures var c := Run(Step(s, PAUSE), moves).c; !c.torn && !Held(c)
  {
    hide SafeToPause, Step, Perilous, Doomed, Kept, Held, CallsLeft, Writing;
    PauseEndangers(s);
    var s0 := Step(s, PAUSE);
    var first := PassEndsInPeril(s0);
    var s1 := Run(s0, first);
    FewCalls(s0);
    WritingDooms(s1);
    var n := SnapshotNameOf(s1.c.id);
    var w := Writing(n, s1.c.infra.snapshots[n].contents + 1);
    WritingIsNature(n, s1.c.infra.snapshots[n].contents + 1);
    var s2 := Run(s1, w);
    var last := DoomedLoses(s2);
    RunAppend(s1, w, last);
    RunAppend(s0, first, w + last);
    moves := first + (w + last);
  }

  lemma FewCalls(s: State)
    ensures CallsLeft(s.op) <= 4
  {
  }

  lemma WritingIsNature(n: string, contents: Contents)
    ensures NoPause(Writing(n, contents))
  {
  }

  /** Pausing a session at any point of a pass is safe, whatever follows, exactly when no snapshot object of its name
      exists or the one that does already holds what the VM left, with no VM that could write any more and no pass
      under way that is about to set one up. */
  lemma PauseSafeIff(s: State)
    requires InUse(s)
    ensures (forall moves :: Guarded(Step(s, PAUSE), moves) ==>
               var c := Run(Step(s, PAUSE), moves).c; c.torn || Held(c))
            <==> SafeToPause(s)
  {
    hide Step, Kept, Held, SafeToPause;
    if !SafeToPause(s) {
      var moves := PauseLoses(s);
      NoPauseIsGuarded(Step(s, PAUSE), moves);
    } else {
      StepKeepsKept(s, PAUSE);
      forall moves | Guarded(Step(s, PAUSE), moves)
        ensures var c := Run(Step(s, PAUSE), moves).c; c.torn || Held(c)
      {
        GuardedRunKeeps(Step(s, PAUSE), moves);
        if !Run(Step(s, PAUSE), moves).c.torn {
          KeptHolds(Run(Step(s, PAUSE), moves));
        }
      }
    }
  }
}
