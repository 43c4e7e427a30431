/** From pause to resume: the session comes to rest paused, and resumed it serves the disk it was paused with. */
module PauseCycle {
  import opened LabSessions
  import opened Protocol
  import opened ProtocolSafety
  import opened PauseSafety
  import opened DiskConservation
  import opened Convergence
  import opened Settling

  /** Before any teardown, with a given spec and a VM that has run. */
  predicate Calm(s: State, spec: Spec) {
    && Kept(s) && !s.c.torn
    && s.c.cr.Some? && !s.c.cr.value.deleting && s.c.cr.value.spec == spec
    && s.c.infra.left.Some?
  }

  /** The deadline has not passed by some instant. */
  predicate InTime(spec: Spec, now: int) {
    spec.expiresAt == 0 || now <= spec.expiresAt
  }

  // ---------------------------------------------------------------- one call

  lemma BeginKeepsCalm(c: Cluster, k: ApiCall)
    requires c.cr.Some? && !c.cr.value.deleting && InTime(c.cr.value.spec, c.clock)
    ensures Begin(c, c.cr.value, k).c == c
  {
    hide AfterProvider;
    if k.config.Some? {
      AfterInfraFrame(c, GetVmi, c.cr.value, k);
      ProviderFrame(c, c.cr.value, ProviderResult(Failed, "", k.config.value), k);
    }
  }

  lemma ProviderFrame(c: Cluster, ls: LabSession, res: ProviderResult, k: ApiCall)
    ensures AfterProvider(c, ls, res, k).c == c
  {
    hide RequeueUntilExpiry;
  }

  lemma CrKeepsSpec(c: Cluster, p: Point, ls: LabSession)
    requires View(State(c, At(p, ls), Busy)) && WritesCr(p) && !p.DropFinalizer? && c.cr.Some?
    ensures var c' := CrEffect(c, p, ls).c;
            && c' == c.(cr := c'.cr) && c'.cr.Some?
            && c'.cr.value.spec == c.cr.value.spec && c'.cr.value.deleting == c.cr.value.deleting
  {
    hide AfterPatch, PointFits, FieldMerge, Mutated;
    if !p.AddFinalizer? {
      var d := PatchStatus(c, ls, Mutated(ls.status, p));
      AfterPatchFrame(d, p, d.cr.value, ls.status.snapshotName);
    }
  }

  lemma PerformKeepsCalm(c: Cluster, p: Point, ls: LabSession, k: ApiCall)
    requires Sealed(State(c, At(p, ls), Busy)) && !c.torn && c.cr.Some?
    ensures var c' := Perform(c, p, ls, k).c;
            && c' == c.(cr := c'.cr, infra := c'.infra) && c'.cr.Some? && c'.infra.left == c.infra.left
            && c'.cr.value.spec == c.cr.value.spec && c'.cr.value.deleting == c.cr.value.deleting
  {
    hide Protected, Parked, Parking, CrEffect, AfterInfra;
    if WritesCr(p) {
      ProtectedView(State(c, At(p, ls), Busy));
      CrKeepsSpec(c, p, ls);
    } else {
      AfterInfraFrame(c.(infra := InfraEffect(c.infra, p, ls)), p, ls, k);
    }
  }

  lemma ProtectedView(s: State)
    requires Protected(s)
    ensures View(s)
  {
  }

  lemma OpKeepsCalm(s: State, k: ApiCall, spec: Spec)
    requires Calm(s, spec) && InTime(spec, Step(s, Op(k)).c.clock)
    ensures Calm(Step(s, Op(k)), spec) && Step(s, Op(k)).c.infra.left == s.c.infra.left
  {
    hide Kept, Perform, Begin, InTime;
    OpKeepsKept(s, k);
    OpFrame(s, k);
    var c := s.c.(clock := s.c.clock + 1 + k.wait);
    match s.op
    case Idle => BeginKeepsCalm(c, k);
    case At(p, ls) =>
      KeptSealed(s, c);
      PerformKeepsCalm(c, p, ls, k);
  }

  lemma KeptSealed(s: State, c: Cluster)
    requires Kept(s) && c == s.c.(clock := c.clock)
    ensures Sealed(State(c, s.op, Busy))
  {
    hide Sealed, Live;
    SealedIgnoresClock(s, c);
  }

  // ---------------------------------------------------------------- histories

  /** No VM writes in a run. */
  predicate Still(moves: seq<Move>) {
    forall i :: 0 <= i < |moves| && moves[i].Env? && moves[i].event.Nature? ==> !moves[i].event.move.VmWrites?
  }

  /** A pause under way has stopped the VM by the time its snapshot's name is recorded. */
  predicate Stopped(c: Cluster) {
    c.cr.Some? && c.cr.value.spec.paused && c.cr.value.status.snapshotName != "" ==> c.infra.vmi.None?
  }

  lemma StepKeepsCalm(s: State, m: Move, heard: bool, spec: Spec)
    requires Calm(s, spec) && Permitted(m, heard) && InTime(spec, Step(s, m).c.clock)
    ensures var s' := Step(s, m);
            && Calm(s', spec)
            && (m.Env? ==> m.event.Nature? && (!m.event.move.VmWrites? ==> s'.c.infra.left == s.c.infra.left))
            && (m.Op? ==> s'.c.infra.left == s.c.infra.left)
  {
    hide Kept, OpStep;
    match m
    case Op(k) => OpKeepsCalm(s, k, spec);
    case Env(e) =>
      EnvKeepsKept(s, e);
      KeptFits(s);
  }

  lemma KeptFits(s: State)
    requires Kept(s) && !s.c.torn
    ensures DiskFits(s.c.infra)
  {
    hide Sealed, DiskFits;
  }

  lemma CallKeepsStopped(c: Cluster, p: Point, ls: LabSession, k: ApiCall)
    requires Steady(State(c, At(p, ls), Busy)) && Stopped(c) && c.cr.Some? && c.cr.value.spec.paused
    ensures Stopped(Perform(c, p, ls, k).c)
  {
    hide Sound, Backed, Standing, EnsuredBy, RequeueUntilExpiry, AfterProvider, SnapshotNameOf, ServiceDNSOf;
    if !WritesCr(p) {
      AfterInfraFrame(c.(infra := InfraEffect(c.infra, p, ls)), p, ls, k);
    }
  }

  lemma StepKeepsStopped(s: State, m: Move, heard: bool, spec: Spec)
    requires Calm(s, spec) && Steady(s) && Permitted(m, heard) && spec.paused && Stopped(s.c)
    requires InTime(spec, Step(s, m).c.clock)
    ensures Stopped(Step(s, m).c)
  {
    hide Kept, Steady, Perform, Begin;
    match m
    case Op(k) =>
      var c := s.c.(clock := s.c.clock + 1 + k.wait);
      OpFrame(s, k);
      match s.op {
        case Idle => BeginKeepsCalm(c, k);
        case At(p, ls) =>
          SteadyLater(s, c);
          CallKeepsStopped(c, p, ls, k);
      }
    case Env(e) => NatureGrows(s.c.infra, e.move);
  }

  /** A run that ends before the deadline keeps the spec, begins no teardown, and keeps what the VM wrote last until
      it writes again; if the session is paused, its VM stays stopped. */
  lemma {:induction false} RunKeepsCalm(s: State, moves: seq<Move>, heard: bool, spec: Spec)
    requires Calm(s, spec) && Steady(s) && Undisturbed(moves, heard) && InTime(spec, Run(s, moves).c.clock)
    ensures var s' := Run(s, moves);
            && Calm(s', spec)
            && (Still(moves) ==> s'.c.infra.left == s.c.infra.left)
            && (spec.paused && Stopped(s.c) ==> Stopped(s'.c))
    decreases |moves|
  {
    hide Calm, Steady, Step, Stopped, Permitted, Answered;
    if moves != [] {
      var m, s1 := moves[0], Step(s, moves[0]);
      RunAdvances(s1, moves[1..]);
      SteadyCr(s);
      StepSettles(s, m, heard);
      StepKeepsCalm(s, m, heard, spec);
      if spec.paused && Stopped(s.c) {
        StepKeepsStopped(s, m, heard, spec);
      }
      RunKeepsCalm(s1, moves[1..], Answered(m, heard), spec);
    }
  }

  predicate AllStill(sweeps: seq<seq<Move>>) {
    forall i :: 0 <= i < |sweeps| ==> Still(sweeps[i])
  }

  lemma {:induction false} SweepsAdvance(s: State, sweeps: seq<seq<Move>>)
    ensures RunAll(s, sweeps).c.clock >= s.c.clock
    decreases |sweeps|
  {
    hide Run;
    if sweeps != [] {
      RunAdvances(s, sweeps[0]);
      SweepsAdvance(Run(s, sweeps[0]), sweeps[1..]);
    }
  }

  lemma {:induction false} SweepsKeepCalm(s: State, sweeps: seq<seq<Move>>, heard: bool, spec: Spec)
    requires Calm(s, spec) && Steady(s) && Sweeps(sweeps, heard, SnapshotNameOf(s.c.id))
    requires InTime(spec, RunAll(s, sweeps).c.clock)
    ensures var s' := RunAll(s, sweeps);
            && Calm(s', spec)
            && (AllStill(sweeps) ==> s'.c.infra.left == s.c.infra.left)
            && (spec.paused && Stopped(s.c) ==> Stopped(s'.c))
    decreases |sweeps|
  {
    hide Calm, Steady, Run, Undisturbed, Still, Stopped, Sweep, AnsweredBy, Left;
    if sweeps != [] {
      var s1 := Run(s, sweeps[0]);
      SweepsAdvance(s1, sweeps[1..]);
      SteadyCr(s);
      FewEffects(s, sweeps[0], heard);
      RunKeepsCalm(s, sweeps[0], heard, spec);
      SweepsKeepCalm(s1, sweeps[1..], AnsweredBy(sweeps[0], heard), spec);
    }
  }

  // ---------------------------------------------------------------- the cycle

  function Asked(s: State, act: ServerAction): State {
    Step(s, Env(Server(0, act)))
  }

  /** A rest before the deadline is no expiry. */
  lemma RestOf(s: State, spec: Spec)
    requires Calm(s, spec) && Steady(s) && s.c.cr.Some? && Resting(s) && InTime(spec, s.c.clock + 1)
    ensures if spec.paused then s.op.Idle? && Parked(s.c) && IsPaused(s.c)
            else Serving(s.c) && s.c.infra.disk.value.contents == s.c.infra.left
  {
    hide SnapshotNameOf, ServiceDNSOf, PointFits, Progress, Backed;
  }

  /** The recorded snapshot, if any, is there. */
  predicate SnapshotThere(c: Cluster) {
    c.cr.Some? && (c.cr.value.status.snapshotName != "" ==> SnapshotNameOf(c.id) in c.infra.snapshots)
  }

  lemma AskKeepsCalm(s: State, paused: bool, spec: Spec)
    requires Calm(s, spec) && Steady(s) && s.op.Idle?
    requires if paused then SafeToPause(s) && SnapshotThere(s.c) else Parked(s.c)
    ensures var s' := Asked(s, if paused then Pause else Resume);
            && Calm(s', spec.(paused := paused)) && Steady(s') && s'.c.id == s.c.id
            && s'.c.infra.left == s.c.infra.left && s'.c.clock > s.c.clock
            && s'.c.cr.value.status == s.c.cr.value.status
  {
    hide Kept, SnapshotNameOf, Lapsing, FreshSnapshot;
    var e := Server(0, if paused then Pause else Resume);
    EnvKeepsKept(s, e);
    EnvKeepsLapsing(s, e);
    KeptFits(s);
  }

  /** A run of sweeps that ends before the deadline ends at rest. */
  lemma SweepsRest(s: State, sweeps: seq<seq<Move>>, spec: Spec)
    requires Calm(s, spec) && Steady(s) && |sweeps| >= 76 && Sweeps(sweeps, false, SnapshotNameOf(s.c.id))
    requires InTime(spec, RunAll(s, sweeps).c.clock + 1)
    ensures var s' := RunAll(s, sweeps);
            && Calm(s', spec) && Steady(s') && s'.c.id == s.c.id
            && (if spec.paused then s'.op.Idle? && Parked(s'.c) && IsPaused(s'.c)
                else Serving(s'.c) && s'.c.infra.disk.value.contents == s'.c.infra.left)
            && (AllStill(sweeps) ==> s'.c.infra.left == s.c.infra.left)
            && (spec.paused && Stopped(s.c) ==> Stopped(s'.c))
  {
    hide Kept, Steady, RunAll, Resting, Parked, Serving, SnapshotNameOf, Sweeps, AllStill, Stopped;
    SteadyCr(s);
    Converges(s, sweeps, false);
    SweepsKeepCalm(s, sweeps, false, spec);
    RestOf(RunAll(s, sweeps), spec);
  }

  /** Paused where that is safe, with its recorded snapshot there if there is one, a session comes to rest with its
      disk dropped and its snapshot ready, whatever the pace of the calls and of the cluster; resumed, it comes to
      serve again, on a disk that holds exactly what the VM had written last. */
  lemma PauseThenResume(s: State, spec: Spec, toPause: seq<seq<Move>>, toResume: seq<seq<Move>>)
    requires Calm(s, spec) && Steady(s) && s.op.Idle? && SafeToPause(s) && SnapshotThere(s.c)
    requires |toPause| >= 76 && Sweeps(toPause, false, SnapshotNameOf(s.c.id))
    requires |toResume| >= 76 && Sweeps(toResume, false, SnapshotNameOf(s.c.id))
    requires var s1 := RunAll(Asked(s, Pause), toPause);
             InTime(spec, RunAll(Asked(s1, Resume), toResume).c.clock + 1)
    ensures var s1 := RunAll(Asked(s, Pause), toPause);
            var s2 := RunAll(Asked(s1, Resume), toResume);
            && IsPaused(s1.c) && Parked(s1.c) && (s.c.cr.value.status.snapshotName == "" ==> s1.c.infra.vmi.None?)
            && Serving(s2.c) && s2.c.infra.disk.value.contents == s2.c.infra.left
            && (AllStill(toPause) ==> s1.c.infra.left == s.c.infra.left)
            && (AllStill(toResume) ==> s2.c.infra.left == s1.c.infra.left)
  {
    hide Asked, Calm, Steady, RunAll, Parked, Serving, SnapshotNameOf, Sweeps, AllStill, SafeToPause;
    var s0 := Asked(s, Pause);
    var s1 := RunAll(s0, toPause);
    var s2 := Asked(s1, Resume);
    SweepsAdvance(s2, toResume);
    AskAdvances(s1, Resume);
    AskKeepsCalm(s, true, spec);
    SweepsRest(s0, toPause, spec.(paused := true));
    PausedStops(s1, spec.(paused := true));
    AskKeepsCalm(s1, false, spec.(paused := true));
    SweepsRest(s2, toResume, spec.(paused := false));
  }

  lemma AskAdvances(s: State, act: ServerAction)
    ensures Asked(s, act).c.clock > s.c.clock
  {
    hide Step;
    StepAdvances(s, Env(Server(0, act)));
  }

  lemma PausedStops(s: State, spec: Spec)
    requires Calm(s, spec) && spec.paused && Parked(s.c)
    ensures Stopped(s.c) ==> s.c.infra.vmi.None?
  {
    hide Kept;
  }

  // ---------------------------------------------------------------- a pause that never ends

  /** A pause under way whose recorded snapshot is not there. */
  predicate Stalled(s: State) {
    && s.c.cr.Some?
    && var ls := s.c.cr.value;
       && !ls.deleting && ls.finalizer && ls.spec.paused && ls.status.phase != Paused
       && ls.status.snapshotName != "" && ls.status.snapshotName !in s.c.infra.snapshots
       && (s.op.At? ==> s.op.point.CheckSnapshot? && s.op.ls == ls)
  }

  /** Nobody edits the session. */
  predicate Unedited(moves: seq<Move>) {
    forall i :: 0 <= i < |moves| ==> moves[i].Env? ==> moves[i].event.Nature?
  }

  lemma StepStalls(s: State, m: Move)
    requires Stalled(s) && (m.Env? ==> m.event.Nature?) && InTime(s.c.cr.value.spec, Step(s, m).c.clock)
    ensures Stalled(Step(s, m)) && Step(s, m).c.cr == s.c.cr
  {
    match m
    case Op(k) => OpFrame(s, k);
    case Env(e) => NatureKeepsObjects(s.c.infra, e.move);
  }

  /** The condition on the recorded snapshot is exact: without it no run of calls, whatever fails, and moves of the
      cluster brings the pause to an end before the deadline; each pass only looks and comes back. */
  lemma {:induction false} PauseStalls(s: State, moves: seq<Move>)
    requires Stalled(s) && Unedited(moves) && InTime(s.c.cr.value.spec, Run(s, moves).c.clock)
    ensures Stalled(Run(s, moves)) && Run(s, moves).c.cr == s.c.cr
    decreases |moves|
  {
    hide Step, Stalled;
    if moves != [] {
      RunAdvances(Step(s, moves[0]), moves[1..]);
      StalledCr(s);
      StepAdvances(s, moves[0]);
      StepStalls(s, moves[0]);
      PauseStalls(Step(s, moves[0]), moves[1..]);
    }
  }

  lemma StalledCr(s: State)
    requires Stalled(s)
    ensures s.c.cr.Some?
  {
  }

  /** It comes about when a resumed session's snapshot is deleted but the call that does so reports an error: a pause
      that lands before the pass is repeated finds the name still recorded. */
  lemma LostCleanupStalls(s: State, k: ApiCall)
    requires Steady(s) && s.op.At? && s.op.point.DeleteSnapshot? && s.op.point.goal.Cleanup? && k.outcome == Lost
    ensures Stalled(Asked(Step(s, Op(k)), Pause))
  {
    hide Gone, Standing, Shows, SnapshotNameOf, Backed, Sound;
  }
}
