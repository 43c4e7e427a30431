/** Pause and resume conserve the disk: the contents the VM left last are never lost, provided no session is
    paused while a snapshot object of its name still exists. */
module DiskConservation {
  import opened LabSessions
  import opened Protocol
  import opened ProtocolSafety
  import opened PauseSafety
  import opened Passes

  /** A pass that read paused and is on its way to a snapshot or to dropping the disk. */
  predicate Pausing(p: Point) {
    Tearing(p, Suspend) || p.TakeSnapshot? || p.PatchSnapshot? || p.CheckSnapshot? || Parking(p)
  }

  /** The pass, whatever it read before, may still set up a VM that can write. */
  predicate Enabling(p: Point, f: Infra) {
    match p
    case EnsureDisk => f.vmi.None? || f.vmi == Some(Pending)
    case EnsureSecret | EnsureVmi => f.vmi.None? && f.disk.Some?
    case _ => false
  }

  /** The VM was seen up, so the pass may be about to give the snapshot away. */
  predicate SawVmUp(p: Point) {
    match p
    case PatchProgress(_, phase) => phase == Running || phase == Ready
    case DeleteSnapshot(g, _) => g.Cleanup?
    case PatchCleared(_) => true
    case _ => false
  }

  predicate Populated(f: Infra) {
    f.disk.Some? && f.disk.value.contents.Some?
  }

  /** The disk, once populated, holds what the VM left, and a VM that is up has such a disk. */
  predicate DiskFits(f: Infra) {
    && (Populated(f) && f.left.Some? ==> f.disk.value.contents == f.left)
    && (f.vmi == Some(Up) ==> Populated(f))
  }

  /** With no populated disk, the recorded snapshot is ready and holds it, and any disk is to be restored from it. */
  predicate SnapshotHolds(c: Cluster, n: string) {
    && c.cr.Some? && c.cr.value.status.snapshotName == n
    && ReadySnapshot(c.infra, n) && Some(c.infra.snapshots[n].contents) == c.infra.left
    && (c.infra.disk.Some? ==> c.infra.disk.value.source == FromSnapshot(n))
  }

  predicate WantsPause(s: State) {
    (s.c.cr.Some? && s.c.cr.value.spec.paused) || (s.op.At? && Pausing(s.op.point))
  }

  /** A VM that writes, or that may yet come up to. */
  predicate MayWrite(f: Infra) {
    f.vmi == Some(Up) || (f.vmi == Some(Pending) && f.disk.Some?)
  }

  /** The snapshot a pause may act on was taken of the disk the VM left, and no VM can write any more. */
  predicate FreshSnapshot(f: Infra, n: string) {
    !MayWrite(f) && (f.left.Some? ==> n in f.snapshots && Some(f.snapshots[n].contents) == f.left)
  }

  predicate Live(s: State, n: string) {
    var f := s.c.infra;
    && DiskFits(f)
    && (f.disk.Some? && f.disk.value.source.FromSnapshot? ==> f.disk.value.source.name == n)
    && (f.left.Some? ==> s.c.cr.Some? && s.c.cr.value.finalizer)
    && (f.left.Some? && !Populated(f) ==> SnapshotHolds(s.c, n))
    && (n in f.snapshots && WantsPause(s) ==> FreshSnapshot(f, n) && !(s.op.At? && Enabling(s.op.point, f)))
    && (s.op.At? && SawVmUp(s.op.point) ==> Populated(f))
  }

  predicate Kept(s: State) {
    Sealed(s) && (s.c.torn || Live(s, SnapshotNameOf(s.c.id)))
  }

  /** What the VM left last is on the disk or in a ready snapshot whose name is recorded. */
  predicate Held(c: Cluster) {
    c.infra.left.Some? ==>
      || (c.infra.disk.Some? && c.infra.disk.value.contents == c.infra.left)
      || (c.cr.Some? && ReadySnapshot(c.infra, c.cr.value.status.snapshotName)
          && Some(c.infra.snapshots[c.cr.value.status.snapshotName].contents) == c.infra.left)
  }

  /** No snapshot object of the session's name exists, or it already holds what the VM left for good: no VM can write
      any more, and no pass under way is about to set one up. */
  predicate SafeToPause(s: State) {
    var n := SnapshotNameOf(s.c.id);
    n in s.c.infra.snapshots ==>
      FreshSnapshot(s.c.infra, n) && !(s.op.At? && Enabling(s.op.point, s.c.infra))
  }

  /** The session is paused only where that loses nothing; it may be paused again and again. */
  predicate PauseAllowed(s: State, m: Move) {
    m.Env? && m.event.Server? && m.event.act.Pause? ==> SafeToPause(s)
  }

  predicate Guarded(s: State, moves: seq<Move>)
    decreases |moves|
  {
    moves != [] ==> PauseAllowed(s, moves[0]) && Guarded(Step(s, moves[0]), moves[1..])
  }

  // ---------------------------------------------------------------- server and environment

  lemma ServerKeepsLive(s: State, c: Cluster, a: ServerAction, n: string)
    requires Protected(s) && Live(State(c, s.op, s.result), n)
    requires c == s.c.(clock := c.clock)
    requires a.Pause? && n in c.infra.snapshots ==>
               FreshSnapshot(c.infra, n) && !(s.op.At? && Enabling(s.op.point, c.infra))
    ensures Live(State(ServerStep(c, a), s.op, s.result), n)
  {
    hide PointFits, Pausing, SawVmUp, DiskFits, ReadySnapshot, FieldMerge, Progress;
    ServerKeepsFrame(c, a);
  }

  lemma NatureKeepsLive(s: State, c: Cluster, a: InfraAction, n: string)
    requires Protected(s) && Live(State(c, s.op, s.result), n)
    requires c == s.c.(clock := c.clock)
    ensures Live(State(c.(infra := InfraStep(c.infra, a)), s.op, s.result), n)
  {
    hide View, PointFits, Pausing, SawVmUp, Progress;
  }

  lemma EnvKeepsKept(s: State, e: Event)
    requires Kept(s) && PauseAllowed(s, Env(e))
    ensures Kept(Step(s, Env(e)))
  {
    hide Protected, ServerStep, InfraStep, Live;
    EnvKeepsSealed(s, e);
    var c := s.c.(clock := s.c.clock + 1 + e.wait);
    var n := SnapshotNameOf(s.c.id);
    if !s.c.torn {
      LiveIgnoresClock(s, c, n);
      match e
      case Server(_, act) =>
        ServerKeepsLive(s, c, act, n);
        ServerKeepsFrame(c, act);
      case Nature(_, move) => NatureKeepsLive(s, c, move, n);
    } else if e.Server? {
      ServerKeepsFrame(c, e.act);
    }
  }

  lemma LiveIgnoresClock(s: State, c: Cluster, n: string)
    requires Live(s, n) && c == s.c.(clock := c.clock)
    ensures Live(State(c, s.op, s.result), n)
    ensures Live(State(c, s.op, Busy), n)
    ensures forall r :: Live(State(c, Idle, r), n)
  {
    hide DiskFits, Pausing, Enabling, SawVmUp;
  }

  // ---------------------------------------------------------------- the operator

  predicate Ensuring(p: Point) {
    p in {EnsureDisk, EnsureSecret, EnsureVmi, EnsureService, EnsurePolicy, GetVmi}
  }

  lemma BeginKeepsLive(c: Cluster, k: ApiCall, n: string)
    requires c.cr.Some? && Live(State(c, Idle, Busy), n)
    ensures var s' := Begin(c, c.cr.value, k); s'.c.torn || Live(s', n)
  {
    hide DiskFits, SnapshotHolds, FreshSnapshot, Populated;
  }

  lemma CrKeepsLive(c: Cluster, p: Point, ls: LabSession, n: string)
    requires Sealed(State(c, At(p, ls), Busy)) && Live(State(c, At(p, ls), Busy), n) && !c.torn
    requires WritesCr(p) && n == SnapshotNameOf(c.id)
    ensures Live(CrEffect(c, p, ls), n)
  {
    hide DiskFits, ReadySnapshot, RequeueUntilExpiry, SnapshotNameOf, Progress;
  }

  lemma EnsureDiskKeepsLive(c: Cluster, ls: LabSession, k: ApiCall, n: string)
    requires Protected(State(c, At(EnsureDisk, ls), Busy)) && Live(State(c, At(EnsureDisk, ls), Busy), n)
    requires n == SnapshotNameOf(c.id)
    ensures Live(Perform(c, EnsureDisk, ls, k), n)
  {
    hide SnapshotNameOf, PointFits, Progress;
  }

  lemma EnsureVmiKeepsLive(c: Cluster, ls: LabSession, k: ApiCall, n: string)
    requires Live(State(c, At(EnsureVmi, ls), Busy), n)
    ensures Live(Perform(c, EnsureVmi, ls, k), n)
  {
  }

  lemma EnsureOtherKeepsLive(c: Cluster, p: Point, ls: LabSession, k: ApiCall, n: string)
    requires Live(State(c, At(p, ls), Busy), n) && p in {EnsureSecret, EnsureService, EnsurePolicy}
    ensures Live(Perform(c, p, ls, k), n)
  {
  }

  lemma ReportGoesOn(c: Cluster, ls: LabSession, k: ApiCall)
    ensures var s' := Perform(c, GetVmi, ls, k);
            && s'.c == c
            && (s'.op.At? ==> s'.op.point.PatchProgress? || (s'.op.point.DeleteSnapshot? && s'.op.point.goal.Cleanup?))
            && (s'.op.At? && SawVmUp(s'.op.point) ==> c.infra.vmi == Some(Up))
  {
    hide RequeueUntilExpiry, ServiceDNSOf, CrEffect;
  }

  lemma ReportKeepsLive(c: Cluster, ls: LabSession, k: ApiCall, n: string)
    requires Live(State(c, At(GetVmi, ls), Busy), n)
    ensures Live(Perform(c, GetVmi, ls, k), n)
  {
    hide Perform, FreshSnapshot, SnapshotHolds;
    ReportGoesOn(c, ls, k);
  }

  lemma CleanupKeepsLive(c: Cluster, p: Point, ls: LabSession, k: ApiCall, n: string)
    requires Sealed(State(c, At(p, ls), Busy)) && Live(State(c, At(p, ls), Busy), n) && !c.torn
    requires n == SnapshotNameOf(c.id) && p.DeleteSnapshot? && p.goal.Cleanup?
    ensures Live(Perform(c, p, ls, k), n)
  {
    hide RequeueUntilExpiry, SnapshotNameOf, ServiceDNSOf, CrEffect, AfterProvider, Progress;
  }

  lemma PausingKeepsLive(c: Cluster, p: Point, ls: LabSession, k: ApiCall, n: string)
    requires Sealed(State(c, At(p, ls), Busy)) && Live(State(c, At(p, ls), Busy), n) && !c.torn
    requires !WritesCr(p) && n == SnapshotNameOf(c.id) && !Ensuring(p) && !(p.DeleteSnapshot? && p.goal.Cleanup?)
    ensures Live(Perform(c, p, ls, k), n)
  {
    hide RequeueUntilExpiry, SnapshotNameOf, ServiceDNSOf, CrEffect, AfterProvider;
    AfterInfraFrame(c.(infra := InfraEffect(c.infra, p, ls)), p, ls, k);
  }

  lemma InfraKeepsLive(c: Cluster, p: Point, ls: LabSession, k: ApiCall, n: string)
    requires Sealed(State(c, At(p, ls), Busy)) && Live(State(c, At(p, ls), Busy), n) && !c.torn
    requires !WritesCr(p) && n == SnapshotNameOf(c.id)
    ensures Live(Perform(c, p, ls, k), n)
  {
    hide Live, Perform, Sealed;
    if p.GetVmi? {
      ReportKeepsLive(c, ls, k, n);
    } else if p.DeleteSnapshot? && p.goal.Cleanup? {
      CleanupKeepsLive(c, p, ls, k, n);
    } else if !Ensuring(p) {
      PausingKeepsLive(c, p, ls, k, n);
    } else if p.EnsureDisk? {
      SealedProtected(State(c, At(p, ls), Busy));
      EnsureDiskKeepsLive(c, ls, k, n);
    } else if p.EnsureVmi? {
      EnsureVmiKeepsLive(c, ls, k, n);
    } else {
      EnsureOtherKeepsLive(c, p, ls, k, n);
    }
  }

  lemma SealedProtected(s: State)
    requires Sealed(s)
    ensures Protected(s)
  {
  }

  lemma OpKeepsKept(s: State, k: ApiCall)
    requires Kept(s)
    ensures Kept(Step(s, Op(k)))
  {
    hide Sealed, Live, Begin, CrEffect, AfterInfra, InfraEffect;
    OpKeepsSealed(s, k);
    var n := SnapshotNameOf(s.c.id);
    var c := s.c.(clock := s.c.clock + 1 + k.wait);
    OpFrame(s, k);
    if !s.c.torn {
      LiveIgnoresClock(s, c, n);
      match s.op
      case Idle =>
        if c.cr.Some? && k.outcome == Done {
          BeginKeepsLive(c, k, n);
        }
      case At(p, ls) =>
        SealedIgnoresClock(s, c);
        if WritesCr(p) {
          CrKeepsLive(c, p, ls, n);
        } else {
          InfraKeepsLive(c, p, ls, k, n);
        }
        AbortKeepsLive(Perform(c, p, ls, k), n);
    }
  }

  lemma SealedIgnoresClock(s: State, c: Cluster)
    requires Sealed(s) && c == s.c.(clock := c.clock)
    ensures Sealed(State(c, s.op, Busy))
  {
    hide Tearing, View, Progress;
    ProtectedIgnoresClock(s, c);
  }

  lemma AbortKeepsLive(s: State, n: string)
    requires Live(s, n)
    ensures forall r :: Live(State(s.c, Idle, r), n)
  {
    LiveIgnoresClock(s, s.c, n);
  }

  lemma {:induction false} GuardedRunKeeps(s: State, moves: seq<Move>)
    requires Kept(s) && Guarded(s, moves)
    ensures Kept(Run(s, moves))
    decreases |moves|
  {
    hide Kept, Step, PauseAllowed;
    if moves != [] {
      StepKeepsKept(s, moves[0]);
      GuardedRunKeeps(Step(s, moves[0]), moves[1..]);
    }
  }

  lemma StepKeepsKept(s: State, m: Move)
    requires Kept(s) && PauseAllowed(s, m)
    ensures Kept(Step(s, m))
  {
    hide Kept, EnvStep, OpStep;
    match m
    case Env(e) => EnvKeepsKept(s, e);
    case Op(k) => OpKeepsKept(s, k);
  }

  lemma InitKept(s: State)
    requires Init(s)
    ensures Kept(s)
  {
    InitSealed(s);
  }

  lemma KeptHolds(s: State)
    requires Kept(s) && !s.c.torn
    ensures Held(s.c)
    ensures CanBoot(s.c.infra) && s.c.infra.left.Some? ==> s.c.infra.disk.value.contents == s.c.infra.left
  {
    hide Sealed;
  }

  /** In every run, with failures at any call, what the VM left is held until a TTL or deletion teardown begins,
      and a VM about to boot again finds exactly that on its disk. */
  lemma DiskConserved(s: State, moves: seq<Move>)
    requires Init(s) && Guarded(s, moves)
    ensures var c := Run(s, moves).c;
            c.torn || (Held(c) && (CanBoot(c.infra) && c.infra.left.Some? ==>
                                     EnvStep(c, Nature(0, VmBoots)).infra == c.infra.(vmi := Some(Up))))
  {
    InitKept(s);
    GuardedRunKeeps(s, moves);
    if !Run(s, moves).c.torn {
      KeptHolds(Run(s, moves));
    }
  }

  /** The same for one whole pass of the operator's code, from any state in which the disk is kept. */
  lemma PassKeepsDisk(s: State, script: Script, i: nat)
    requires Kept(s) && s.op.Idle? && Guarded(s, PassMoves(s.c, script, i))
    ensures Kept(Pass(s.c, script, i))
    ensures var c := Pass(s.c, script, i).c; c.torn || Held(c)
  {
    hide Kept, Guarded, Held, PassMoves, Pass;
    PassIsRun(s, script, i);
    GuardedRunKeeps(s, PassMoves(s.c, script, i));
    if !Pass(s.c, script, i).c.torn {
      KeptHolds(Pass(s.c, script, i));
    }
  }
}
