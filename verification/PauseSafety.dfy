/** Pausing: when the disk may be dropped, and when what the VM wrote survives it. */
module PauseSafety {
  import opened LabSessions
  import opened Protocol
  import opened ProtocolSafety

  predicate ReadySnapshot(f: Infra, name: string) {
    name in f.snapshots && f.snapshots[name].ready
  }

  predicate IsPaused(c: Cluster) {
    c.cr.Some? && c.cr.value.status.phase == Paused
  }

  // ---------------------------------------------------------------- phase Paused, whoever pauses and when

  /** Paused stands for a dropped disk and a recorded snapshot ready to restore it. */
  predicate Parked(c: Cluster) {
    && c.infra.disk.None?
    && c.cr.Some? && c.cr.value.status.snapshotName == SnapshotNameOf(c.id)
    && ReadySnapshot(c.infra, SnapshotNameOf(c.id))
  }

  predicate Parking(p: Point) {
    p.PatchPaused? || (p.DeleteDisk? && p.goal.Park?)
  }

  predicate Sealed(s: State) {
    && Protected(s)
    && (s.op.At? && (Tearing(s.op.point, Deletion) || Tearing(s.op.point, Expiry)) ==> s.c.torn)
    && (!s.c.torn && IsPaused(s.c) ==> Parked(s.c))
    && (s.op.At? && Parking(s.op.point) ==> ReadySnapshot(s.c.infra, s.op.ls.status.snapshotName))
  }

  lemma NatureKeepsReady(f: Infra, a: InfraAction, name: string)
    requires ReadySnapshot(f, name)
    ensures ReadySnapshot(InfraStep(f, a), name)
  {
  }

  lemma EnvKeepsSealed(s: State, e: Event)
    requires Sealed(s)
    ensures Sealed(Step(s, Env(e)))
  {
    hide View, ServerStep, InfraStep, Tearing, ReadySnapshot, Progress;
    EnvKeepsProtected(s, e);
    match e
    case Server(_, act) => ServerKeepsFrame(s.c.(clock := s.c.clock + 1 + e.wait), act);
    case Nature(_, move) =>
      NatureKeepsObjects(s.c.infra, move);
      if ReadySnapshot(s.c.infra, SnapshotNameOf(s.c.id)) {
        NatureKeepsReady(s.c.infra, move, SnapshotNameOf(s.c.id));
      }
      if s.op.At? && ReadySnapshot(s.c.infra, s.op.ls.status.snapshotName) {
        NatureKeepsReady(s.c.infra, move, s.op.ls.status.snapshotName);
      }
  }

  lemma BeginKeepsSealed(c: Cluster, k: ApiCall)
    requires c.cr.Some? && (!c.torn && IsPaused(c) ==> Parked(c))
    requires Protected(Begin(c, c.cr.value, k))
    ensures Sealed(Begin(c, c.cr.value, k))
  {
    hide Protected, Parked, ReadySnapshot;
  }

  lemma InfraKeepsSealed(c: Cluster, p: Point, ls: LabSession, k: ApiCall)
    requires Sealed(State(c, At(p, ls), Busy)) && !WritesCr(p)
    requires Protected(Perform(c, p, ls, k))
    ensures Sealed(Perform(c, p, ls, k))
  {
    hide CrEffect, SnapshotNameOf, ServiceDNSOf, ReportVmi, Progress, RequeueUntilExpiry;
    AfterInfraFrame(c.(infra := InfraEffect(c.infra, p, ls)), p, ls, k);
  }

  lemma CrKeepsSealed(c: Cluster, p: Point, ls: LabSession)
    requires Sealed(State(c, At(p, ls), Busy)) && WritesCr(p)
    requires Protected(CrEffect(c, p, ls))
    ensures Sealed(CrEffect(c, p, ls))
  {
    hide SnapshotNameOf, ReadySnapshot;
  }

  lemma OpKeepsSealed(s: State, k: ApiCall)
    requires Sealed(s)
    ensures Sealed(Step(s, Op(k)))
  {
    hide Protected, Begin, Tearing, CrEffect, AfterInfra, InfraEffect, ReadySnapshot, Parking;
    OpKeepsProtected(s, k);
    var c := s.c.(clock := s.c.clock + 1 + k.wait);
    match s.op
    case Idle =>
      if c.cr.Some? && k.outcome == Done {
        BeginKeepsSealed(c, k);
      }
    case At(p, ls) =>
      ProtectedIgnoresClock(s, c);
      PerformKeepsProtected(c, p, ls, k);
      if WritesCr(p) {
        CrKeepsSealed(c, p, ls);
      } else {
        InfraKeepsSealed(c, p, ls, k);
      }
  }

  lemma StepKeepsSealed(s: State, m: Move)
    requires Sealed(s)
    ensures Sealed(Step(s, m))
  {
    hide Sealed, EnvStep, OpStep;
    match m
    case Env(e) => EnvKeepsSealed(s, e);
    case Op(k) => OpKeepsSealed(s, k);
  }

  lemma {:induction false} RunKeepsSealed(s: State, moves: seq<Move>)
    requires Sealed(s)
    ensures Sealed(Run(s, moves))
    decreases |moves|
  {
    hide Sealed, Step;
    if moves != [] {
      StepKeepsSealed(s, moves[0]);
      RunKeepsSealed(Step(s, moves[0]), moves[1..]);
    }
  }

  lemma InitSealed(s: State)
    requires Init(s)
    ensures Sealed(s)
  {
  }

  /** A pass about to delete the disk tears down or parks, and parks with the recorded snapshot's name. */
  lemma DeleteDiskView(s: State)
    requires Protected(s) && s.op.At? && s.op.point.DeleteDisk?
    ensures var g := s.op.point.goal;
            && (g.Deletion? || g.Expiry? || g.Park?)
            && (g.Park? ==>
                  && s.c.cr.Some? && s.c.cr.value.status.snapshotName == s.op.ls.status.snapshotName
                  && s.op.ls.status.snapshotName == SnapshotNameOf(s.c.id))
  {
    hide SnapshotNameOf, Progress;
  }

  /** Only a pass about to delete the disk makes it disappear, and changes nothing else by it. */
  lemma DiskDropByCall(s: State, m: Move)
    requires s.c.infra.disk.Some? && Step(s, m).c.infra.disk.None?
    ensures m.Op? && s.op.At? && s.op.point.DeleteDisk?
    ensures var c := Step(s, m).c; c == s.c.(clock := c.clock, infra := s.c.infra.(disk := None))
  {
    hide EnvStep, OpStep, Perform;
    match m
    case Env(e) => EnvKeepsDisk(s, e);
    case Op(k) =>
      var c := s.c.(clock := s.c.clock + 1 + k.wait);
      if s.op.At? {
        PerformKeepsDisk(c, s.op.point, s.op.ls, k);
        CallFrame(s, k);
      } else {
        BeginKeepsDisk(s, k);
      }
  }

  lemma EnvKeepsDisk(s: State, e: Event)
    ensures EnvStep(s.c, e).infra.disk.Some? == s.c.infra.disk.Some?
  {
    hide ServerStep, InfraStep;
    match e
    case Server(_, act) => ServerKeepsFrame(s.c.(clock := s.c.clock + 1 + e.wait), act);
    case Nature(_, move) => NatureKeepsObjects(s.c.infra, move);
  }

  lemma BeginKeepsDisk(s: State, k: ApiCall)
    requires s.op.Idle?
    ensures OpStep(s, k).c.infra == s.c.infra
  {
    hide Begin;
    var c := s.c.(clock := s.c.clock + 1 + k.wait);
    if c.cr.Some? {
      BeginFrame(c, c.cr.value, k);
    }
  }

  lemma PerformKeepsDisk(c: Cluster, p: Point, ls: LabSession, k: ApiCall)
    ensures c.infra.disk.Some? && !p.DeleteDisk? ==> Perform(c, p, ls, k).c.infra.disk.Some?
    ensures p.DeleteDisk? ==> Perform(c, p, ls, k).c == c.(infra := c.infra.(disk := None))
  {
    hide AfterInfra, CrEffect;
    if WritesCr(p) {
      CrEffectFrame(c, p, ls);
    } else {
      AfterInfraFrame(c.(infra := InfraEffect(c.infra, p, ls)), p, ls, k);
    }
  }

  /** A call that is refused leaves the cluster alone; otherwise it has its effect, reported or not. */
  lemma CallFrame(s: State, k: ApiCall)
    requires s.op.At?
    ensures var c := s.c.(clock := s.c.clock + 1 + k.wait);
            OpStep(s, k).c == if k.outcome == Refused then c else Perform(c, s.op.point, s.op.ls, k).c
  {
    hide Perform;
  }

  /** Until a TTL or deletion teardown, a disk disappears only once the recorded snapshot is ready. */
  lemma DiskDropNeedsSnapshot(s: State, m: Move)
    requires Sealed(s) && s.c.infra.disk.Some?
    requires var c := Step(s, m).c; c.infra.disk.None? && !c.torn
    ensures var c := Step(s, m).c;
            && c.cr.Some? && c.cr.value.status.snapshotName == SnapshotNameOf(c.id)
            && ReadySnapshot(c.infra, SnapshotNameOf(c.id))
  {
    hide Step, SnapshotNameOf, Parked, Protected;
    DiskDropByCall(s, m);
    DeleteDiskView(s);
  }
}
