/** What every reachable state of the lifecycle keeps, whatever fails and however the two processes interleave. */
module ProtocolSafety {
  import opened LabSessions
  import opened Protocol

  lemma RunCons(s: State, m: Move, moves: seq<Move>)
    ensures Run(s, [m] + moves) == Run(Step(s, m), moves)
  {
    hide Step;
    assert ([m] + moves)[1..] == moves;
  }

  lemma RunFour(s: State, m0: Move, m1: Move, m2: Move, m3: Move)
    ensures Run(s, [m0, m1, m2, m3]) == Step(Step(Step(Step(s, m0), m1), m2), m3)
  {
    hide Step;
    RunCons(s, m0, [m1, m2, m3]);
    RunCons(Step(s, m0), m1, [m2, m3]);
    RunCons(Step(Step(s, m0), m1), m2, [m3]);
    RunCons(Step(Step(Step(s, m0), m1), m2), m3, []);
  }

  // ---------------------------------------------------------------- what a pass may rely on

  predicate SameLifecycle(a: Status, b: Status) {
    a == b.(completedSteps := a.completedSteps)
  }

  /** What the pass read before it set out on a deletion with this goal. */
  predicate GoalFits(g: Goal, ls: LabSession) {
    match g
    case Deletion => ls.deleting
    case Expiry => ls.status.phase != Expired
    case Suspend => ls.status.phase != Paused && ls.status.snapshotName == ""
    case Park => ls.status.phase != Paused && ls.status.snapshotName != ""
    case Cleanup(phase) => ls.status.phase != Paused && (phase == Running || phase == Ready)
  }

  /** The points a pass can stand at, by the branch it took, and what it read to get there. */
  predicate PointFits(p: Point, ls: LabSession) {
    match p
    case AddFinalizer => !ls.finalizer
    case DropFinalizer => ls.deleting
    case DeleteVmi(g) => (g.Deletion? || g.Expiry? || g.Suspend?) && GoalFits(g, ls)
    case DeletePolicy(g) => (g.Deletion? || g.Expiry? || g.Suspend?) && GoalFits(g, ls)
    case DeleteService(g) => (g.Deletion? || g.Expiry? || g.Suspend?) && GoalFits(g, ls)
    case DeleteDisk(g) => (g.Deletion? || g.Expiry? || g.Park?) && GoalFits(g, ls)
    case DeleteSnapshot(g, name) =>
      (g.Deletion? || g.Expiry? || g.Cleanup?) && GoalFits(g, ls) && name == ls.status.snapshotName && name != ""
    case PatchExpired => GoalFits(Expiry, ls)
    case TakeSnapshot => GoalFits(Suspend, ls)
    case PatchSnapshot(name) => GoalFits(Suspend, ls) && name == SnapshotNameOf(ls.spec.sessionID)
    case CheckSnapshot => GoalFits(Park, ls)
    case PatchPaused => GoalFits(Park, ls)
    case PatchResumed => ls.status.phase == Paused
    case PatchProgress(res, phase) =>
      ls.status.phase != Paused && phase != NoPhase && phase != Paused && phase != Expired
    case PatchCleared(phase) =>
      ls.status.phase != Paused && (phase == Running || phase == Ready) && ls.status.snapshotName != ""
    case _ => ls.status.phase != Paused
  }

  predicate CrFits(c: Cluster) {
    c.cr.Some? ==>
      && c.cr.value.spec.sessionID == c.id
      && c.cr.value.status.snapshotName in {"", SnapshotNameOf(c.id)}
      && (c.cr.value.deleting ==> c.cr.value.finalizer)
  }

  /** The local copy agrees with the server in every field the operator owns, and in all of them while nobody
      else has written; once the finalizer is there the object cannot vanish under a running pass. */
  predicate View(s: State) {
    && CrFits(s.c)
    && (s.op.At? ==>
          && s.op.ls.spec.sessionID == s.c.id
          && PointFits(s.op.point, s.op.ls)
          && s.op.ls.finalizer == !s.op.point.AddFinalizer?
          && (s.c.cr.Some? ==>
                && SameLifecycle(s.op.ls.status, s.c.cr.value.status)
                && s.op.ls.resourceVersion <= s.c.cr.value.resourceVersion
                && (s.op.ls.resourceVersion == s.c.cr.value.resourceVersion ==> s.op.ls == s.c.cr.value)
                && (s.op.ls.deleting ==> s.c.cr.value.deleting))
          && (!s.op.point.AddFinalizer? ==> s.c.cr.Some? && s.c.cr.value.finalizer))
  }

  /** What the server may do to a CR: no lifecycle field, no finalizer, and every write moves the version. */
  predicate CrFrame(a: LabSession, b: LabSession) {
    && SameLifecycle(a.status, b.status)
    && b.finalizer == a.finalizer
    && b.spec.sessionID == a.spec.sessionID
    && (a.deleting ==> b.deleting)
    && (b.deleting && !a.deleting ==> b.finalizer)
    && (b == a || b.resourceVersion > a.resourceVersion)
  }

  predicate ServerFrame(c: Cluster, c': Cluster) {
    && c' == c.(calls := c'.calls, cr := c'.cr)
    && (c'.cr.Some? ==> c.cr.Some? && CrFrame(c.cr.value, c'.cr.value))
    && (c.cr.Some? && c'.cr.None? ==> !c.cr.value.finalizer)
  }

  lemma ServerKeepsFrame(c: Cluster, a: ServerAction)
    ensures ServerFrame(c, ServerStep(c, a))
  {
  }

  lemma EnvKeepsView(s: State, e: Event)
    requires View(s)
    ensures View(Step(s, Env(e)))
  {
    hide PointFits, ServerStep, InfraStep;
    if e.Server? {
      ServerKeepsFrame(s.c.(clock := s.c.clock + 1 + e.wait), e.act);
    }
  }

  lemma BeginKeepsView(c: Cluster, k: ApiCall)
    requires CrFits(c) && c.cr.Some?
    ensures View(Begin(c, c.cr.value, k))
  {
  }

  lemma InfraKeepsView(c: Cluster, p: Point, ls: LabSession, k: ApiCall)
    requires View(State(c, At(p, ls), Busy)) && !WritesCr(p)
    ensures View(Perform(c, p, ls, k))
  {
    hide InfraEffect, CrEffect, SnapshotNameOf, ServiceDNSOf;
  }

  lemma CrKeepsView(c: Cluster, p: Point, ls: LabSession)
    requires View(State(c, At(p, ls), Busy)) && WritesCr(p)
    ensures View(CrEffect(c, p, ls))
  {
  }

  lemma PerformKeepsView(c: Cluster, p: Point, ls: LabSession, k: ApiCall)
    requires View(State(c, At(p, ls), Busy))
    ensures View(Perform(c, p, ls, k))
  {
    hide View, InfraEffect, AfterInfra, CrEffect;
    if WritesCr(p) {
      CrKeepsView(c, p, ls);
    } else {
      InfraKeepsView(c, p, ls, k);
    }
  }

  lemma OpKeepsView(s: State, k: ApiCall)
    requires View(s)
    ensures View(Step(s, Op(k)))
  {
    hide PointFits, Perform, Begin;
    var c := s.c.(clock := s.c.clock + 1 + k.wait);
    match s.op
    case Idle =>
      if c.cr.Some? {
        BeginKeepsView(c, k);
      }
    case At(p, ls) => PerformKeepsView(c, p, ls, k);
  }

  lemma AfterInfraFrame(c: Cluster, p: Point, ls: LabSession, k: ApiCall)
    ensures AfterInfra(c, p, ls, k).c == c
  {
    hide SnapshotNameOf, ServiceDNSOf, ReportVmi, RequeueUntilExpiry;
  }

  /** A call moves the CR or the objects, never the completed steps or the calls under way. */
  lemma OpFrame(s: State, k: ApiCall)
    ensures var c := Step(s, Op(k)).c;
            && (s.c.torn ==> c.torn)
            && c == s.c.(clock := s.c.clock + 1 + k.wait, torn := c.torn, cr := c.cr, infra := c.infra)
            && (c.cr.Some? ==> s.c.cr.Some? && c.cr.value.status.completedSteps == s.c.cr.value.status.completedSteps)
  {
    hide InfraEffect, AfterInfra, AfterProgress, AfterProvider, FinishConverge;
    var c := s.c.(clock := s.c.clock + 1 + k.wait);
    match s.op
    case Idle =>
      if c.cr.Some? {
        BeginFrame(c, c.cr.value, k);
      }
    case At(p, ls) =>
      AfterInfraFrame(c.(infra := InfraEffect(c.infra, p, ls)), p, ls, k);
      CrEffectFrame(c, p, ls);
  }

  lemma BeginFrame(c: Cluster, ls: LabSession, k: ApiCall)
    ensures var c' := Begin(c, ls, k).c; c' == c.(torn := c'.torn) && (c.torn ==> c'.torn)
  {
  }

  lemma CrEffectFrame(c: Cluster, p: Point, ls: LabSession)
    ensures var c' := CrEffect(c, p, ls).c;
            && c' == c.(cr := c'.cr)
            && (c'.cr.Some? ==> c.cr.Some? && c'.cr.value.status.completedSteps == c.cr.value.status.completedSteps)
  {
    hide AfterPatch;
    if c.cr.Some? {
      var d := PatchStatus(c, ls, Mutated(ls.status, p));
      AfterPatchFrame(d, p, d.cr.value, ls.status.snapshotName);
    }
  }

  lemma AfterPatchFrame(c: Cluster, p: Point, ls: LabSession, name: string)
    ensures AfterPatch(c, p, ls, name).c == c
  {
    hide RequeueUntilExpiry;
  }

  // ---------------------------------------------------------------- finalizer safety

  /** None of the objects the finalizer protects is left. */
  predicate Gone(f: Infra) {
    f.disk.None? && f.vmi.None? && !f.service && !f.policy
  }

  predicate SameObjects(f: Infra, g: Infra) {
    && f.disk.Some? == g.disk.Some? && f.vmi.Some? == g.vmi.Some?
    && f.service == g.service && f.policy == g.policy && f.secret == g.secret
    && f.snapshots.Keys == g.snapshots.Keys
  }

  /** How far the deletions ahead of this point have got. */
  predicate Progress(p: Point, f: Infra) {
    match p
    case DeletePolicy(_) => f.vmi.None?
    case DeleteService(_) => f.vmi.None? && !f.policy
    case DeleteDisk(g) => g.Park? || (f.vmi.None? && !f.policy && !f.service)
    case DeleteSnapshot(g, _) => g.Cleanup? || Gone(f)
    case DropFinalizer => Gone(f)
    case PatchExpired => Gone(f)
    case TakeSnapshot => f.vmi.None?
    case PatchSnapshot(_) => f.vmi.None?
    case PatchPaused => f.disk.None?
    case _ => true
  }

  predicate Protected(s: State) {
    && View(s)
    && (Gone(s.c.infra) || (s.c.cr.Some? && s.c.cr.value.finalizer))
    && (s.op.At? ==> Progress(s.op.point, s.c.infra))
  }

  lemma NatureKeepsObjects(f: Infra, a: InfraAction)
    ensures SameObjects(f, InfraStep(f, a))
  {
  }

  lemma EnvKeepsProtected(s: State, e: Event)
    requires Protected(s)
    ensures Protected(Step(s, Env(e)))
  {
    hide View, ServerStep, InfraStep;
    EnvKeepsView(s, e);
    match e
    case Server(_, act) => ServerKeepsFrame(s.c.(clock := s.c.clock + 1 + e.wait), act);
    case Nature(_, move) => NatureKeepsObjects(s.c.infra, move);
  }

  lemma PerformKeepsProgress(c: Cluster, p: Point, ls: LabSession, k: ApiCall)
    requires Protected(State(c, At(p, ls), Busy))
    ensures var s' := Perform(c, p, ls, k);
            && (s'.op.At? ==> Progress(s'.op.point, s'.c.infra))
            && (Gone(s'.c.infra) || (s'.c.cr.Some? && s'.c.cr.value.finalizer))
  {
    hide SameLifecycle, SnapshotNameOf, ServiceDNSOf, FieldMerge;
  }

  lemma ProtectedIgnoresClock(s: State, c: Cluster)
    requires Protected(s) && c == s.c.(clock := c.clock)
    ensures Protected(State(c, s.op, Busy))
  {
    hide PointFits, Progress;
  }

  lemma PerformKeepsProtected(c: Cluster, p: Point, ls: LabSession, k: ApiCall)
    requires Protected(State(c, At(p, ls), Busy))
    ensures Protected(Perform(c, p, ls, k))
  {
    hide View, Perform, Progress;
    PerformKeepsProgress(c, p, ls, k);
    PerformKeepsView(c, p, ls, k);
  }

  lemma OpKeepsProtected(s: State, k: ApiCall)
    requires Protected(s)
    ensures Protected(Step(s, Op(k)))
  {
    hide PointFits, Perform, Begin, Progress;
    var c := s.c.(clock := s.c.clock + 1 + k.wait);
    match s.op
    case Idle =>
      if c.cr.Some? {
        BeginKeepsView(c, k);
        BeginKeepsProgress(c, k);
      }
    case At(p, ls) =>
      ProtectedIgnoresClock(s, c);
      PerformKeepsProtected(c, p, ls, k);
  }

  lemma BeginKeepsProgress(c: Cluster, k: ApiCall)
    requires c.cr.Some?
    ensures var s' := Begin(c, c.cr.value, k);
            && s'.c == c.(torn := s'.c.torn)
            && (s'.op.At? ==> Progress(s'.op.point, c.infra))
  {
  }

  lemma {:induction false} RunKeepsProtected(s: State, moves: seq<Move>)
    requires Protected(s)
    ensures Protected(Run(s, moves))
    decreases |moves|
  {
    hide Protected, Step;
    if moves != [] {
      StepKeepsProtected(s, moves[0]);
      RunKeepsProtected(Step(s, moves[0]), moves[1..]);
    }
  }

  lemma StepKeepsProtected(s: State, m: Move)
    requires Protected(s)
    ensures Protected(Step(s, m))
  {
    hide Protected, EnvStep, OpStep;
    match m
    case Env(e) => EnvKeepsProtected(s, e);
    case Op(k) => OpKeepsProtected(s, k);
  }

  /** While a VMI, disk, service or policy of the session exists, so does its CR, with the finalizer on it;
      a step after which the CR is gone leaves none of them behind. */
  lemma FinalizerSafety(s: State, moves: seq<Move>)
    requires Init(s)
    ensures var c := Run(s, moves).c; Gone(c.infra) || (c.cr.Some? && c.cr.value.finalizer)
  {
    RunKeepsProtected(s, moves);
  }

  // ---------------------------------------------------------------- expiry

  predicate Tearing(p: Point, goal: Goal) {
    match p
    case DeleteVmi(g) => g == goal
    case DeletePolicy(g) => g == goal
    case DeleteService(g) => g == goal
    case DeleteDisk(g) => g == goal
    case DeleteSnapshot(g, _) => g == goal
    case DropFinalizer => goal == Deletion
    case PatchExpired => goal == Expiry
    case _ => false
  }

  predicate Lapsed(ls: LabSession, now: int) {
    ls.spec.expiresAt != 0 && ls.spec.expiresAt <= now
  }

  predicate IsExpired(c: Cluster) {
    c.cr.Some? && c.cr.value.status.phase == Expired
  }

  predicate Lapsing(s: State) {
    && Protected(s)
    && s.c.clock > 0
    && (IsExpired(s.c) ==>
          && s.c.cr.value.finalizer && Gone(s.c.infra) && Lapsed(s.c.cr.value, s.c.clock)
          && s.c.cr.value.status.snapshotName == ""
          && (s.op.At? ==> Tearing(s.op.point, Deletion)))
    && (s.op.At? && Tearing(s.op.point, Expiry) ==> s.c.cr.Some? && Lapsed(s.c.cr.value, s.c.clock))
  }

  /** A lapsed session stays lapsed: Expire writes an instant that is past. */
  lemma ServerKeepsLapsed(c: Cluster, a: ServerAction)
    requires c.cr.Some? && Lapsed(c.cr.value, c.clock) && c.clock > 0
    ensures var c' := ServerStep(c, a); c'.cr.Some? ==> Lapsed(c'.cr.value, c.clock)
  {
    hide FieldMerge;
  }

  lemma CrUnderWay(s: State)
    requires Protected(s) && s.op.At? && !s.op.point.AddFinalizer?
    ensures s.c.cr.Some? && s.c.cr.value.finalizer
  {
    hide PointFits, Progress;
  }

  lemma EnvKeepsLapsing(s: State, e: Event)
    requires Lapsing(s)
    ensures Lapsing(Step(s, Env(e)))
  {
    hide Protected, InfraStep, ServerStep;
    EnvKeepsProtected(s, e);
    if s.op.At? && !s.op.point.AddFinalizer? {
      CrUnderWay(Step(s, Env(e)));
    }
    var c := s.c.(clock := s.c.clock + 1 + e.wait);
    match e
    case Server(_, act) =>
      ServerKeepsFrame(c, act);
      if c.cr.Some? && Lapsed(c.cr.value, c.clock) {
        ServerKeepsLapsed(c, act);
      }
    case Nature(_, move) => NatureKeepsObjects(s.c.infra, move);
  }

  lemma PerformKeepsLapsing(c: Cluster, p: Point, ls: LabSession, k: ApiCall)
    requires Lapsing(State(c, At(p, ls), Busy))
    requires Protected(Perform(c, p, ls, k))
    ensures Lapsing(Perform(c, p, ls, k))
  {
    hide SnapshotNameOf, ServiceDNSOf, ReportVmi, RequeueUntilExpiry;
    if !WritesCr(p) {
      AfterInfraFrame(c.(infra := InfraEffect(c.infra, p, ls)), p, ls, k);
    }
  }

  lemma BeginKeepsLapsing(c: Cluster, k: ApiCall)
    requires c.cr.Some? && c.clock > 1
    requires IsExpired(c) ==>
               && c.cr.value.finalizer && Gone(c.infra) && Lapsed(c.cr.value, c.clock - 1)
               && c.cr.value.status.snapshotName == ""
    requires Protected(Begin(c, c.cr.value, k))
    ensures Lapsing(Begin(c, c.cr.value, k))
  {
    hide Protected;
  }

  lemma OpKeepsLapsing(s: State, k: ApiCall)
    requires Lapsing(s)
    ensures Lapsing(Step(s, Op(k)))
  {
    hide Perform, Protected, Begin, Tearing;
    OpKeepsProtected(s, k);
    var c := s.c.(clock := s.c.clock + 1 + k.wait);
    match s.op
    case Idle =>
      if c.cr.Some? && k.outcome == Done {
        BeginKeepsLapsing(c, k);
      }
    case At(p, ls) =>
      ProtectedIgnoresClock(s, c);
      PerformKeepsProtected(c, p, ls, k);
      PerformKeepsLapsing(c, p, ls, k);
  }

  /** Once Expired is written no step of either process takes it back, while the CR lasts. */
  lemma StepKeepsExpired(s: State, m: Move)
    requires Lapsing(s) && IsExpired(s.c)
    ensures Lapsing(Step(s, m))
    ensures Step(s, m).c.cr.Some? ==> IsExpired(Step(s, m).c)
  {
    hide Protected, ServerStep, InfraStep, Perform, Begin;
    match m
    case Env(e) =>
      EnvKeepsLapsing(s, e);
      if e.Server? {
        ServerKeepsFrame(s.c.(clock := s.c.clock + 1 + e.wait), e.act);
      }
    case Op(k) =>
      OpKeepsLapsing(s, k);
      OpKeepsExpired(s, k);
  }

  lemma OpKeepsExpired(s: State, k: ApiCall)
    requires Lapsing(s) && IsExpired(s.c)
    ensures Step(s, Op(k)).c.cr.Some? ==> IsExpired(Step(s, Op(k)).c)
  {
    hide Protected, Lapsed, Gone, AfterInfra, InfraEffect;
    var c := s.c.(clock := s.c.clock + 1 + k.wait);
    match s.op
    case Idle =>
      if c.cr.Some? {
        BeginFrame(c, c.cr.value, k);
      }
    case At(p, ls) => AfterInfraFrame(c.(infra := InfraEffect(c.infra, p, ls)), p, ls, k);
  }

  lemma StepKeepsLapsing(s: State, m: Move)
    requires Lapsing(s)
    ensures Lapsing(Step(s, m))
  {
    hide Lapsing, EnvStep, OpStep;
    match m
    case Env(e) => EnvKeepsLapsing(s, e);
    case Op(k) => OpKeepsLapsing(s, k);
  }

  lemma {:induction false} RunKeepsLapsing(s: State, moves: seq<Move>)
    requires Lapsing(s)
    ensures Lapsing(Run(s, moves))
    decreases |moves|
  {
    hide Lapsing, Step;
    if moves != [] {
      StepKeepsLapsing(s, moves[0]);
      RunKeepsLapsing(Step(s, moves[0]), moves[1..]);
    }
  }

  lemma InitLapsing(s: State)
    requires Init(s)
    ensures Lapsing(s)
  {
  }

  lemma {:induction false} RunKeepsExpired(s: State, moves: seq<Move>)
    requires Lapsing(s) && IsExpired(s.c)
    ensures var c := Run(s, moves).c; Gone(c.infra) && (c.cr.Some? ==> IsExpired(c))
    decreases |moves|
  {
    hide Step, Protected, View;
    if moves != [] {
      StepKeepsExpired(s, moves[0]);
      var s' := Step(s, moves[0]);
      if s'.c.cr.Some? {
        RunKeepsExpired(s', moves[1..]);
      } else {
        RunKeepsNothing(s', moves[1..]);
      }
    }
  }

  /** After the CR has gone nothing of the session can come back. */
  lemma {:induction false} RunKeepsNothing(s: State, moves: seq<Move>)
    requires Protected(s) && s.c.cr.None?
    ensures var c := Run(s, moves).c; c.cr.None? && Gone(c.infra)
    decreases |moves|
  {
    if moves != [] {
      StepKeepsProtected(s, moves[0]);
      RunKeepsNothing(Step(s, moves[0]), moves[1..]);
    }
  }
}
