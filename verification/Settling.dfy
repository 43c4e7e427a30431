/** Convergence at the grain of single calls: the cluster and the VM move between any two calls of a pass, and any
    call may fail; still few calls change anything, and sweep after sweep brings the session to rest. */
module Settling {
  import opened LabSessions
  import opened Protocol
  import opened ProtocolSafety
  import opened PauseSafety
  import opened DiskConservation
  import opened Passes
  import opened Convergence

  // ---------------------------------------------------------------- what every such run keeps

  /** The VM has not failed, a disk still empty can be populated, and a session to be served has a full one. */
  predicate Sound(n: string, paused: bool, vmi: Option<VmPhase>, disk: Option<Disk>, snapshots: map<string, Snapshot>) {
    && (vmi.Some? ==> vmi.value == Pending || vmi.value == Up)
    && (disk.Some? && disk.value.contents.None? && disk.value.source.FromSnapshot? ==>
          disk.value.source.name == n && n in snapshots)
    && (vmi == Some(Up) && !paused ==> disk.Some? && disk.value.contents.Some?)
  }

  /** The deadline has passed before the next pass begins, or the pass under way found it passed. */
  predicate Struck(s: State)
    requires s.c.cr.Some?
  {
    if s.op.At? && !s.op.point.AddFinalizer? then Tearing(s.op.point, Expiry) else Lapsed(s.c.cr.value, s.c.clock)
  }

  /** A recorded snapshot exists, unless it has been let go with its session up again or its TTL passed. */
  predicate Backed(s: State)
    requires s.c.cr.Some?
  {
    s.c.cr.value.status.snapshotName != "" && SnapshotNameOf(s.c.id) !in s.c.infra.snapshots ==>
      Struck(s) || (!s.c.cr.value.spec.paused && s.c.infra.vmi == Some(Up))
  }

  /** What the goal of a deletion says of the session while nobody edits it. */
  predicate GoalHolds(id: string, ls: LabSession, f: Infra, g: Goal) {
    match g
    case Deletion => false
    case Expiry => true
    case Suspend => ls.spec.paused
    case Park => ls.spec.paused && ReadySnapshot(f, ls.status.snapshotName)
    case Cleanup(phase) =>
      !ls.spec.paused && Standing(f) && f.vmi == Some(Up) && Shows(ls.status, phase, ServiceDNSOf(id))
  }

  /** The objects a pass has ensured by a point. */
  predicate EnsuredBy(f: Infra, p: Point) {
    && (p != EnsureDisk ==> f.disk.Some?)
    && (p !in {EnsureDisk, EnsureSecret} ==> f.secret)
    && (p in {EnsureService, EnsurePolicy, GetVmi} ==> f.vmi.Some?)
    && (p in {EnsurePolicy, GetVmi} ==> f.service)
    && (p.GetVmi? ==> f.policy)
  }

  /** What a point of a pass says of the session while nobody edits it. */
  predicate OnTrack(id: string, ls: LabSession, f: Infra, p: Point) {
    && ls.status.phase != Expired
    && match p
       case AddFinalizer => true
       case DropFinalizer => false
       case DeleteVmi(g) => GoalHolds(id, ls, f, g)
       case DeletePolicy(g) => GoalHolds(id, ls, f, g)
       case DeleteService(g) => GoalHolds(id, ls, f, g)
       case DeleteDisk(g) => GoalHolds(id, ls, f, g)
       case DeleteSnapshot(g, _) => GoalHolds(id, ls, f, g)
       case PatchExpired => true
       case TakeSnapshot => ls.spec.paused
       case PatchSnapshot(name) => ls.spec.paused && name in f.snapshots
       case CheckSnapshot => ls.spec.paused
       case PatchPaused => GoalHolds(id, ls, f, Park)
       case PatchResumed => !ls.spec.paused
       case PatchProgress(res, phase) =>
         && !ls.spec.paused && Standing(f) && res.message == "" && !Shows(ls.status, phase, res.serviceDNS)
         && (if phase == Provisioning then res.serviceDNS == ""
             else (phase == Running || phase == Ready) && res.serviceDNS == ServiceDNSOf(id) && f.vmi == Some(Up))
       case PatchCleared(phase) => GoalHolds(id, ls, f, Cleanup(phase))
       case _ => !ls.spec.paused && EnsuredBy(f, p)
  }

  predicate Firm(s: State) {
    && s.c.cr.Some?
    && var ls, f := s.c.cr.value, s.c.infra;
       && !ls.deleting
       && Sound(SnapshotNameOf(s.c.id), ls.spec.paused, f.vmi, f.disk, f.snapshots) && Backed(s)
       && (s.op.At? ==> s.op.ls == ls && OnTrack(s.c.id, ls, f, s.op.point))
  }

  predicate Steady(s: State) {
    Lapsing(s) && Firm(s)
  }

  // ---------------------------------------------------------------- the measure

  function Bit(b: bool): nat {
    if b then 1 else 0
  }

  function Missing(f: Infra): (r: nat)
    ensures r <= 5
  {
    Bit(f.disk.None?) + Bit(!f.secret) + Bit(f.vmi.None?) + Bit(!f.service) + Bit(!f.policy)
  }

  /** How far the session can be reported to have come: 1 with its VM up, 2 once ttyd answers. */
  function Level(vmi: Option<VmPhase>, heard: bool): (l: nat)
    ensures l <= 2
  {
    if vmi != Some(Up) then 0 else if heard then 2 else 1
  }

  function PhaseOf(level: nat): Phase {
    if level == 0 then Provisioning else if level == 1 then Running else Ready
  }

  predicate ShowsLevel(id: string, status: Status, level: nat) {
    Shows(status, PhaseOf(level), if level == 0 then "" else ServiceDNSOf(id))
  }

  /** The progress patches still to come: one for each level to be gained, one that is under way, and one more while
      the status shows, or will show, another level than the session's. */
  function Patches(id: string, status: Status, op: OpState, l: nat): (r: nat)
    requires l <= 2
    ensures r <= 4
  {
    2 - l + if op.At? && op.point.PatchProgress? then 1 + Bit(op.point.phase != PhaseOf(l))
            else Bit(!ShowsLevel(id, status, l))
  }

  function ToClean(snapshots: map<string, Snapshot>, name: string): (r: nat)
    ensures r <= 2
  {
    if name == "" then 0 else 1 + Bit(name in snapshots)
  }

  function ToTearDown(f: Infra, name: string): (r: nat)
    ensures 1 <= r <= 6
  {
    1 + Bit(f.vmi.Some?) + Bit(f.policy) + Bit(f.service) + Bit(f.disk.Some?) + Bit(name != "" && name in f.snapshots)
  }

  function ToPause(n: string, status: Status, f: Infra): (r: nat)
    ensures r <= 7
  {
    if status.phase == Paused then 0
    else if status.snapshotName != "" then 1 + Bit(f.disk.Some?)
    else 3 + Bit(f.vmi.Some?) + Bit(f.policy) + Bit(f.service) + Bit(n !in f.snapshots)
  }

  function ToServe(id: string, status: Status, f: Infra, op: OpState, heard: bool): (r: nat)
    ensures r <= 11
  {
    if status.phase == Paused then 11
    else Missing(f) + Patches(id, status, op, Level(f.vmi, heard)) + ToClean(f.snapshots, status.snapshotName)
  }

  /** A bound on the calls that will still change something. */
  function Left(s: State, heard: bool): (r: nat)
    requires s.c.cr.Some?
    ensures r <= 18
  {
    var ls, f := s.c.cr.value, s.c.infra;
    if !ls.finalizer then 18
    else if ls.status.phase == Expired then 0
    else if Struck(s) then ToTearDown(f, ls.status.snapshotName)
    else if ls.spec.paused then 6 + ToPause(SnapshotNameOf(s.c.id), ls.status, f)
    else 6 + ToServe(s.c.id, ls.status, f, s.op, heard)
  }

  /** A call leaves the CR and the objects alone, or lowers the measure. */
  predicate Settles(s: State, s': State, heard: bool) {
    && Firm(s) && Firm(s') && s'.c.id == s.c.id && s'.c.cr.value.spec == s.c.cr.value.spec
    && Left(s', heard) <= Left(s, heard)
    && (Left(s', heard) < Left(s, heard) || Same(s.c, s'.c))
  }

  // ---------------------------------------------------------------- one call

  lemma FirmLater(s: State, c: Cluster, r: Result, heard: bool)
    requires Firm(s) && c == s.c.(clock := c.clock) && c.clock >= s.c.clock
    ensures Settles(s, State(c, s.op, r), heard)
  {
    hide SnapshotNameOf, Sound, OnTrack, ToServe, ToPause, ToTearDown;
  }

  /** Hearing from ttyd raises no measure. */
  lemma HeardLowers(s: State, heard: bool)
    requires Firm(s)
    ensures Left(s, true) <= Left(s, heard)
  {
    hide SnapshotNameOf, ServiceDNSOf, Sound, Backed, OnTrack, Shows, Missing, ToClean;
  }

  lemma BeginSettles(s: State, c: Cluster, k: ApiCall)
    requires s.op.Idle? && Lapsing(s) && Firm(s) && c == s.c.(clock := c.clock) && c.clock > s.c.clock
    requires k.config.None?
    ensures Settles(s, Begin(c, c.cr.value, k), k.answers) && Same(c, Begin(c, c.cr.value, k).c)
  {
    hide SnapshotNameOf, Sound, Standing, Shows, AfterProvider, Missing, Level, ToClean, ToTearDown, ToPause;
    hide ShowsLevel, Protected;
  }

  lemma AbortSettles(s: State, r: Result, heard: bool)
    requires Lapsing(s) && Firm(s)
    ensures Settles(s, State(s.c, Idle, r), heard)
  {
    hide SnapshotNameOf, Sound, Standing, EnsuredBy, Missing, Level, ToClean, ToTearDown, ToPause;
    hide ShowsLevel, Protected;
  }

  predicate Deleting(p: Point) {
    p.DeleteVmi? || p.DeletePolicy? || p.DeleteService?
  }

  lemma SuspendSettles(c: Cluster, p: Point, ls: LabSession, k: ApiCall)
    requires var s := State(c, At(p, ls), Busy); Lapsing(s) && Firm(s) && Deleting(p) && p.goal.Suspend?
    ensures Settles(State(c, At(p, ls), Busy), Perform(c, p, ls, k), k.answers)
  {
    hide SnapshotNameOf, Standing, Shows, AfterProvider, CrEffect, ToServe, ToTearDown, Progress;
  }

  lemma ComputeSettles(c: Cluster, p: Point, ls: LabSession, k: ApiCall)
    requires var s := State(c, At(p, ls), Busy); Lapsing(s) && Firm(s) && Deleting(p) && p.goal.Expiry?
    ensures Settles(State(c, At(p, ls), Busy), Perform(c, p, ls, k), k.answers)
  {
    hide SnapshotNameOf, Standing, Shows, AfterProvider, CrEffect, ToServe, ToPause, Progress;
  }

  lemma DeletingSettles(c: Cluster, p: Point, ls: LabSession, k: ApiCall)
    requires var s := State(c, At(p, ls), Busy); Lapsing(s) && Firm(s) && Deleting(p)
    ensures Settles(State(c, At(p, ls), Busy), Perform(c, p, ls, k), k.answers)
  {
    hide Settles, Perform, Sound, Backed, Progress;
    if p.goal.Suspend? {
      SuspendSettles(c, p, ls, k);
    } else {
      ComputeSettles(c, p, ls, k);
    }
  }

  lemma SnapshotSettles(c: Cluster, p: Point, ls: LabSession, k: ApiCall)
    requires var s := State(c, At(p, ls), Busy); Lapsing(s) && Firm(s)
    requires p.TakeSnapshot? || p.CheckSnapshot?
    ensures Settles(State(c, At(p, ls), Busy), Perform(c, p, ls, k), k.answers)
  {
    hide SnapshotNameOf, Standing, Shows, AfterProvider, CrEffect, ToServe, ToTearDown, Progress;
  }

  lemma StorageSettles(c: Cluster, p: Point, ls: LabSession, k: ApiCall)
    requires var s := State(c, At(p, ls), Busy); Lapsing(s) && Firm(s)
    requires p.DeleteDisk? || (p.DeleteSnapshot? && !p.goal.Cleanup?)
    ensures Settles(State(c, At(p, ls), Busy), Perform(c, p, ls, k), k.answers)
  {
    hide SnapshotNameOf, Standing, Shows, AfterProvider, CrEffect, ToServe;
  }

  lemma DiskSettles(c: Cluster, ls: LabSession, k: ApiCall)
    requires var s := State(c, At(EnsureDisk, ls), Busy); Lapsing(s) && Firm(s)
    ensures Settles(State(c, At(EnsureDisk, ls), Busy), Perform(c, EnsureDisk, ls, k), k.answers)
  {
    hide SnapshotNameOf, ServiceDNSOf, ShowsLevel, AfterProvider, CrEffect, Progress, ToPause, ToTearDown, Standing;
    hide GoalHolds;
  }

  lemma MachineSettles(c: Cluster, ls: LabSession, k: ApiCall)
    requires var s := State(c, At(EnsureVmi, ls), Busy); Lapsing(s) && Firm(s)
    ensures Settles(State(c, At(EnsureVmi, ls), Busy), Perform(c, EnsureVmi, ls, k), k.answers)
  {
    hide SnapshotNameOf, ServiceDNSOf, ShowsLevel, AfterProvider, CrEffect, Progress, ToPause, ToTearDown, Standing;
    hide GoalHolds, CreateDisk, CreateSnapshot;
  }

  lemma SecretSettles(c: Cluster, ls: LabSession, k: ApiCall)
    requires var s := State(c, At(EnsureSecret, ls), Busy); Lapsing(s) && Firm(s)
    ensures Settles(State(c, At(EnsureSecret, ls), Busy), Perform(c, EnsureSecret, ls, k), k.answers)
  {
    hide SnapshotNameOf, ServiceDNSOf, ShowsLevel, AfterProvider, CrEffect, Progress, ToPause, ToTearDown, Standing;
    hide GoalHolds, Sound, Level, ToClean, CreateDisk, CreateSnapshot;
  }

  lemma NetworkSettles(c: Cluster, p: Point, ls: LabSession, k: ApiCall)
    requires var s := State(c, At(p, ls), Busy); Lapsing(s) && Firm(s)
    requires p.EnsureService? || p.EnsurePolicy?
    ensures Settles(State(c, At(p, ls), Busy), Perform(c, p, ls, k), k.answers)
  {
    hide SnapshotNameOf, ServiceDNSOf, ShowsLevel, AfterProvider, CrEffect, Progress, ToPause, ToTearDown, Standing;
    hide GoalHolds, Sound, Level, ToClean, CreateDisk, CreateSnapshot;
  }

  lemma PendingSettles(c: Cluster, ls: LabSession, k: ApiCall)
    requires var s := State(c, At(GetVmi, ls), Busy); Lapsing(s) && Firm(s)
    requires c.infra.vmi != Some(Up)
    ensures Settles(State(c, At(GetVmi, ls), Busy), Perform(c, GetVmi, ls, k), k.answers)
  {
    hide SnapshotNameOf, ServiceDNSOf, CrEffect, Progress, RequeueUntilExpiry, Missing, ToClean, ToPause, ToTearDown;
    hide CreateDisk, CreateSnapshot;
  }

  /** Where the report of a VM that is up takes the pass: to a patch, to the clean-up, or to its end. */
  lemma UpReports(c: Cluster, ls: LabSession, k: ApiCall)
    requires c.infra.vmi == Some(Up) && ls.spec.sessionID == c.id
    ensures var l, s' := Level(c.infra.vmi, k.answers), Perform(c, GetVmi, ls, k);
            && s'.c == c
            && s'.op == if !ShowsLevel(c.id, ls.status, l)
                        then At(PatchProgress(ProviderResult(Running, ServiceDNSOf(c.id), ""), PhaseOf(l)), ls)
                        else if ls.status.snapshotName != ""
                        then At(DeleteSnapshot(Cleanup(PhaseOf(l)), ls.status.snapshotName), ls)
                        else Idle
  {
    hide ServiceDNSOf, CrEffect, RequeueUntilExpiry;
  }

  lemma UpSettles(c: Cluster, ls: LabSession, k: ApiCall)
    requires var s := State(c, At(GetVmi, ls), Busy); Lapsing(s) && Firm(s)
    requires c.infra.vmi == Some(Up)
    ensures Settles(State(c, At(GetVmi, ls), Busy), Perform(c, GetVmi, ls, k), k.answers)
  {
    hide SnapshotNameOf, ServiceDNSOf, Perform, Progress, Missing, ToClean, ToPause, ToTearDown, Sound;
    UpReports(c, ls, k);
  }

  lemma CleanupSettles(c: Cluster, p: Point, ls: LabSession, k: ApiCall)
    requires var s := State(c, At(p, ls), Busy); Lapsing(s) && Firm(s)
    requires p.DeleteSnapshot? && p.goal.Cleanup?
    ensures Settles(State(c, At(p, ls), Busy), Perform(c, p, ls, k), k.answers)
  {
    hide SnapshotNameOf, ServiceDNSOf, CrEffect, Progress, AfterProvider, ToPause, ToTearDown, ShowsLevel;
  }

  /** What a progress patch leaves: the status it was for, and the clean-up next or the end of the pass. */
  lemma ProgressPatches(c: Cluster, p: Point, ls: LabSession)
    requires p.PatchProgress? && c.cr == Some(ls)
    ensures var s' := CrEffect(c, p, ls);
            && s'.c.cr.Some? && s'.c == c.(cr := s'.c.cr)
            && var ls' := s'.c.cr.value;
               && ls' == ls.(status := ls'.status, resourceVersion := ls'.resourceVersion)
               && ls'.status == ls.status.(phase := p.phase, serviceDNS := p.res.serviceDNS, message := p.res.message)
               && s'.op == if (p.phase == Running || p.phase == Ready) && ls.status.snapshotName != ""
                           then At(DeleteSnapshot(Cleanup(p.phase), ls.status.snapshotName), ls') else Idle
  {
    hide RequeueUntilExpiry;
  }

  lemma ProgressSettles(c: Cluster, p: Point, ls: LabSession, k: ApiCall)
    requires var s := State(c, At(p, ls), Busy); Lapsing(s) && Firm(s) && p.PatchProgress?
    ensures Settles(State(c, At(p, ls), Busy), Perform(c, p, ls, k), k.answers)
  {
    hide SnapshotNameOf, ServiceDNSOf, CrEffect, Progress, ToPause, ToTearDown, Missing, Sound, Standing, ToClean;
    ProgressPatches(c, p, ls);
  }

  lemma ClearSettles(c: Cluster, p: Point, ls: LabSession, k: ApiCall)
    requires var s := State(c, At(p, ls), Busy); Lapsing(s) && Firm(s) && p.PatchCleared?
    ensures Settles(State(c, At(p, ls), Busy), Perform(c, p, ls, k), k.answers)
  {
    hide SnapshotNameOf, ServiceDNSOf, RequeueUntilExpiry, AfterInfra, InfraEffect, Progress, ToPause, ToTearDown;
    hide Missing, Sound, Standing;
  }

  lemma PatchSettles(c: Cluster, p: Point, ls: LabSession, k: ApiCall)
    requires var s := State(c, At(p, ls), Busy); Lapsing(s) && Firm(s)
    requires p.PatchSnapshot? || p.PatchPaused? || p.PatchExpired?
    ensures Settles(State(c, At(p, ls), Busy), Perform(c, p, ls, k), k.answers)
  {
    hide SnapshotNameOf, ServiceDNSOf, RequeueUntilExpiry, AfterInfra, InfraEffect, Standing, Shows, EnsuredBy, ToServe;
  }

  lemma StartSettles(c: Cluster, p: Point, ls: LabSession, k: ApiCall)
    requires var s := State(c, At(p, ls), Busy); Lapsing(s) && Firm(s)
    requires p.AddFinalizer? || p.PatchResumed?
    ensures Settles(State(c, At(p, ls), Busy), Perform(c, p, ls, k), k.answers)
  {
    hide SnapshotNameOf, ServiceDNSOf, RequeueUntilExpiry, AfterInfra, InfraEffect, Standing, Shows, EnsuredBy;
    hide Progress, Missing, ToClean, ToPause, ToTearDown, Sound, ShowsLevel;
  }

  lemma PerformSettles(c: Cluster, p: Point, ls: LabSession, k: ApiCall)
    requires var s := State(c, At(p, ls), Busy); Lapsing(s) && Firm(s)
    ensures Settles(State(c, At(p, ls), Busy), Perform(c, p, ls, k), k.answers)
  {
    hide Lapsing, Settles, Perform, Sound, Backed, Shows, Standing, EnsuredBy;
    match p
    case AddFinalizer => StartSettles(c, p, ls, k);
    case PatchResumed => StartSettles(c, p, ls, k);
    case DeleteVmi(_) => DeletingSettles(c, p, ls, k);
    case DeletePolicy(_) => DeletingSettles(c, p, ls, k);
    case DeleteService(_) => DeletingSettles(c, p, ls, k);
    case TakeSnapshot => SnapshotSettles(c, p, ls, k);
    case CheckSnapshot => SnapshotSettles(c, p, ls, k);
    case DeleteDisk(_) => StorageSettles(c, p, ls, k);
    case DeleteSnapshot(g, _) =>
      if g.Cleanup? {
        CleanupSettles(c, p, ls, k);
      } else {
        StorageSettles(c, p, ls, k);
      }
    case EnsureDisk => DiskSettles(c, ls, k);
    case EnsureSecret => SecretSettles(c, ls, k);
    case EnsureVmi => MachineSettles(c, ls, k);
    case EnsureService => NetworkSettles(c, p, ls, k);
    case EnsurePolicy => NetworkSettles(c, p, ls, k);
    case GetVmi =>
      if c.infra.vmi == Some(Up) {
        UpSettles(c, ls, k);
      } else {
        PendingSettles(c, ls, k);
      }
    case PatchProgress(_, _) => ProgressSettles(c, p, ls, k);
    case PatchCleared(_) => ClearSettles(c, p, ls, k);
    case PatchSnapshot(_) => PatchSettles(c, p, ls, k);
    case PatchPaused => PatchSettles(c, p, ls, k);
    case PatchExpired => PatchSettles(c, p, ls, k);
    case DropFinalizer => assert false;
  }

  lemma SettlesOn(s: State, s1: State, s2: State, heard: bool)
    requires Settles(s, s1, heard) && Settles(s1, s2, heard)
    ensures Settles(s, s2, heard)
  {
    hide Firm, Left;
  }

  lemma LapsingLater(s: State, c: Cluster)
    requires Lapsing(s) && c == s.c.(clock := c.clock) && c.clock >= s.c.clock
    ensures Lapsing(State(c, s.op, Busy))
  {
    hide Protected, Tearing, Gone;
    ProtectedIgnoresClock(s, c);
  }

  lemma PerformLapses(c: Cluster, p: Point, ls: LabSession, k: ApiCall)
    requires Lapsing(State(c, At(p, ls), Busy))
    ensures Lapsing(Perform(c, p, ls, k))
  {
    hide Protected, Perform, Tearing, Gone;
    PerformKeepsProtected(c, p, ls, k);
    PerformKeepsLapsing(c, p, ls, k);
  }

  /** Every call, whether it succeeds, fails or loses its answer, changes nothing or lowers the measure. */
  lemma OpSettles(s: State, k: ApiCall)
    requires Steady(s) && k.config.None?
    ensures Steady(Step(s, Op(k))) && Settles(s, Step(s, Op(k)), k.answers)
  {
    hide Lapsing, Firm, Settles, Begin, Perform;
    OpKeepsLapsing(s, k);
    FirmCr(s);
    var c := s.c.(clock := s.c.clock + 1 + k.wait);
    FirmLater(s, c, Busy, k.answers);
    SettlesFirm(s, State(c, s.op, Busy), k.answers);
    LapsingLater(s, c);
    var s1, s' := State(c, s.op, Busy), Step(s, Op(k));
    if s.op.Idle? {
      if k.outcome == Done {
        BeginSettles(s, c, k);
      } else {
        AbortSettles(s1, Error, k.answers);
        SettlesOn(s, s1, s', k.answers);
      }
    } else if k.outcome == Refused {
      AbortSettles(s1, s'.result, k.answers);
      SettlesOn(s, s1, s', k.answers);
    } else {
      var s2 := Perform(c, s.op.point, s.op.ls, k);
      PerformSettles(c, s.op.point, s.op.ls, k);
      SettlesOn(s, s1, s2, k.answers);
      if k.outcome == Lost {
        PerformLapses(c, s.op.point, s.op.ls, k);
        SettlesFirm(s, s2, k.answers);
        AbortSettles(s2, s'.result, k.answers);
        SettlesOn(s, s2, s', k.answers);
      }
    }
    SettlesFirm(s, s', k.answers);
  }

  lemma FirmCr(s: State)
    requires Firm(s)
    ensures s.c.cr.Some?
  {
  }

  lemma SettlesFirm(s: State, s': State, heard: bool)
    requires Settles(s, s', heard)
    ensures Firm(s')
  {
  }

  // ---------------------------------------------------------------- one move of the cluster

  /** The cluster keeps every object, and all it may do to a VM is bring it up on a populated disk. */
  predicate Grows(f: Infra, g: Infra) {
    && SameObjects(f, g)
    && (g.vmi == f.vmi || (CanBoot(f) && g.vmi == Some(Up)))
    && (f.disk.Some? ==> g.disk.value.source == f.disk.value.source && (Populated(f) ==> Populated(g)))
    && forall name :: name in f.snapshots && f.snapshots[name].ready ==> g.snapshots[name].ready
  }

  lemma NatureGrows(f: Infra, a: InfraAction)
    requires !a.VmStops?
    ensures Grows(f, InfraStep(f, a))
  {
  }

  lemma NatureSettles(s: State, wait: nat, a: InfraAction, heard: bool)
    requires Steady(s) && !a.VmStops?
    ensures var s' := Step(s, Env(Nature(wait, a)));
            Steady(s') && s'.c.cr == s.c.cr && s'.c.id == s.c.id && s'.op == s.op && Left(s', heard) <= Left(s, heard)
  {
    hide Lapsing, InfraStep, Firm, Left;
    EnvKeepsLapsing(s, Nature(wait, a));
    NatureGrows(s.c.infra, a);
    GrowthSettles(s, Step(s, Env(Nature(wait, a))), heard);
  }

  lemma GrowthSettles(s: State, s': State, heard: bool)
    requires Firm(s) && Grows(s.c.infra, s'.c.infra) && s'.c.clock >= s.c.clock
    requires s'.c.cr == s.c.cr && s'.c.id == s.c.id && s'.op == s.op
    ensures Firm(s') && Left(s', heard) <= Left(s, heard)
  {
    hide SnapshotNameOf, Tearing, OnTrack, ToServe, ToPause, ToTearDown;
    GrowthOnTrack(s, s');
    GrowthMeasures(s, s'.c.infra, heard);
  }

  lemma GrowthMeasures(s: State, g: Infra, heard: bool)
    requires s.c.cr.Some? && Grows(s.c.infra, g)
    ensures var f, n, status := s.c.infra, SnapshotNameOf(s.c.id), s.c.cr.value.status;
            && ToServe(s.c.id, status, g, s.op, heard) <= ToServe(s.c.id, status, f, s.op, heard)
            && ToPause(n, status, g) == ToPause(n, status, f)
            && ToTearDown(g, status.snapshotName) == ToTearDown(f, status.snapshotName)
  {
    hide SnapshotNameOf, ShowsLevel, Populated;
  }

  lemma GrowthOnTrack(s: State, s': State)
    requires Firm(s) && Grows(s.c.infra, s'.c.infra)
    requires s'.c.cr == s.c.cr && s'.c.id == s.c.id && s'.op == s.op
    ensures s.op.At? ==> OnTrack(s.c.id, s.c.cr.value, s'.c.infra, s.op.point)
  {
    hide SnapshotNameOf, ServiceDNSOf, Shows, Backed;
  }

  // ---------------------------------------------------------------- histories

  /** Calls and moves of the cluster, in any order: a call may fail, but the configuration renders, no VM stops, and
      once ttyd has answered it goes on answering. */
  predicate Permitted(m: Move, heard: bool) {
    match m
    case Op(k) => k.config.None? && (heard ==> k.answers)
    case Env(e) => e.Nature? && !e.move.VmStops?
  }

  function Answered(m: Move, heard: bool): bool {
    if m.Op? then m.call.answers else heard
  }

  predicate Undisturbed(moves: seq<Move>, heard: bool)
    decreases |moves|
  {
    moves != [] ==> Permitted(moves[0], heard) && Undisturbed(moves[1..], Answered(moves[0], heard))
  }

  function AnsweredBy(moves: seq<Move>, heard: bool): bool
    decreases |moves|
  {
    if moves == [] then heard else AnsweredBy(moves[1..], Answered(moves[0], heard))
  }

  /** What a permitted move does to the measure. */
  lemma StepSettles(s: State, m: Move, heard: bool)
    requires Steady(s) && Permitted(m, heard)
    ensures var s' := Step(s, m);
            && Steady(s') && s'.c.id == s.c.id && s'.c.cr.value.spec == s.c.cr.value.spec
            && Left(s', Answered(m, heard)) <= Left(s, heard)
            && (m.Op? && !Same(s.c, s'.c) ==> Left(s', Answered(m, heard)) < Left(s, heard))
  {
    hide Lapsing, Firm, Left, Step;
    FirmCr(s);
    match m
    case Op(k) =>
      OpSettles(s, k);
      if k.answers {
        HeardLowers(s, heard);
      }
    case Env(e) => NatureSettles(s, e.wait, e.move, heard);
  }

  /** How many calls of a run change the CR or an object. */
  function Effects(s: State, moves: seq<Move>): nat
    decreases |moves|
  {
    if moves == [] then 0
    else (if moves[0].Op? && !Same(s.c, Step(s, moves[0]).c) then 1 else 0) + Effects(Step(s, moves[0]), moves[1..])
  }

  /** However calls, failures, the cluster's progress and the VM's writes follow one another, at most eighteen calls
      change the CR or an object. */
  lemma {:induction false} FewEffects(s: State, moves: seq<Move>, heard: bool)
    requires Steady(s) && Undisturbed(moves, heard)
    ensures var s' := Run(s, moves);
            && Steady(s') && s'.c.id == s.c.id && s'.c.cr.value.spec == s.c.cr.value.spec
            && Effects(s, moves) + Left(s', AnsweredBy(moves, heard)) <= Left(s, heard) <= 18
    decreases |moves|
  {
    hide Steady, Left, Step, Same, Permitted;
    SteadyCr(s);
    if moves != [] {
      StepSettles(s, moves[0], heard);
      FewEffects(Step(s, moves[0]), moves[1..], Answered(moves[0], heard));
    }
  }

  lemma SteadyCr(s: State)
    requires Steady(s)
    ensures s.c.cr.Some?
  {
  }

  // ---------------------------------------------------------------- a change ahead

  /** Something is missing, shown wrongly, or to be cleaned up, once ttyd answers. */
  predicate Unserved(id: string, status: Status, f: Infra) {
    Missing(f) > 0 || !ShowsLevel(id, status, Level(f.vmi, true)) || (status.snapshotName != "" && f.vmi == Some(Up))
  }

  /** The pass under way will change something, if its calls succeed. */
  predicate Ahead(s: State)
    requires s.c.cr.Some?
  {
    && s.op.At?
    && var status := s.c.cr.value.status;
       match s.op.point
       case CheckSnapshot => ReadySnapshot(s.c.infra, status.snapshotName)
       case EnsureDisk | EnsureSecret | EnsureVmi | EnsureService | EnsurePolicy | GetVmi =>
         Unserved(s.c.id, status, s.c.infra)
       case _ => true
  }

  predicate Overdue(c: Cluster)
    requires c.cr.Some?
  {
    Lapsed(c.cr.value, c.clock) && c.cr.value.status.phase != Expired
  }

  /** What the next pass will find to do. */
  predicate Unsettled(c: Cluster)
    requires c.cr.Some?
  {
    Overdue(c) || (!AtRest(c) && !Waiting(c))
  }

  predicate CallIsDue(s: State)
    requires s.c.cr.Some?
  {
    Ahead(s) || Unsettled(s.c)
  }

  predicate Smooth(m: Move) {
    m.Op? ==> m.call.outcome == Done && m.call.answers
  }

  /** Calls until something changes, at most. */
  function Distance(s: State): (d: nat)
    requires s.c.cr.Some?
    ensures d <= 25
  {
    if s.op.Idle? then 13 else if Ahead(s) then Rank(s.op) else 13 + Rank(s.op)
  }

  lemma BeginAhead(s: State, c: Cluster, k: ApiCall)
    requires s.op.Idle? && Steady(s) && c == s.c.(clock := c.clock) && c.clock > s.c.clock
    requires k.config.None? && Unsettled(s.c)
    ensures Ahead(Begin(c, c.cr.value, k))
  {
    hide SnapshotNameOf, ServiceDNSOf, AfterProvider, Progress, PointFits, Gone;
  }

  lemma PerformAhead(c: Cluster, p: Point, ls: LabSession, k: ApiCall)
    requires var s := State(c, At(p, ls), Busy); Steady(s) && Ahead(s)
    requires k.answers && Same(c, Perform(c, p, ls, k).c)
    ensures Perform(c, p, ls, k).c.cr.Some? && Ahead(Perform(c, p, ls, k))
  {
    hide SnapshotNameOf, ServiceDNSOf, RequeueUntilExpiry, Progress;
  }

  /** A pass given up with a change ahead leaves it to the next one, or has one call less to make. */
  lemma AbortLeavesDue(s: State, r: Result)
    requires Steady(s) && Ahead(s)
    ensures Unsettled(s.c) || Left(State(s.c, Idle, r), true) < Left(s, true)
  {
    hide SnapshotNameOf, ServiceDNSOf, Progress, Populated;
  }

  // ---------------------------------------------------------------- what is left to do

  /** What the cluster has still to finish. */
  function Unfinished(c: Cluster): (r: nat)
    ensures r <= 3
  {
    Bit(SnapshotDue(c)) + Bit(c.infra.disk.Some? && c.infra.disk.value.contents.None?)
    + Bit(c.infra.vmi == Some(Pending))
  }

  /** A changing call may leave the cluster more to finish, but lowers the bound on changing calls. */
  function Work(s: State): nat
    requires s.c.cr.Some?
  {
    4 * Left(s, true) + Unfinished(s.c)
  }

  /** Nothing that decides what is due has changed. */
  predicate Alike(c: Cluster, c': Cluster) {
    var f, f' := c.infra, c'.infra;
    && c'.cr == c.cr && c'.id == c.id && c'.clock >= c.clock && f'.vmi == f.vmi
    && f'.service == f.service && f'.policy == f.policy && f'.secret == f.secret
    && f'.disk.Some? == f.disk.Some?
    && (f.disk.Some? ==> f'.disk.value.source == f.disk.value.source
                         && f'.disk.value.contents.Some? == f.disk.value.contents.Some?)
    && f'.snapshots.Keys == f.snapshots.Keys && SnapshotDue(c') == SnapshotDue(c)
  }

  lemma NatureAlike(c: Cluster, wait: nat, a: InfraAction)
    requires !a.VmStops?
    ensures var c' := EnvStep(c, Nature(wait, a));
            && Unfinished(c') <= Unfinished(c) && (Unfinished(c') == Unfinished(c) ==> Alike(c, c'))
  {
    hide SnapshotNameOf;
    match a
    case SnapshotTurnsReady(name) => ReadyAlike(c, wait, name);
    case _ =>
  }

  lemma ReadyAlike(c: Cluster, wait: nat, name: string)
    ensures var c' := EnvStep(c, Nature(wait, SnapshotTurnsReady(name)));
            && Unfinished(c') <= Unfinished(c) && (Unfinished(c') == Unfinished(c) ==> Alike(c, c'))
  {
    hide SnapshotNameOf;
    var f, f' := c.infra, InfraStep(c.infra, SnapshotTurnsReady(name));
    assert f' == f.(snapshots := f'.snapshots) && f'.snapshots.Keys == f.snapshots.Keys;
  }

  lemma SameIsAlike(c: Cluster, c': Cluster)
    requires Same(c, c') && c'.id == c.id && c'.clock >= c.clock
    ensures Alike(c, c') && Unfinished(c') == Unfinished(c)
  {
  }

  /** A move lowers the work, or leaves everything that is due as it is. */
  lemma StepWorks(s: State, m: Move)
    requires Steady(s) && Permitted(m, true)
    ensures var s' := Step(s, m);
            && Steady(s') && s'.c.id == s.c.id && s'.c.cr.Some? && Work(s') <= Work(s)
            && (Work(s') == Work(s) ==> Alike(s.c, s'.c))
            && (m.Op? && Work(s') == Work(s) ==> Same(s.c, s'.c))
  {
    hide Steady, Left, SnapshotDue, EnvStep, OpStep;
    SteadyCr(s);
    StepSettles(s, m, true);
    SteadyCr(Step(s, m));
    match m
    case Op(k) =>
      OpFrame(s, k);
      if Same(s.c, Step(s, m).c) {
        SameIsAlike(s.c, Step(s, m).c);
      }
    case Env(e) => NatureAlike(s.c, e.wait, e.move);
  }

  // ---------------------------------------------------------------- a call that is due

  lemma AlikeIsDue(s: State, s': State)
    requires Steady(s) && s'.c.cr.Some? && Alike(s.c, s'.c)
    ensures Unsettled(s.c) ==> Unsettled(s'.c)
    ensures s'.op == s.op && Ahead(s) ==> Ahead(s')
  {
    hide SnapshotNameOf, ServiceDNSOf, Progress, Gone, OnTrack;
  }

  /** A call that changes nothing leaves a due one due; if it succeeds, a change is nearer. */
  lemma CallNears(s: State, k: ApiCall)
    requires Steady(s) && k.config.None? && k.answers && CallIsDue(s)
    requires var s' := Step(s, Op(k)); s'.c.cr.Some? && Same(s.c, s'.c) && Left(s', true) == Left(s, true)
    ensures var s' := Step(s, Op(k));
            CallIsDue(s') && (k.outcome == Done ==> Distance(s') < Distance(s))
  {
    hide Firm, Lapsing, Left, Ahead, Unsettled, Begin, Perform, Rank, SnapshotNameOf;
    OpFrame(s, k);
    var c, s' := s.c.(clock := s.c.clock + 1 + k.wait), Step(s, Op(k));
    SameIsAlike(s.c, c);
    SameIsAlike(s.c, s'.c);
    AlikeIsDue(s, s');
    AlikeIsDue(s, State(c, s.op, Busy));
    AheadIsAt(s);
    AheadIsAt(s');
    RankBound(s.op);
    RankBound(s'.op);
    if s.op.Idle? {
      if k.outcome == Done {
        BeginAhead(s, c, k);
      }
    } else {
      OpRank(s, k);
      if Ahead(s) {
        AheadNears(s, k);
      }
    }
  }

  lemma SteadyLater(s: State, c: Cluster)
    requires Steady(s) && c == s.c.(clock := c.clock) && c.clock >= s.c.clock
    ensures var s' := State(c, s.op, Busy);
            Steady(s') && s'.c.cr.Some? && s.c.cr.Some? && Left(s', true) <= Left(s, true)
  {
    hide Lapsing, Firm, Left;
    FirmCr(s);
    FirmLater(s, c, Busy, true);
    LapsingLater(s, c);
  }

  lemma PerformSteady(c: Cluster, p: Point, ls: LabSession, k: ApiCall)
    requires Steady(State(c, At(p, ls), Busy)) && k.answers
    ensures var s, s' := State(c, At(p, ls), Busy), Perform(c, p, ls, k);
            Steady(s') && s'.c.cr.Some? && s.c.cr.Some? && Left(s', true) <= Left(s, true)
  {
    hide Lapsing, Firm, Left, Perform;
    PerformSettles(c, p, ls, k);
    PerformLapses(c, p, ls, k);
    FirmCr(State(c, At(p, ls), Busy));
    FirmCr(Perform(c, p, ls, k));
  }

  lemma AheadNears(s: State, k: ApiCall)
    requires Steady(s) && s.op.At? && k.config.None? && k.answers && Ahead(s)
    requires var s' := Step(s, Op(k)); s'.c.cr.Some? && Same(s.c, s'.c) && Left(s', true) == Left(s, true)
    ensures var s' := Step(s, Op(k)); if k.outcome == Done then Ahead(s') else Unsettled(s'.c)
  {
    hide Steady, Left, Ahead, Unsettled, Perform, Rank, SnapshotNameOf;
    var c, s' := s.c.(clock := s.c.clock + 1 + k.wait), Step(s, Op(k));
    var p, ls, s1 := s.op.point, s.op.ls, State(c, s.op, Busy);
    SteadyLater(s, c);
    SameIsAlike(s.c, c);
    AlikeIsDue(s, s1);
    if k.outcome == Refused {
      AbortLeavesDue(s1, s'.result);
    } else {
      PerformSteady(c, p, ls, k);
      PerformAhead(c, p, ls, k);
      if k.outcome == Lost {
        AbortLeavesDue(Perform(c, p, ls, k), s'.result);
      }
    }
  }

  lemma RankBound(op: OpState)
    ensures Rank(op) <= 12 && (op.At? ==> Rank(op) >= 1) && (op.Idle? ==> Rank(op) == 0)
  {
  }

  lemma AheadIsAt(s: State)
    requires s.c.cr.Some?
    ensures Ahead(s) ==> s.op.At?
  {
  }

  function Calls(moves: seq<Move>): nat {
    if moves == [] then 0 else (if moves[0].Op? then 1 else 0) + Calls(moves[1..])
  }

  predicate AllSmooth(moves: seq<Move>) {
    forall i :: 0 <= i < |moves| ==> Smooth(moves[i])
  }

  /** What a move does to a due call: work is done, or the call stays due, and nearer after a successful one. */
  lemma StepNears(s: State, m: Move)
    requires Steady(s) && Permitted(m, true) && s.c.cr.Some? && CallIsDue(s)
    ensures var s' := Step(s, m);
            && Steady(s') && s'.c.id == s.c.id && s'.c.cr.Some? && Work(s') <= Work(s)
            && (Work(s') == Work(s) ==>
                  CallIsDue(s') && (Smooth(m) ==> Distance(s') + (if m.Op? then 1 else 0) <= Distance(s)))
  {
    hide Steady, Left, EnvStep, OpStep, Same, Ahead, Unsettled, Unfinished, Alike;
    StepWorks(s, m);
    var s' := Step(s, m);
    if Work(s') == Work(s) {
      AlikeIsDue(s, s');
      match m
      case Op(k) => CallNears(s, k);
      case Env(_) =>
    }
  }

  lemma {:induction false} DueCallWorks(s: State, moves: seq<Move>)
    requires Steady(s) && s.c.cr.Some? && Undisturbed(moves, true) && AllSmooth(moves)
    requires CallIsDue(s) && Calls(moves) >= Distance(s)
    ensures Steady(Run(s, moves)) && Run(s, moves).c.cr.Some? && Work(Run(s, moves)) < Work(s)
    decreases |moves|
  {
    hide Steady, Work, Step, Permitted, CallIsDue, Smooth, Rank;
    AheadIsAt(s);
    RankBound(s.op);
    var s' := Step(s, moves[0]);
    StepNears(s, moves[0]);
    HearsOn(moves[0]);
    if Work(s') < Work(s) {
      RunWorks(s', moves[1..]);
    } else {
      DueCallWorks(s', moves[1..]);
    }
  }

  lemma HearsOn(m: Move)
    requires Permitted(m, true)
    ensures Answered(m, true)
  {
  }

  lemma {:induction false} RunWorks(s: State, moves: seq<Move>)
    requires Steady(s) && s.c.cr.Some? && Undisturbed(moves, true)
    ensures var s' := Run(s, moves);
            && Steady(s') && s'.c.id == s.c.id && s'.c.cr.Some? && Work(s') <= Work(s)
            && (CallIsDue(s) && Work(s') == Work(s) ==> CallIsDue(s'))
    decreases |moves|
  {
    hide Steady, Work, Step, Permitted, CallIsDue, Distance;
    if moves != [] {
      StepWorks(s, moves[0]);
      if CallIsDue(s) {
        StepNears(s, moves[0]);
      }
      HearsOn(moves[0]);
      RunWorks(Step(s, moves[0]), moves[1..]);
    }
  }

  lemma {:induction false} UndisturbedParts(a: seq<Move>, b: seq<Move>)
    requires Undisturbed(a + b, true)
    ensures Undisturbed(a, true) && Undisturbed(b, true)
    decreases |a|
  {
    hide Permitted;
    if a == [] {
      assert a + b == b;
    } else {
      assert (a + b)[1..] == a[1..] + b;
      HearsOn(a[0]);
      UndisturbedParts(a[1..], b);
    }
  }

  /** Enough calls in a row that succeed, and that ttyd answers, whatever the cluster does between them. */
  predicate HasPass(moves: seq<Move>) {
    exists i, j :: 0 <= i <= j <= |moves| && AllSmooth(moves[i..j]) && Calls(moves[i..j]) >= 25
  }

  lemma PassWorks(s: State, moves: seq<Move>)
    requires Steady(s) && s.c.cr.Some? && Undisturbed(moves, true) && CallIsDue(s) && HasPass(moves)
    ensures Steady(Run(s, moves)) && Run(s, moves).c.cr.Some? && Work(Run(s, moves)) < Work(s)
  {
    hide Steady, Work, Undisturbed, CallIsDue, AllSmooth, Calls, Run, Distance;
    var i, j :| 0 <= i <= j <= |moves| && AllSmooth(moves[i..j]) && Calls(moves[i..j]) >= 25;
    var a, b, e := moves[..i], moves[i..j], moves[j..];
    assert moves == a + (b + e);
    UndisturbedParts(a, b + e);
    UndisturbedParts(b, e);
    RunAppend(s, a, b + e);
    var s1 := Run(s, a);
    RunAppend(s1, b, e);
    var s2 := Run(s1, b);
    RunWorks(s, a);
    RunWorks(s1, b);
    RunWorks(s2, e);
    if Work(s1) == Work(s) {
      DueCallWorks(s1, b);
    }
  }

  // ---------------------------------------------------------------- a move of the cluster that is due

  datatype Due = SnapshotIsDue | DiskIsDue | BootIsDue

  predicate IsDue(c: Cluster, d: Due) {
    match d
    case SnapshotIsDue => SnapshotDue(c)
    case DiskIsDue => DiskDue(c)
    case BootIsDue => CanBoot(c.infra)
  }

  /** The move that does what is due. */
  function Doing(d: Due, n: string): InfraAction {
    match d
    case SnapshotIsDue => SnapshotTurnsReady(n)
    case DiskIsDue => DiskPopulates
    case BootIsDue => VmBoots
  }

  predicate Does(m: Move, d: Due, n: string) {
    m.Env? && m.event.Nature? && m.event.move == Doing(d, n)
  }

  predicate Has(moves: seq<Move>, d: Due, n: string) {
    exists i :: 0 <= i < |moves| && Does(moves[i], d, n)
  }

  lemma DueUnlessDone(c: Cluster, c': Cluster, d: Due)
    requires Alike(c, c') && IsDue(c, d)
    ensures IsDue(c', d)
  {
    hide SnapshotNameOf;
  }

  lemma DoingWorks(s: State, m: Move, d: Due)
    requires Steady(s) && s.c.cr.Some? && IsDue(s.c, d) && Does(m, d, SnapshotNameOf(s.c.id))
    ensures Step(s, m).c.cr.Some? && Work(Step(s, m)) < Work(s)
  {
    hide Left, SnapshotNameOf, Lapsing, Backed, OnTrack;
    StepWorks(s, m);
    StepSettles(s, m, true);
    assert !Alike(s.c, Step(s, m).c);
  }

  lemma {:induction false} DueGetsDone(s: State, moves: seq<Move>, d: Due)
    requires Steady(s) && s.c.cr.Some? && Undisturbed(moves, true)
    requires IsDue(s.c, d) && Has(moves, d, SnapshotNameOf(s.c.id))
    ensures Steady(Run(s, moves)) && Run(s, moves).c.cr.Some? && Work(Run(s, moves)) < Work(s)
    decreases |moves|
  {
    hide Steady, IsDue, Does, Step, Permitted, Alike, Work, SnapshotNameOf;
    var m, s' := moves[0], Step(s, moves[0]);
    StepWorks(s, m);
    HearsOn(m);
    var i :| 0 <= i < |moves| && Does(moves[i], d, SnapshotNameOf(s.c.id));
    if Does(m, d, SnapshotNameOf(s.c.id)) {
      DoingWorks(s, m, d);
    }
    if Work(s') < Work(s) {
      RunWorks(s', moves[1..]);
    } else {
      DueUnlessDone(s.c, s'.c, d);
      assert moves[i] == moves[1..][i - 1];
      DueGetsDone(s', moves[1..], d);
    }
  }

  // ---------------------------------------------------------------- rest

  /** At rest, with no pass under way that is about to write a stale status or to tear the session down. */
  predicate Resting(s: State)
    requires s.c.cr.Some?
  {
    AtRest(s.c) && (s.op.At? ==> Ensuring(s.op.point))
  }

  /** Away from rest, or overdue, something is due: a call, or a move of the snapshot, the disk or the VM. */
  lemma DueAwayFromRest(s: State)
    requires Steady(s) && s.c.cr.Some? && (!Resting(s) || Overdue(s.c))
    ensures CallIsDue(s) || SnapshotDue(s.c) || DiskDue(s.c) || CanBoot(s.c.infra)
  {
    hide SnapshotNameOf, ServiceDNSOf, Progress, Gone;
  }

  /** A stretch of a run with, in any order and among anything else, enough successful calls for a pass and one
      chance each for the session's snapshot, its disk and its VM. */
  predicate Sweep(moves: seq<Move>, n: string) {
    HasPass(moves) && forall d: Due :: Has(moves, d, n)
  }

  /** A sweep over a session away from rest, or overdue, lowers the work. */
  lemma SweepWorks(s: State, moves: seq<Move>)
    requires Steady(s) && s.c.cr.Some? && Undisturbed(moves, true) && Sweep(moves, SnapshotNameOf(s.c.id))
    requires !Resting(s) || Overdue(s.c)
    ensures Steady(Run(s, moves)) && Run(s, moves).c.cr.Some? && Work(Run(s, moves)) < Work(s)
  {
    hide Steady, Resting, Overdue, CallIsDue, SnapshotDue, DiskDue, Has, HasPass, Work, Undisturbed, SnapshotNameOf;
    DueAwayFromRest(s);
    if CallIsDue(s) {
      PassWorks(s, moves);
    } else {
      DueGetsDone(s, moves, if SnapshotDue(s.c) then SnapshotIsDue else if DiskDue(s.c) then DiskIsDue else BootIsDue);
    }
  }

  /** Expired, for a session whose deadline had passed; otherwise at rest, unless the deadline passes meanwhile. */
  predicate Reached(s: State, late: bool)
    requires s.c.cr.Some?
  {
    if late then IsExpired(s.c) else Resting(s) || Lapsed(s.c.cr.value, s.c.clock)
  }

  lemma EnsuringRests(c: Cluster, p: Point, ls: LabSession, k: ApiCall)
    requires Serving(c) && c.cr == Some(ls) && ls.spec.sessionID == c.id && Ensuring(p) && k.answers
    ensures var s' := Perform(c, p, ls, k); s'.c == c && (s'.op.At? ==> Ensuring(s'.op.point))
  {
    hide ServiceDNSOf, CrEffect, RequeueUntilExpiry;
  }

  lemma BeginRests(s: State, c: Cluster, k: ApiCall)
    requires s.op.Idle? && Lapsing(s) && Firm(s) && c == s.c.(clock := c.clock) && c.clock > s.c.clock
    requires AtRest(s.c) && k.config.None?
    ensures Reached(Begin(c, c.cr.value, k), false)
  {
    hide ServiceDNSOf, SnapshotNameOf, AfterProvider, Protected, Standing;
  }

  lemma CallRests(s: State, k: ApiCall)
    requires Steady(s) && s.c.cr.Some? && Resting(s) && k.config.None? && k.answers
    requires Step(s, Op(k)).c.cr.Some?
    ensures Reached(Step(s, Op(k)), false)
  {
    hide Begin, Perform, Standing, Progress, PointFits, Gone, Backed, Sound, EnsuredBy;
    var c := s.c.(clock := s.c.clock + 1 + k.wait);
    match s.op
    case Idle =>
      if k.outcome == Done {
        BeginRests(s, c, k);
      }
    case At(p, ls) =>
      if k.outcome != Refused {
        EnsuringRests(c, p, ls, k);
      }
  }

  lemma NatureRests(c: Cluster, wait: nat, a: InfraAction)
    requires AtRest(c) && !a.VmStops?
    ensures AtRest(EnvStep(c, Nature(wait, a)))
  {
    hide ServiceDNSOf;
  }

  lemma StepReaches(s: State, m: Move, late: bool)
    requires Steady(s) && s.c.cr.Some? && Permitted(m, true) && Reached(s, late)
    ensures Step(s, m).c.cr.Some? && Reached(Step(s, m), late)
  {
    hide Firm, Protected, Gone, AtRest, OpStep, EnvStep, Left;
    StepSettles(s, m, true);
    FirmCr(Step(s, m));
    if late {
      StepKeepsExpired(s, m);
    } else {
      StepAdvances(s, m);
      if Resting(s) {
        match m
        case Op(k) => CallRests(s, k);
        case Env(e) => NatureRests(s.c, e.wait, e.move);
      }
    }
  }

  lemma StepAdvances(s: State, m: Move)
    ensures Step(s, m).c.clock > s.c.clock
  {
    hide OpStep, InfraStep, ServerStep;
    match m
    case Op(k) => OpFrame(s, k);
    case Env(e) =>
      if e.Server? {
        ServerKeepsFrame(s.c.(clock := s.c.clock + 1 + e.wait), e.act);
      }
  }

  lemma {:induction false} RunReaches(s: State, moves: seq<Move>, late: bool)
    requires Steady(s) && s.c.cr.Some? && Undisturbed(moves, true) && Reached(s, late)
    ensures var s' := Run(s, moves); Steady(s') && s'.c.cr.Some? && Reached(s', late)
    decreases |moves|
  {
    hide Steady, Step, Permitted, Reached, Work;
    if moves != [] {
      StepWorks(s, moves[0]);
      StepReaches(s, moves[0], late);
      HearsOn(moves[0]);
      RunReaches(Step(s, moves[0]), moves[1..], late);
    }
  }

  // ---------------------------------------------------------------- convergence

  function RunAll(s: State, sweeps: seq<seq<Move>>): State
    decreases |sweeps|
  {
    if sweeps == [] then s else RunAll(Run(s, sweeps[0]), sweeps[1..])
  }

  predicate Sweeps(sweeps: seq<seq<Move>>, heard: bool, n: string)
    decreases |sweeps|
  {
    sweeps != [] ==>
      && Undisturbed(sweeps[0], heard) && Sweep(sweeps[0], n)
      && Sweeps(sweeps[1..], AnsweredBy(sweeps[0], heard), n)
  }

  /** Any run of seventy-six sweeps, whatever else happens in them, brings a session to rest: to Expired if its
      deadline had passed, else to Paused or to Ready, unless the deadline passes on the way. */
  lemma Converges(s: State, sweeps: seq<seq<Move>>, heard: bool)
    requires Steady(s) && s.c.cr.Some? && |sweeps| >= 76 && Sweeps(sweeps, heard, SnapshotNameOf(s.c.id))
    ensures var s' := RunAll(s, sweeps);
            && Steady(s') && s'.c.id == s.c.id && s'.c.cr.Some? && s'.c.cr.value.spec == s.c.cr.value.spec
            && (if Lapsed(s.c.cr.value, s.c.clock) then IsExpired(s'.c) && Resting(s')
                else Resting(s') || Lapsed(s'.c.cr.value, s'.c.clock))
  {
    hide Steady, Resting, Undisturbed, Run, AnsweredBy, Left, Unfinished, Sweep, SnapshotNameOf, Lapsed;
    var late, s1 := Lapsed(s.c.cr.value, s.c.clock), Run(s, sweeps[0]);
    FewEffects(s, sweeps[0], heard);
    SteadyCr(s1);
    StaysLapsed(s, sweeps[0], heard);
    SweepHears(sweeps[0], heard, SnapshotNameOf(s.c.id));
    SweepsReach(s1, sweeps[1..], late);
    if late {
      ExpiredRests(RunAll(s1, sweeps[1..]));
    }
  }

  lemma StaysLapsed(s: State, moves: seq<Move>, heard: bool)
    requires Steady(s) && s.c.cr.Some? && Undisturbed(moves, heard) && Run(s, moves).c.cr.Some?
    ensures var s' := Run(s, moves);
            Lapsed(s.c.cr.value, s.c.clock) ==> Lapsed(s'.c.cr.value, s'.c.clock)
  {
    hide Steady, Left;
    FewEffects(s, moves, heard);
    RunAdvances(s, moves);
  }

  lemma {:induction false} RunAdvances(s: State, moves: seq<Move>)
    ensures Run(s, moves).c.clock >= s.c.clock
    decreases |moves|
  {
    hide Step;
    if moves != [] {
      StepAdvances(s, moves[0]);
      RunAdvances(Step(s, moves[0]), moves[1..]);
    }
  }

  lemma ExpiredRests(s: State)
    requires Steady(s) && s.c.cr.Some? && IsExpired(s.c)
    ensures Resting(s)
  {
    hide Protected, Gone, Sound, Backed;
  }

  lemma SweepHears(moves: seq<Move>, heard: bool, n: string)
    requires Undisturbed(moves, heard) && Sweep(moves, n)
    ensures AnsweredBy(moves, heard)
  {
    hide Undisturbed, AnsweredBy, Has;
    var i, j :| 0 <= i <= j <= |moves| && AllSmooth(moves[i..j]) && Calls(moves[i..j]) >= 25;
    var k := CallInside(moves[i..j]);
    AnswerIsHeard(moves, heard, i + k);
  }

  lemma {:induction false} CallInside(moves: seq<Move>) returns (k: nat)
    requires Calls(moves) > 0
    ensures k < |moves| && moves[k].Op?
  {
    if moves[0].Op? {
      k := 0;
    } else {
      k := CallInside(moves[1..]);
      k := k + 1;
    }
  }

  lemma {:induction false} AnswerIsHeard(moves: seq<Move>, heard: bool, i: nat)
    requires Undisturbed(moves, heard) && i < |moves| && moves[i].Op? && moves[i].call.answers
    ensures AnsweredBy(moves, heard)
    decreases |moves|
  {
    if i > 0 {
      AnswerIsHeard(moves[1..], Answered(moves[0], heard), i - 1);
    } else {
      StillHeard(moves[1..]);
    }
  }

  lemma {:induction false} StillHeard(moves: seq<Move>)
    requires Undisturbed(moves, true)
    ensures AnsweredBy(moves, true)
    decreases |moves|
  {
    if moves != [] {
      HearsOn(moves[0]);
      StillHeard(moves[1..]);
    }
  }

  lemma {:induction false} SweepsReach(s: State, sweeps: seq<seq<Move>>, late: bool)
    requires Steady(s) && s.c.cr.Some? && Sweeps(sweeps, true, SnapshotNameOf(s.c.id))
    requires late ==> Lapsed(s.c.cr.value, s.c.clock)
    requires Reached(s, late) || |sweeps| >= Work(s)
    ensures var s' := RunAll(s, sweeps);
            && Steady(s') && s'.c.id == s.c.id && s'.c.cr.Some? && s'.c.cr.value.spec == s.c.cr.value.spec
            && Reached(s', late)
    decreases |sweeps|
  {
    hide Steady, Resting, Undisturbed, Run, AnsweredBy, Work, Left, Sweep, SnapshotNameOf, Lapsed;
    if !Reached(s, late) {
      WorkAwayFromRest(s);
    }
    if sweeps != [] {
      var s1 := Run(s, sweeps[0]);
      FewEffects(s, sweeps[0], true);
      SteadyCr(s1);
      StaysLapsed(s, sweeps[0], true);
      SweepHears(sweeps[0], true, SnapshotNameOf(s.c.id));
      if Reached(s, late) {
        RunReaches(s, sweeps[0], late);
      } else {
        SweepWorks(s, sweeps[0]);
      }
      SweepsReach(s1, sweeps[1..], late);
    }
  }

  lemma WorkAwayFromRest(s: State)
    requires Steady(s) && s.c.cr.Some? && (!Resting(s) || Overdue(s.c))
    ensures Work(s) > 0
  {
    hide Steady, Resting;
    if IsExpired(s.c) {
      ExpiredRests(s);
    }
  }

  /** Between two passes any reachable session before its teardown is steady, if no VM failed and its snapshot has
      not been lost. */
  lemma ReachableIsSteady(s: State, moves: seq<Move>)
    requires Init(s) && Guarded(s, moves) && Run(s, moves).op.Idle? && Intact(Run(s, moves).c)
    ensures Steady(Run(s, moves))
  {
    InitKept(s);
    GuardedRunKeeps(s, moves);
    InitLapsing(s);
    RunKeepsLapsing(s, moves);
    IntactIsFirm(Run(s, moves));
  }

  lemma IntactIsFirm(s: State)
    requires Kept(s) && Intact(s.c) && s.op.Idle?
    ensures Firm(s)
  {
    hide PointFits, Progress, SnapshotHolds, FreshSnapshot, Sealed;
  }
}
