/** The lifecycle of one session as a transition system.  The operator's pass is cut at its API calls: between
    two of them the server, the cluster and the virtual machine may move, and each call may fail. */
module Protocol {
  import opened LabSessions

  // ---------------------------------------------------------------- the cluster

  type Contents = int

  /** What a snapshot holds when its source disk had nothing on it yet. */
  const BLANK: Contents := 0

  /** What a disk cloned from the golden PVC starts with. */
  const GOLDEN: Contents := 1

  datatype VmPhase = Pending | Up | Crashed | Finished

  datatype DiskSource = GoldenImage | FromSnapshot(name: string)

  /** contents is None until the disk has been populated from its source. */
  datatype Disk = Disk(source: DiskSource, contents: Option<Contents>)

  datatype Snapshot = Snapshot(contents: Contents, ready: bool)

  /** A MarkStepComplete call between its read and its patch. */
  datatype StepCall = StepCall(base: seq<StepRecord>, step: string, readAt: int)

  /** The objects a session owns.  left is history: the disk as the VM last left it. */
  datatype Infra = Infra(
    disk: Option<Disk>,
    vmi: Option<VmPhase>,
    service: bool,
    policy: bool,
    secret: bool,
    snapshots: map<string, Snapshot>,
    left: Option<Contents>)

  /** Everything outside the operator.  torn is history: whether a TTL or deletion teardown has begun. */
  datatype Cluster = Cluster(
    id: string,
    cr: Option<LabSession>,
    calls: map<nat, StepCall>,
    infra: Infra,
    clock: int,
    torn: bool)

  // ---------------------------------------------------------------- server and environment

  datatype ServerAction =
    | Pause
    | Resume
    | Expire(lag: nat)
    | Delete
    | StepRead(call: nat, step: string)
    | StepWrite(call: nat, lag: nat)
    | StepDrop(call: nat)

  datatype InfraAction =
    | SnapshotTurnsReady(name: string)
    | DiskPopulates
    | VmBoots
    | VmWrites(contents: Contents)
    | VmStops(cleanly: bool)

  /** An action taken after the clock has moved on by 1 + wait. */
  datatype Event = Server(wait: nat, act: ServerAction) | Nature(wait: nat, move: InfraAction)

  function Edit(ls: LabSession, spec: Spec, deleting: bool): LabSession {
    ls.(spec := spec, deleting := deleting, resourceVersion := ls.resourceVersion + 1)
  }

  function WriteStatus(ls: LabSession, status: Status): LabSession {
    if status == ls.status then ls else ls.(status := status, resourceVersion := ls.resourceVersion + 1)
  }

  predicate Recorded(steps: seq<StepRecord>, step: string) {
    exists i :: 0 <= i < |steps| && steps[i].step == step
  }

  function MarkRead(c: Cluster, call: nat, step: string): Cluster {
    if c.cr.None? || call in c.calls || Recorded(c.cr.value.status.completedSteps, step) then c
    else c.(calls := c.calls[call := StepCall(c.cr.value.status.completedSteps, step, c.clock)])
  }

  /** Expire writes an instant read from the clock a little before its patch lands. */
  function ExpiryStamp(clock: int, lag: nat): int {
    if clock - lag > 0 then clock - lag else clock
  }

  /** MarkStepComplete stamps its record at some instant between its read and its patch. */
  function Stamp(k: StepCall, clock: int, lag: nat): int {
    if clock - lag < k.readAt then k.readAt else clock - lag
  }

  /** Its patch, against the status the server holds by then. */
  function MarkPatch(ls: LabSession, k: StepCall, stamp: int): LabSession {
    var before := ls.status.(completedSteps := k.base);
    WriteStatus(ls, FieldMerge(ls.status, before, before.(completedSteps := k.base + [StepRecord(k.step, stamp)])))
  }

  function ServerStep(c: Cluster, a: ServerAction): Cluster {
    if c.cr.None? then c
    else
      var ls := c.cr.value;
      match a
      case Pause => c.(cr := Some(Edit(ls, ls.spec.(paused := true), ls.deleting)))
      case Resume => c.(cr := Some(Edit(ls, ls.spec.(paused := false), ls.deleting)))
      case Expire(lag) => c.(cr := Some(Edit(ls, ls.spec.(expiresAt := ExpiryStamp(c.clock, lag)), ls.deleting)))
      case Delete => c.(cr := if ls.finalizer then Some(Edit(ls, ls.spec, true)) else None)
      case StepRead(call, step) => MarkRead(c, call, step)
      case StepWrite(call, lag) =>
        if call !in c.calls then c
        else
          var k := c.calls[call];
          c.(calls := c.calls - {call}, cr := Some(MarkPatch(ls, k, Stamp(k, c.clock, lag))))
      case StepDrop(call) => c.(calls := c.calls - {call})
  }

  function Populate(f: Infra, disk: Disk): Infra {
    if disk.contents.Some? then f
    else
      match disk.source
      case GoldenImage => f.(disk := Some(disk.(contents := Some(GOLDEN))))
      case FromSnapshot(name) =>
        if name in f.snapshots && f.snapshots[name].ready
        then f.(disk := Some(disk.(contents := Some(f.snapshots[name].contents))))
        else f
  }

  /** A VM starts only from a populated disk. */
  predicate CanBoot(f: Infra) {
    f.vmi == Some(Pending) && f.disk.Some? && f.disk.value.contents.Some?
  }

  function InfraStep(f: Infra, a: InfraAction): Infra {
    match a
    case SnapshotTurnsReady(name) =>
      if name in f.snapshots then f.(snapshots := f.snapshots[name := f.snapshots[name].(ready := true)]) else f
    case DiskPopulates => if f.disk.Some? then Populate(f, f.disk.value) else f
    case VmBoots => if CanBoot(f) then f.(vmi := Some(Up), left := f.disk.value.contents) else f
    case VmWrites(contents) =>
      if f.vmi == Some(Up) && f.disk.Some?
      then f.(disk := Some(f.disk.value.(contents := Some(contents))), left := Some(contents))
      else f
    case VmStops(cleanly) =>
      if f.vmi == Some(Up) || f.vmi == Some(Pending) then f.(vmi := Some(if cleanly then Finished else Crashed)) else f
  }

  function EnvStep(c0: Cluster, e: Event): Cluster {
    var c := c0.(clock := c0.clock + 1 + e.wait);
    match e
    case Server(_, act) => ServerStep(c, act)
    case Nature(_, move) => c.(infra := InfraStep(c.infra, move))
  }

  // ---------------------------------------------------------------- the operator

  /** Why an object is being deleted, and so what the pass does next. */
  datatype Goal = Deletion | Expiry | Suspend | Park | Cleanup(phase: Phase)

  datatype ProviderResult = ProviderResult(phase: Phase, serviceDNS: string, message: string)

  /** The API call a pass is about to make. */
  datatype Point =
    | AddFinalizer
    | DropFinalizer
    | DeleteVmi(goal: Goal)
    | DeletePolicy(goal: Goal)
    | DeleteService(goal: Goal)
    | DeleteDisk(goal: Goal)
    | DeleteSnapshot(goal: Goal, name: string)
    | PatchExpired
    | TakeSnapshot
    | PatchSnapshot(name: string)
    | CheckSnapshot
    | PatchPaused
    | PatchResumed
    | EnsureDisk
    | EnsureSecret
    | EnsureVmi
    | EnsureService
    | EnsurePolicy
    | GetVmi
    | PatchProgress(res: ProviderResult, phase: Phase)
    | PatchCleared(phase: Phase)

  datatype OpState = Idle | At(point: Point, ls: LabSession)

  /** What the last pass returned; Busy while one is under way. */
  datatype Result = Busy | Error | Stop | RequeueAfter(delay: int)

  datatype State = State(c: Cluster, op: OpState, result: Result)

  /** Refused: the call failed and did nothing.  Lost: it took effect, but an error came back. */
  datatype Outcome = Done | Refused | Lost

  /** One API call: how it ends, whether rendering the configuration fails (and how), and whether ttyd answers. */
  datatype ApiCall = ApiCall(wait: nat, outcome: Outcome, config: Option<string>, answers: bool)

  const REQUEUE_WHILE_PENDING: int := 5 * SECOND

  function RequeueUntilExpiry(expiresAt: int, now: int): int {
    if expiresAt == 0 then 60 * SECOND
    else if expiresAt - now < SECOND then SECOND
    else expiresAt - now
  }

  function Continue(c: Cluster, point: Point, ls: LabSession): State {
    State(c, At(point, ls), Busy)
  }

  function Finish(c: Cluster, result: Result): State {
    State(c, Idle, result)
  }

  predicate PastTtl(ls: LabSession, now: int) {
    ls.spec.expiresAt != 0 && now > ls.spec.expiresAt
  }

  /** The branches Reconcile takes on the object it has just read. */
  function Begin(c: Cluster, ls: LabSession, k: ApiCall): State {
    if ls.deleting then
      if ls.finalizer then Continue(c.(torn := true), DeleteVmi(Deletion), ls) else Finish(c, Stop)
    else if !ls.finalizer then Continue(c, AddFinalizer, ls)
    else if PastTtl(ls, c.clock) then
      if ls.status.phase != Expired then Continue(c.(torn := true), DeleteVmi(Expiry), ls) else Finish(c, Stop)
    else if ls.spec.paused && ls.status.phase != Paused then
      if ls.status.snapshotName == "" then Continue(c, DeleteVmi(Suspend), ls) else Continue(c, CheckSnapshot, ls)
    else if !ls.spec.paused && ls.status.phase == Paused then Continue(c, PatchResumed, ls)
    else if ls.status.phase == Paused then Finish(c, Stop)
    else if k.config.Some? then AfterProvider(c, ls, ProviderResult(Failed, "", k.config.value), k)
    else Continue(c, EnsureDisk, ls)
  }

  /** Reconcile once the provider has reported. */
  function AfterProvider(c: Cluster, ls: LabSession, res: ProviderResult, k: ApiCall): State {
    var phase := if res.phase == Running && res.serviceDNS != "" && k.answers then Ready else res.phase;
    if ls.status.phase != phase || ls.status.serviceDNS != res.serviceDNS || ls.status.message != res.message
    then Continue(c, PatchProgress(res, phase), ls)
    else AfterProgress(c, ls, phase, ls.status.snapshotName)
  }

  function AfterProgress(c: Cluster, ls: LabSession, phase: Phase, snapshotName: string): State {
    if (phase == Running || phase == Ready) && snapshotName != ""
    then Continue(c, DeleteSnapshot(Cleanup(phase), snapshotName), ls)
    else FinishConverge(c, ls, phase)
  }

  function FinishConverge(c: Cluster, ls: LabSession, phase: Phase): State {
    if phase != Ready then Finish(c, RequeueAfter(REQUEUE_WHILE_PENDING))
    else Finish(c, RequeueAfter(RequeueUntilExpiry(ls.spec.expiresAt, c.clock)))
  }

  function AfterTeardown(c: Cluster, ls: LabSession, goal: Goal): State {
    Continue(c, if goal == Deletion then DropFinalizer else PatchExpired, ls)
  }

  /** patchStatus: the diff of the local copy against its mutation, applied to whatever the server now holds. */
  function PatchStatus(c: Cluster, ls: LabSession, after: Status): Cluster
    requires c.cr.Some?
  {
    c.(cr := Some(WriteStatus(c.cr.value, FieldMerge(c.cr.value.status, ls.status, after))))
  }

  /** Update sends the whole object and is refused when the server's copy has moved on. */
  predicate Updates(c: Cluster, ls: LabSession) {
    c.cr.Some? && c.cr.value.resourceVersion == ls.resourceVersion
  }

  function CreateSnapshot(f: Infra, name: string): Infra {
    if name in f.snapshots then f
    else
      var contents := if f.disk.Some? && f.disk.value.contents.Some? then f.disk.value.contents.value else BLANK;
      f.(snapshots := f.snapshots[name := Snapshot(contents, false)])
  }

  function CreateDisk(f: Infra, snapshotName: string): Infra {
    if f.disk.Some? then f
    else f.(disk := Some(Disk(if snapshotName != "" then FromSnapshot(snapshotName) else GoldenImage, None)))
  }

  function ReportVmi(vmi: Option<VmPhase>, id: string): ProviderResult {
    match vmi
    case None => ProviderResult(Provisioning, "", "")
    case Some(Pending) => ProviderResult(Provisioning, "", "")
    case Some(Up) => ProviderResult(Running, ServiceDNSOf(id), "")
    case Some(Crashed) => ProviderResult(Failed, "", "vmi phase Failed")
    case Some(Finished) => ProviderResult(Failed, "", "vmi phase Succeeded")
  }

  /** The effect of a call that creates or deletes one of the session's objects. */
  function InfraEffect(f: Infra, point: Point, ls: LabSession): Infra {
    match point
    case DeleteVmi(_) => f.(vmi := None)
    case DeletePolicy(_) => f.(policy := false)
    case DeleteService(_) => f.(service := false)
    case DeleteDisk(_) => f.(disk := None)
    case DeleteSnapshot(_, name) => f.(snapshots := f.snapshots - {name})
    case TakeSnapshot => CreateSnapshot(f, SnapshotNameOf(ls.spec.sessionID))
    case EnsureDisk => CreateDisk(f, ls.status.snapshotName)
    case EnsureSecret => f.(secret := true)
    case EnsureVmi => if f.vmi.Some? then f else f.(vmi := Some(Pending))
    case EnsureService => f.(service := true)
    case EnsurePolicy => f.(policy := true)
    case _ => f
  }

  /** The code between a call that touched no CR and the next one. */
  function AfterInfra(c: Cluster, point: Point, ls: LabSession, k: ApiCall): State {
    match point
    case DeleteVmi(goal) => Continue(c, DeletePolicy(goal), ls)
    case DeletePolicy(goal) => Continue(c, DeleteService(goal), ls)
    case DeleteService(goal) => Continue(c, if goal == Suspend then TakeSnapshot else DeleteDisk(goal), ls)
    case DeleteDisk(goal) =>
      if goal == Park then Continue(c, PatchPaused, ls)
      else if ls.status.snapshotName != "" then Continue(c, DeleteSnapshot(goal, ls.status.snapshotName), ls)
      else AfterTeardown(c, ls, goal)
    case DeleteSnapshot(goal, _) =>
      if goal.Cleanup? then Continue(c, PatchCleared(goal.phase), ls) else AfterTeardown(c, ls, goal)
    case TakeSnapshot => Continue(c, PatchSnapshot(SnapshotNameOf(ls.spec.sessionID)), ls)
    case CheckSnapshot =>
      var name := ls.status.snapshotName;
      if name in c.infra.snapshots && c.infra.snapshots[name].ready then Continue(c, DeleteDisk(Park), ls)
      else Finish(c, RequeueAfter(5 * SECOND))
    case EnsureDisk => Continue(c, EnsureSecret, ls)
    case EnsureSecret => Continue(c, EnsureVmi, ls)
    case EnsureVmi => Continue(c, EnsureService, ls)
    case EnsureService => Continue(c, EnsurePolicy, ls)
    case EnsurePolicy => Continue(c, GetVmi, ls)
    case GetVmi => AfterProvider(c, ls, ReportVmi(c.infra.vmi, ls.spec.sessionID), k)
    case _ => Finish(c, Error)
  }

  predicate WritesCr(point: Point) {
    match point
    case AddFinalizer | DropFinalizer | PatchExpired | PatchPaused | PatchResumed => true
    case PatchSnapshot(_) | PatchProgress(_, _) | PatchCleared(_) => true
    case _ => false
  }

  /** What a status patch makes of the local copy. */
  function Mutated(status: Status, point: Point): Status {
    match point
    case PatchExpired => status.(phase := Expired, snapshotName := "")
    case PatchSnapshot(name) => status.(snapshotName := name, serviceDNS := "")
    case PatchPaused => status.(phase := Paused)
    case PatchResumed => status.(phase := Provisioning)
    case PatchProgress(res, phase) => status.(phase := phase, serviceDNS := res.serviceDNS, message := res.message)
    case PatchCleared(_) => status.(snapshotName := "")
    case _ => status
  }

  /** The code after a status patch; the local copy is now what the server answered. */
  function AfterPatch(c: Cluster, point: Point, ls: LabSession, snapshotName: string): State {
    match point
    case PatchSnapshot(_) => Finish(c, RequeueAfter(5 * SECOND))
    case PatchResumed => Finish(c, RequeueAfter(SECOND))
    case PatchProgress(_, phase) => AfterProgress(c, ls, phase, snapshotName)
    case PatchCleared(phase) => FinishConverge(c, ls, phase)
    case _ => Finish(c, Stop)
  }

  /** A call that writes the CR and the code up to the next one. */
  function CrEffect(c: Cluster, point: Point, ls: LabSession): State {
    match point
    case AddFinalizer =>
      if !Updates(c, ls) then Finish(c, Error)
      else Finish(c.(cr := Some(ls.(finalizer := true, status := c.cr.value.status,
                                    resourceVersion := ls.resourceVersion + 1))), Stop)
    case DropFinalizer => if !Updates(c, ls) then Finish(c, Error) else Finish(c.(cr := None), Stop)
    case _ =>
      if c.cr.None? then Finish(c, Error)
      else
        var c := PatchStatus(c, ls, Mutated(ls.status, point));
        AfterPatch(c, point, c.cr.value, ls.status.snapshotName)
  }

  /** The call itself and the code up to the next one. */
  function Perform(c: Cluster, point: Point, ls: LabSession, k: ApiCall): State {
    if WritesCr(point) then CrEffect(c, point, ls)
    else AfterInfra(c.(infra := InfraEffect(c.infra, point, ls)), point, ls, k)
  }

  /** An error ends the pass, except that a failed readiness check or snapshot clean-up is only retried later. */
  function Abort(c: Cluster, point: Point): State {
    if point.CheckSnapshot? || (point.DeleteSnapshot? && point.goal.Cleanup?)
    then Finish(c, RequeueAfter(REQUEUE_WHILE_PENDING))
    else Finish(c, Error)
  }

  function OpStep(s: State, k: ApiCall): State {
    var c := s.c.(clock := s.c.clock + 1 + k.wait);
    match s.op
    case Idle =>
      if k.outcome != Done then Finish(c, Error)
      else if c.cr.None? then Finish(c, Stop)
      else Begin(c, c.cr.value, k)
    case At(point, ls) =>
      if k.outcome == Refused then Abort(c, point)
      else if k.outcome == Lost then Abort(Perform(c, point, ls, k).c, point)
      else Perform(c, point, ls, k)
  }

  // ---------------------------------------------------------------- runs

  datatype Move = Env(event: Event) | Op(call: ApiCall)

  function Step(s: State, m: Move): State {
    match m
    case Env(e) => s.(c := EnvStep(s.c, e))
    case Op(k) => OpStep(s, k)
  }

  function Run(s: State, moves: seq<Move>): State
    decreases |moves|
  {
    if moves == [] then s else Run(Step(s, moves[0]), moves[1..])
  }

  /** A session as Create leaves it: nothing of its own in the cluster yet. */
  predicate Init(s: State) {
    && s.op == Idle
    && s.c.cr.Some?
    && s.c.cr.value.spec.sessionID == s.c.id
    && !s.c.cr.value.spec.paused
    && s.c.cr.value.status == Status(NoPhase, "", "", [], "")
    && !s.c.cr.value.finalizer && !s.c.cr.value.deleting
    && s.c.calls == map[]
    && s.c.infra == Infra(None, None, false, false, false, map[], None)
    && s.c.clock > 0
    && !s.c.torn
  }
}
