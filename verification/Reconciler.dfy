/** The operator's code, call by call, against an API server that other clients use at the same time. */
module Reconciler {
  import opened LabSessions
  import opened Protocol
  import opened Passes

  datatype ApiError = NotFound | AlreadyExists | Conflict | Other

  datatype Object = Vmi | NetworkPolicy | Service | DataVolume | Secret | VolumeSnapshot(name: string)

  predicate Exists(f: Infra, o: Object) {
    match o
    case Vmi => f.vmi.Some?
    case NetworkPolicy => f.policy
    case Service => f.service
    case DataVolume => f.disk.Some?
    case Secret => f.secret
    case VolumeSnapshot(name) => name in f.snapshots
  }

  function Without(f: Infra, o: Object): Infra {
    match o
    case Vmi => f.(vmi := None)
    case NetworkPolicy => f.(policy := false)
    case Service => f.(service := false)
    case DataVolume => f.(disk := None)
    case Secret => f.(secret := false)
    case VolumeSnapshot(name) => f.(snapshots := f.snapshots - {name})
  }

  /** CreateOrUpdate: an existing object keeps its spec. */
  function With(f: Infra, o: Object, source: DiskSource): Infra {
    match o
    case Vmi => if f.vmi.Some? then f else f.(vmi := Some(Pending))
    case NetworkPolicy => f.(policy := true)
    case Service => f.(service := true)
    case DataVolume => if f.disk.Some? then f else f.(disk := Some(Disk(source, None)))
    case Secret => f.(secret := true)
    case VolumeSnapshot(name) => CreateSnapshot(f, name)
  }

  /** The cluster as the next call finds it. */
  function Before(c: Cluster, slot: Slot): Cluster {
    var c := EnvRun(c, slot.before);
    c.(clock := c.clock + 1 + slot.call.wait)
  }

  /** What the API server makes of a request. */
  function Reply(outcome: Outcome, refusal: Option<ApiError>): Option<ApiError> {
    if outcome == Done then refusal else Some(Other)
  }

  class Api {
    var c: Cluster
    var next: nat
    const script: Script

    constructor (c: Cluster, script: Script)
      ensures this.c == c && next == 0 && this.script == script
    {
      this.c := c;
      this.script := script;
      next := 0;
    }

    function Slot(): Slot
      reads this
    {
      script(next)
    }

    /** How rendering the session's configuration goes, and whether ttyd answers, at the last call. */
    function Config(): Option<string>
      requires next > 0
      reads this
    {
      script(next - 1).call.config
    }

    function Answers(): bool
      requires next > 0
      reads this
    {
      script(next - 1).call.answers
    }

    method Get() returns (err: Option<ApiError>, ls: Option<LabSession>)
      modifies this
      ensures next == old(next) + 1 && c == Before(old(c), old(Slot()))
      ensures err == Reply(old(Slot()).call.outcome, if c.cr.Some? then None else Some(NotFound))
      ensures err.None? ==> c.cr.Some? && ls == c.cr
    {
      var slot := Slot();
      next := next + 1;
      c := Before(c, slot);
      ls := c.cr;
      err := Reply(slot.call.outcome, if ls.Some? then None else Some(NotFound));
    }

    /** The whole object, refused unless it carries the current resource version; the status is not part of it,
        and an object being deleted goes with its last finalizer. */
    method Update(ls: LabSession) returns (err: Option<ApiError>)
      modifies this
      ensures next == old(next) + 1
      ensures var c0 := Before(old(c), old(Slot()));
              && c == (if old(Slot()).call.outcome == Refused || !Updates(c0, ls) then c0
                       else if ls.deleting && !ls.finalizer then c0.(cr := None)
                       else c0.(cr := Some(ls.(status := c0.cr.value.status,
                                               resourceVersion := ls.resourceVersion + 1))))
              && (err.None? <==> old(Slot()).call.outcome == Done && Updates(c0, ls))
    {
      var slot := Slot();
      next := next + 1;
      c := Before(c, slot);
      err := Some(Other);
      if slot.call.outcome != Refused {
        if !Updates(c, ls) {
          err := Some(if c.cr.None? then NotFound else Conflict);
        } else {
          if ls.deleting && !ls.finalizer {
            c := c.(cr := None);
          } else {
            c := c.(cr := Some(ls.(status := c.cr.value.status, resourceVersion := ls.resourceVersion + 1)));
          }
          err := Reply(slot.call.outcome, None);
        }
      }
    }

    /** patchStatus: only what the mutation changed in the local copy is written; the answer is the new object. */
    method Patch(ls: LabSession, mutated: Status) returns (err: Option<ApiError>, answer: LabSession)
      modifies this
      ensures next == old(next) + 1
      ensures var c0 := Before(old(c), old(Slot()));
              && c == (if old(Slot()).call.outcome == Refused || c0.cr.None? then c0 else PatchStatus(c0, ls, mutated))
              && (err.None? <==> old(Slot()).call.outcome == Done && c0.cr.Some?)
              && (err.None? ==> c.cr == Some(answer))
    {
      var slot := Slot();
      next := next + 1;
      c := Before(c, slot);
      err, answer := Some(Other), ls;
      if slot.call.outcome != Refused {
        if c.cr.None? {
          err := Some(NotFound);
        } else {
          c := PatchStatus(c, ls, mutated);
          answer := c.cr.value;
          err := Reply(slot.call.outcome, None);
        }
      }
    }

    method Delete(o: Object) returns (err: Option<ApiError>)
      modifies this
      ensures next == old(next) + 1
      ensures var c0 := Before(old(c), old(Slot()));
              && c == (if old(Slot()).call.outcome == Refused then c0 else c0.(infra := Without(c0.infra, o)))
              && err == Reply(old(Slot()).call.outcome, if Exists(c0.infra, o) then None else Some(NotFound))
    {
      var slot := Slot();
      next := next + 1;
      c := Before(c, slot);
      err := Reply(slot.call.outcome, if Exists(c.infra, o) then None else Some(NotFound));
      if slot.call.outcome != Refused {
        c := c.(infra := Without(c.infra, o));
      }
    }

    method Create(name: string) returns (err: Option<ApiError>)
      modifies this
      ensures next == old(next) + 1
      ensures var c0 := Before(old(c), old(Slot()));
              && c == (if old(Slot()).call.outcome == Refused then c0 else c0.(infra := CreateSnapshot(c0.infra, name)))
              && err == Reply(old(Slot()).call.outcome,
                              if name in c0.infra.snapshots then Some(AlreadyExists) else None)
    {
      var slot := Slot();
      next := next + 1;
      c := Before(c, slot);
      err := Reply(slot.call.outcome, if name in c.infra.snapshots then Some(AlreadyExists) else None);
      if slot.call.outcome != Refused {
        c := c.(infra := CreateSnapshot(c.infra, name));
      }
    }

    method Ensure(o: Object, source: DiskSource) returns (err: Option<ApiError>)
      modifies this
      ensures next == old(next) + 1
      ensures var c0 := Before(old(c), old(Slot()));
              && c == (if old(Slot()).call.outcome == Refused then c0 else c0.(infra := With(c0.infra, o, source)))
              && err == Reply(old(Slot()).call.outcome, None)
    {
      var slot := Slot();
      next := next + 1;
      c := Before(c, slot);
      err := Reply(slot.call.outcome, None);
      if slot.call.outcome != Refused {
        c := c.(infra := With(c.infra, o, source));
      }
    }

    method GetSnapshot(name: string) returns (err: Option<ApiError>, ready: bool)
      modifies this
      ensures next == old(next) + 1 && c == Before(old(c), old(Slot()))
      ensures err == Reply(old(Slot()).call.outcome, if name in c.infra.snapshots then None else Some(NotFound))
      ensures err.None? ==> name in c.infra.snapshots && ready == c.infra.snapshots[name].ready
    {
      var slot := Slot();
      next := next + 1;
      c := Before(c, slot);
      err := Reply(slot.call.outcome, if name in c.infra.snapshots then None else Some(NotFound));
      ready := name in c.infra.snapshots && c.infra.snapshots[name].ready;
    }

    method GetVmiPhase() returns (err: Option<ApiError>, vmi: Option<VmPhase>)
      modifies this
      ensures next == old(next) + 1 && c == Before(old(c), old(Slot()))
      ensures err == Reply(old(Slot()).call.outcome, if c.infra.vmi.Some? then None else Some(NotFound))
      ensures err.None? ==> vmi == c.infra.vmi
    {
      var slot := Slot();
      next := next + 1;
      c := Before(c, slot);
      vmi := c.infra.vmi;
      err := Reply(slot.call.outcome, if vmi.Some? then None else Some(NotFound));
    }
  }

  /** The pass from this point on, as the protocol has it. */
  function From(c: Cluster, point: Point, ls: LabSession, script: Script, i: nat): State {
    Rest(Continue(c, point, ls), script, i)
  }

  lemma CallOf(c: Cluster, p: Point, ls: LabSession, script: Script, i: nat)
    ensures var k := script(i).call;
            var c0 := Before(c, script(i));
            From(c, p, ls, script, i) ==
              if k.outcome == Refused then Abort(c0, p)
              else if k.outcome == Lost then Abort(Perform(c0, p, ls, k).c, p)
              else Rest(Perform(c0, p, ls, k), script, i + 1)
  {
    hide Perform, EnvRun, Rank;
    var k := script(i).call;
    var c0 := Before(c, script(i));
    RestIdle(Abort(c0, p), script, i + 1);
    RestIdle(Abort(Perform(c0, p, ls, k).c, p), script, i + 1);
  }

  predicate Failed(err: Option<ApiError>, tolerated: ApiError) {
    err.Some? && err.value != tolerated
  }

  method TeardownCompute(api: Api, ls: LabSession, ghost goal: Goal) returns (err: bool)
    requires goal.Deletion? || goal.Expiry? || goal.Suspend?
    modifies api
    ensures api.next >= old(api.next)
    ensures var was := From(old(api.c), DeleteVmi(goal), ls, api.script, old(api.next));
            was == if err then Finish(api.c, Error)
                   else From(api.c, if goal.Suspend? then TakeSnapshot else DeleteDisk(goal), ls, api.script, api.next)
  {
    hide EnvRun, Rest, Before;
    var objs := [Vmi, NetworkPolicy, Service];
    ghost var points := [DeleteVmi(goal), DeletePolicy(goal), DeleteService(goal),
                         if goal.Suspend? then TakeSnapshot else DeleteDisk(goal)];
    for n := 0 to |objs|
      invariant api.next >= old(api.next)
      invariant From(old(api.c), DeleteVmi(goal), ls, api.script, old(api.next)) ==
                From(api.c, points[n], ls, api.script, api.next)
    {
      CallOf(api.c, points[n], ls, api.script, api.next);
      var e := api.Delete(objs[n]);
      if Failed(e, NotFound) {
        return true;
      }
    }
    return false;
  }

  method TeardownDisk(api: Api, ls: LabSession, ghost goal: Goal) returns (err: bool)
    requires goal.Deletion? || goal.Expiry? || goal.Park?
    modifies api
    ensures api.next >= old(api.next)
    ensures var was := From(old(api.c), DeleteDisk(goal), ls, api.script, old(api.next));
            was == if err then Finish(api.c, Error)
                   else Rest(AfterInfra(api.c, DeleteDisk(goal), ls, QUIET_CALL), api.script, api.next)
  {
    hide EnvRun, Rest, Before;
    CallOf(api.c, DeleteDisk(goal), ls, api.script, api.next);
    var e := api.Delete(DataVolume);
    err := Failed(e, NotFound);
  }

  /** AfterInfra looks at the call only after GetVmi. */
  const QUIET_CALL: ApiCall := ApiCall(0, Done, None, true)

  method DeleteSnapshotNamed(api: Api, ls: LabSession, name: string, ghost goal: Goal) returns (err: bool)
    requires goal.Deletion? || goal.Expiry? || goal.Cleanup?
    modifies api
    ensures api.next >= old(api.next)
    ensures var was := From(old(api.c), DeleteSnapshot(goal, name), ls, api.script, old(api.next));
            was == if err then Abort(api.c, DeleteSnapshot(goal, name))
                   else Rest(AfterInfra(api.c, DeleteSnapshot(goal, name), ls, QUIET_CALL), api.script, api.next)
  {
    hide EnvRun, Rest, Before;
    CallOf(api.c, DeleteSnapshot(goal, name), ls, api.script, api.next);
    var e := api.Delete(VolumeSnapshot(name));
    err := Failed(e, NotFound);
  }

  method Teardown(api: Api, ls: LabSession, ghost goal: Goal) returns (err: bool)
    requires goal.Deletion? || goal.Expiry?
    modifies api
    ensures api.next >= old(api.next)
    ensures var was := From(old(api.c), DeleteVmi(goal), ls, api.script, old(api.next));
            was == if err then Finish(api.c, Error) else Rest(AfterTeardown(api.c, ls, goal), api.script, api.next)
  {
    hide EnvRun, Rest, Before;
    err := TeardownCompute(api, ls, goal);
    if err {
      return;
    }
    err := TeardownDisk(api, ls, goal);
    if err {
      return;
    }
    if ls.status.snapshotName != "" {
      err := DeleteSnapshotNamed(api, ls, ls.status.snapshotName, goal);
    }
  }

  method Snapshot(api: Api, ls: LabSession) returns (name: Option<string>)
    modifies api
    ensures api.next >= old(api.next)
    ensures var was := From(old(api.c), TakeSnapshot, ls, api.script, old(api.next));
            was == if name.None? then Finish(api.c, Error)
                   else From(api.c, PatchSnapshot(name.value), ls, api.script, api.next)
  {
    hide EnvRun, Rest, Before, SnapshotNameOf;
    var snapName := SnapshotNameOf(ls.spec.sessionID);
    CallOf(api.c, TakeSnapshot, ls, api.script, api.next);
    var e := api.Create(snapName);
    name := if Failed(e, AlreadyExists) then None else Some(snapName);
  }

  method SnapshotReady(api: Api, ls: LabSession) returns (err: bool, ready: bool)
    modifies api
    ensures api.next >= old(api.next)
    ensures var was := From(old(api.c), CheckSnapshot, ls, api.script, old(api.next));
            was == if err || !ready then Finish(api.c, RequeueAfter(5 * SECOND))
                   else From(api.c, DeleteDisk(Park), ls, api.script, api.next)
  {
    hide EnvRun, Rest, Before, SnapshotNameOf;
    CallOf(api.c, CheckSnapshot, ls, api.script, api.next);
    assert Finish(api.c, RequeueAfter(5 * SECOND)).op.Idle?;
    var e;
    e, ready := api.GetSnapshot(ls.status.snapshotName);
    RestIdle(Finish(api.c, RequeueAfter(5 * SECOND)), api.script, api.next);
    err := e.Some?;
  }

  /** The object an ensure call is for. */
  function Ensured(point: Point): Option<Object> {
    match point
    case EnsureDisk => Some(DataVolume)
    case EnsureSecret => Some(Secret)
    case EnsureVmi => Some(Vmi)
    case EnsureService => Some(Service)
    case EnsurePolicy => Some(NetworkPolicy)
    case _ => None
  }

  method Ensure(api: Api, ls: LabSession, o: Object, ghost point: Point) returns (err: bool)
    requires Ensured(point) == Some(o)
    modifies api
    ensures api.next > old(api.next)
    ensures var was := From(old(api.c), point, ls, api.script, old(api.next));
            was == if err then Finish(api.c, Error)
                   else Rest(AfterInfra(api.c, point, ls, QUIET_CALL), api.script, api.next)
  {
    hide EnvRun, Rest, Before;
    CallOf(api.c, point, ls, api.script, api.next);
    var e := api.Ensure(o, if ls.status.snapshotName != "" then FromSnapshot(ls.status.snapshotName) else GoldenImage);
    err := e.Some?;
  }

  /** What is to be said of a VM in a phase, or of none. */
  predicate Reports(res: ProviderResult, vmi: Option<VmPhase>, id: string) {
    && (res.phase == Running <==> vmi == Some(Up))
    && (res.phase == LabSessions.Failed <==> vmi == Some(Crashed) || vmi == Some(Finished))
    && (res.phase == Provisioning <==> vmi == None || vmi == Some(Pending))
    && (vmi == Some(Crashed) ==> res.message == "vmi phase Failed")
    && (vmi == Some(Finished) ==> res.message == "vmi phase Succeeded")
    && (vmi != Some(Crashed) && vmi != Some(Finished) ==> res.message == "")
    && res.serviceDNS == if vmi == Some(Up) then ServiceDNSOf(id) else ""
  }

  method ReadVmi(api: Api, ls: LabSession) returns (err: bool, res: ProviderResult)
    modifies api
    ensures api.next == old(api.next) + 1
    ensures !err ==> Reports(res, api.c.infra.vmi, ls.spec.sessionID)
    ensures var was := From(old(api.c), GetVmi, ls, api.script, old(api.next));
            was == if err then Finish(api.c, Error)
                   else Rest(AfterProvider(api.c, ls, res, api.script(old(api.next)).call), api.script, api.next)
  {
    hide EnvRun, Rest, Before, ServiceDNSOf;
    CallOf(api.c, GetVmi, ls, api.script, api.next);
    var e, vmi := api.GetVmiPhase();
    if e.Some? {
      return e.value != NotFound, ProviderResult(Provisioning, "", "");
    }
    match vmi.value
    case Up => return false, ProviderResult(Running, ServiceDNSOf(ls.spec.sessionID), "");
    case Crashed => return false, ProviderResult(LabSessions.Failed, "", "vmi phase Failed");
    case Finished => return false, ProviderResult(LabSessions.Failed, "", "vmi phase Succeeded");
    case Pending => return false, ProviderResult(Provisioning, "", "");
  }

  /** The provider's half of a converging pass: every object made sure of, in order, then the VM's phase read. */
  method ProviderReconcile(api: Api, ls: LabSession) returns (err: bool, res: ProviderResult)
    requires api.next > 0
    modifies api
    ensures api.next >= old(api.next)
    ensures old(api.Config()).Some? ==>
              !err && res == ProviderResult(LabSessions.Failed, "", old(api.Config()).value)
              && api.c == old(api.c) && api.next == old(api.next)
    ensures old(api.Config()).None? ==>
              var was := From(old(api.c), EnsureDisk, ls, api.script, old(api.next));
              was == if err then Finish(api.c, Error)
                     else Rest(AfterProvider(api.c, ls, res, api.script(api.next - 1).call), api.script, api.next)
  {
    hide EnvRun, Rest, Before, AfterProvider;
    var config := api.Config();
    if config.Some? {
      return false, ProviderResult(LabSessions.Failed, "", config.value);
    }
    res := ProviderResult(NoPhase, "", "");
    err := Ensure(api, ls, DataVolume, EnsureDisk);
    if err {
      return;
    }
    err := Ensure(api, ls, Secret, EnsureSecret);
    if err {
      return;
    }
    err := Ensure(api, ls, Vmi, EnsureVmi);
    if err {
      return;
    }
    err := Ensure(api, ls, Service, EnsureService);
    if err {
      return;
    }
    err := Ensure(api, ls, NetworkPolicy, EnsurePolicy);
    if err {
      return;
    }
    err, res := ReadVmi(api, ls);
  }

  // ---------------------------------------------------------------- the reconciler

  lemma PatchOf(c: Cluster, p: Point, ls: LabSession, script: Script, i: nat)
    requires WritesCr(p) && p != AddFinalizer && p != DropFinalizer
    ensures var k := script(i).call;
            var c0 := Before(c, script(i));
            var c1 := if k.outcome == Refused || c0.cr.None? then c0 else PatchStatus(c0, ls, Mutated(ls.status, p));
            From(c, p, ls, script, i) ==
              if k.outcome == Done && c0.cr.Some?
              then Rest(AfterPatch(c1, p, c1.cr.value, ls.status.snapshotName), script, i + 1)
              else Finish(c1, Error)
  {
    hide EnvRun, Rest, PatchStatus, Mutated, AfterPatch, Before;
    CallOf(c, p, ls, script, i);
    RestIdle(Finish(Before(c, script(i)), Error), script, i + 1);
    if Before(c, script(i)).cr.Some? {
      PatchFrame(Before(c, script(i)), p, ls);
    }
  }

  lemma PatchFrame(c: Cluster, p: Point, ls: LabSession)
    requires c.cr.Some? && WritesCr(p) && p != AddFinalizer && p != DropFinalizer
    ensures CrEffect(c, p, ls).c == PatchStatus(c, ls, Mutated(ls.status, p))
  {
    hide PatchStatus, Mutated, RequeueUntilExpiry;
  }

  /** patchStatus with the mutation this point stands for. */
  method Patch(api: Api, ls: LabSession, mutated: Status, ghost point: Point) returns (err: bool, answer: LabSession)
    requires WritesCr(point) && point != AddFinalizer && point != DropFinalizer
    requires mutated == Mutated(ls.status, point)
    modifies api
    ensures api.next == old(api.next) + 1
    ensures var was := From(old(api.c), point, ls, api.script, old(api.next));
            was == if err then Finish(api.c, Error)
                   else Rest(AfterPatch(api.c, point, answer, ls.status.snapshotName), api.script, api.next)
  {
    hide EnvRun, Rest, Before, PatchStatus, Mutated, AfterPatch;
    PatchOf(api.c, point, ls, api.script, api.next);
    var e;
    e, answer := api.Patch(ls, mutated);
    err := e.Some?;
  }

  method UpdateFinalizer(api: Api, ls: LabSession, ghost point: Point) returns (err: bool)
    requires (point == AddFinalizer && ls.finalizer) || (point == DropFinalizer && !ls.finalizer && ls.deleting)
    modifies api
    ensures api.next == old(api.next) + 1
    ensures State(api.c, Idle, if err then Error else Stop) ==
            From(old(api.c), point, ls.(finalizer := point == DropFinalizer), api.script, old(api.next))
  {
    hide EnvRun, Rest, Before;
    ghost var was := ls.(finalizer := point == DropFinalizer);
    CallOf(api.c, point, was, api.script, api.next);
    ghost var c0, k := Before(api.c, api.script(api.next)), api.script(api.next).call;
    RestIdle(Perform(c0, point, was, k), api.script, api.next + 1);
    var e := api.Update(ls);
    err := e.Some?;
  }

  method DeleteSession(api: Api, ls: LabSession) returns (result: Result)
    requires ls.finalizer && ls.deleting
    modifies api
    ensures api.next >= old(api.next)
    ensures State(api.c, Idle, result) == From(old(api.c), DeleteVmi(Deletion), ls, api.script, old(api.next))
  {
    hide EnvRun, Rest, Before;
    var err := Teardown(api, ls, Deletion);
    if err {
      return Error;
    }
    err := UpdateFinalizer(api, ls.(finalizer := false), DropFinalizer);
    result := if err then Error else Stop;
  }

  /** TTL: everything is torn down but the CR stays for the dashboard. */
  method ExpireSession(api: Api, ls: LabSession) returns (result: Result)
    modifies api
    ensures api.next >= old(api.next)
    ensures State(api.c, Idle, result) == From(old(api.c), DeleteVmi(Expiry), ls, api.script, old(api.next))
  {
    hide EnvRun, Rest, Before;
    var err := Teardown(api, ls, Expiry);
    if err {
      return Error;
    }
    var answer;
    err, answer := Patch(api, ls, ls.status.(phase := Expired, snapshotName := ""), PatchExpired);
    RestIdle(Finish(api.c, Stop), api.script, api.next);
    result := if err then Error else Stop;
  }

  /** Pause, phase 1: stop the VM, snapshot the disk that is still there, record the snapshot. */
  method SuspendSession(api: Api, ls: LabSession) returns (result: Result)
    modifies api
    ensures api.next >= old(api.next)
    ensures State(api.c, Idle, result) == From(old(api.c), DeleteVmi(Suspend), ls, api.script, old(api.next))
  {
    hide EnvRun, Rest, Before;
    var err := TeardownCompute(api, ls, Suspend);
    if err {
      return Error;
    }
    var snapName := Snapshot(api, ls);
    if snapName.None? {
      return Error;
    }
    var answer;
    err, answer := Patch(api, ls, ls.status.(snapshotName := snapName.value, serviceDNS := ""),
                         PatchSnapshot(snapName.value));
    RestIdle(Finish(api.c, RequeueAfter(5 * SECOND)), api.script, api.next);
    result := if err then Error else RequeueAfter(5 * SECOND);
  }

  /** Pause, phase 2: once the snapshot is ready, drop the disk. */
  method ParkSession(api: Api, ls: LabSession) returns (result: Result)
    modifies api
    ensures api.next >= old(api.next)
    ensures State(api.c, Idle, result) == From(old(api.c), CheckSnapshot, ls, api.script, old(api.next))
  {
    hide EnvRun, Rest, Before;
    var err, ready := SnapshotReady(api, ls);
    if err || !ready {
      return RequeueAfter(5 * SECOND);
    }
    err := TeardownDisk(api, ls, Park);
    if err {
      return Error;
    }
    var answer;
    err, answer := Patch(api, ls, ls.status.(phase := Paused), PatchPaused);
    RestIdle(Finish(api.c, Stop), api.script, api.next);
    result := if err then Error else Stop;
  }

  method ResumeSession(api: Api, ls: LabSession) returns (result: Result)
    modifies api
    ensures api.next >= old(api.next)
    ensures State(api.c, Idle, result) == From(old(api.c), PatchResumed, ls, api.script, old(api.next))
  {
    hide EnvRun, Rest, Before;
    var err, answer := Patch(api, ls, ls.status.(phase := Provisioning), PatchResumed);
    RestIdle(Finish(api.c, RequeueAfter(SECOND)), api.script, api.next);
    result := if err then Error else RequeueAfter(SECOND);
  }

  /** The tail of a converging pass: let the snapshot go once the VM is back, then book the next pass. */
  method FinishProgress(api: Api, ls: LabSession, phase: Phase, snapshotName: string) returns (result: Result)
    modifies api
    ensures api.next >= old(api.next)
    ensures State(api.c, Idle, result) ==
            Rest(AfterProgress(old(api.c), ls, phase, snapshotName), api.script, old(api.next))
  {
    hide EnvRun, Rest, Before;
    var snapToDelete := snapshotName;
    if phase != Running && phase != Ready {
      snapToDelete := "";
    }
    var last := ls;
    if snapToDelete != "" {
      var err := DeleteSnapshotNamed(api, ls, snapToDelete, Cleanup(phase));
      if err {
        return RequeueAfter(REQUEUE_WHILE_PENDING);
      }
      err, last := Patch(api, ls, ls.status.(snapshotName := ""), PatchCleared(phase));
      if err {
        return Error;
      }
    }
    result := RequeueAfter(if phase != Ready then REQUEUE_WHILE_PENDING
                           else RequeueUntilExpiry(last.spec.expiresAt, api.c.clock));
    RestIdle(Finish(api.c, result), api.script, api.next);
  }

  method Converge(api: Api, ls: LabSession) returns (result: Result)
    requires api.next > 0
    modifies api
    ensures api.next >= old(api.next)
    ensures State(api.c, Idle, result) ==
            Rest(if old(api.Config()).Some?
                 then AfterProvider(old(api.c), ls, ProviderResult(LabSessions.Failed, "", old(api.Config()).value),
                                    old(api.script(api.next - 1)).call)
                 else Continue(old(api.c), EnsureDisk, ls), api.script, old(api.next))
  {
    hide EnvRun, Rest, Before, AfterProgress;
    var err, res := ProviderReconcile(api, ls);
    if err {
      return Error;
    }
    var phase := res.phase;
    if res.phase == Running && res.serviceDNS != "" && api.Answers() {
      phase := Ready;
    }
    var last := ls;
    if ls.status.phase != phase || ls.status.serviceDNS != res.serviceDNS || ls.status.message != res.message {
      err, last := Patch(api, ls, ls.status.(phase := phase, serviceDNS := res.serviceDNS, message := res.message),
                         PatchProgress(res, phase));
      if err {
        return Error;
      }
    }
    result := FinishProgress(api, last, phase, ls.status.snapshotName);
  }

  /** Drives one session toward Ready, enforces its TTL, and tears it down on deletion.  Call for call it is the
      protocol's pass, whatever the script makes of its calls and of the time between them. */
  method Reconcile(api: Api) returns (result: Result)
    modifies api
    ensures api.next > old(api.next)
    ensures State(api.c, Idle, result) == Pass(old(api.c), api.script, old(api.next))
  {
    hide EnvRun, Rest, Begin, AfterProvider;
    ghost var script, c0 := api.script, Before(api.c, api.script(api.next));
    var e, got := api.Get();
    if e.Some? {
      result := if e.value == NotFound then Stop else Error;
      RestIdle(Finish(c0, result), script, api.next);
      return;
    }
    assert Pass(old(api.c), script, old(api.next)) ==
           Rest(Begin(c0, got.value, script(old(api.next)).call), script, api.next);
    result := Act(api, got.value);
  }

  /** The branches Reconcile takes on the object it has read. */
  method Act(api: Api, ls: LabSession) returns (result: Result)
    requires api.next > 0 && api.c.cr == Some(ls)
    modifies api
    ensures api.next >= old(api.next)
    ensures State(api.c, Idle, result) ==
            Rest(Begin(old(api.c), ls, old(api.script(api.next - 1)).call), api.script, old(api.next))
  {
    hide EnvRun, Rest, Before, AfterProvider;
    if ls.deleting {
      if ls.finalizer {
        api.c := api.c.(torn := true);  // history only
        result := DeleteSession(api, ls);
      } else {
        result := Stop;
        RestIdle(Finish(api.c, Stop), api.script, api.next);
      }
      return;
    }
    if !ls.finalizer {
      var err := UpdateFinalizer(api, ls.(finalizer := true), AddFinalizer);
      return if err then Error else Stop;
    }
    if PastTtl(ls, api.c.clock) {
      if ls.status.phase != Expired {
        api.c := api.c.(torn := true);  // history only
        result := ExpireSession(api, ls);
      } else {
        result := Stop;
        RestIdle(Finish(api.c, Stop), api.script, api.next);
      }
      return;
    }
    if ls.spec.paused && ls.status.phase != Paused {
      if ls.status.snapshotName == "" {
        result := SuspendSession(api, ls);
      } else {
        result := ParkSession(api, ls);
      }
      return;
    }
    if !ls.spec.paused && ls.status.phase == Paused {
      result := ResumeSession(api, ls);
      return;
    }
    if ls.status.phase == Paused {
      result := Stop;
      RestIdle(Finish(api.c, Stop), api.script, api.next);
      return;
    }
    result := Converge(api, ls);
  }
}
