/** What a whole pass does when nothing fails and nobody else moves while it runs. */
module QuietPasses {
  import opened LabSessions
  import opened Protocol
  import opened ProtocolSafety
  import opened Passes

  /** A call that succeeds at once; `answers` is what ttyd makes of the pass's probe. */
  function Quiet(answers: bool): ApiCall {
    ApiCall(0, Done, None, answers)
  }

  function Drain(s: State, answers: bool): State
    decreases Rank(s.op)
  {
    if s.op.Idle? then s else
      OpRank(s, Quiet(answers));
      Drain(OpStep(s, Quiet(answers)), answers)
  }

  function QuietPass(c: Cluster, wait: nat, answers: bool := true): State {
    Drain(OpStep(State(c, Idle, Stop), Quiet(answers).(wait := wait)), answers)
  }

  /** The script of an undisturbed pass that starts after `wait`. */
  function Quietly(wait: nat, answers: bool := true): Script {
    (i: nat) => Slot([], if i == 0 then Quiet(answers).(wait := wait) else Quiet(answers))
  }

  lemma {:induction false} DrainIsRest(s: State, wait: nat, i: nat, answers: bool)
    requires i > 0
    ensures Rest(s, Quietly(wait, answers), i) == Drain(s, answers)
    decreases Rank(s.op)
  {
    hide OpStep, Rank;
    if s.op.At? {
      assert SlotStep(s, Quietly(wait, answers)(i)) == OpStep(s, Quiet(answers));
      SlotRank(s, Quietly(wait, answers)(i));
      DrainIsRest(OpStep(s, Quiet(answers)), wait, i + 1, answers);
    }
  }

  lemma QuietPassIsPass(c: Cluster, wait: nat, answers: bool)
    ensures QuietPass(c, wait, answers) == Pass(c, Quietly(wait, answers), 0)
  {
    hide OpStep, Drain, Rest;
    DrainIsRest(OpStep(State(c, Idle, Stop), Quiet(answers).(wait := wait)), wait, 1, answers);
  }

  // ---------------------------------------------------------------- single calls

  lemma QuietBegin(c: Cluster, wait: nat, answers: bool)
    requires c.cr.Some?
    ensures QuietPass(c, wait, answers) ==
            Drain(Begin(c.(clock := c.clock + 1 + wait), c.cr.value, Quiet(answers).(wait := wait)), answers)
  {
    hide Begin, Drain;
  }

  lemma QuietInfra(c: Cluster, p: Point, ls: LabSession, answers: bool)
    requires !WritesCr(p)
    ensures Drain(Continue(c, p, ls), answers) ==
            Drain(AfterInfra(c.(clock := c.clock + 1, infra := InfraEffect(c.infra, p, ls)), p, ls, Quiet(answers)),
                  answers)
  {
    hide AfterInfra, InfraEffect, Rank;
  }

  lemma QuietCr(c: Cluster, p: Point, ls: LabSession, answers: bool)
    requires WritesCr(p)
    ensures Drain(Continue(c, p, ls), answers) == Drain(CrEffect(c.(clock := c.clock + 1), p, ls), answers)
  {
    hide CrEffect, Rank;
  }

  // ---------------------------------------------------------------- runs of calls

  function NoCompute(f: Infra): Infra {
    f.(vmi := None, policy := false, service := false)
  }

  lemma QuietCompute(c: Cluster, g: Goal, ls: LabSession, answers: bool)
    requires g.Deletion? || g.Expiry? || g.Suspend?
    ensures Drain(Continue(c, DeleteVmi(g), ls), answers) ==
            Drain(Continue(c.(clock := c.clock + 3, infra := NoCompute(c.infra)),
                           if g.Suspend? then TakeSnapshot else DeleteDisk(g), ls), answers)
  {
    hide Drain;
    QuietInfra(c, DeleteVmi(g), ls, answers);
    var c1 := c.(clock := c.clock + 1, infra := c.infra.(vmi := None));
    QuietInfra(c1, DeletePolicy(g), ls, answers);
    var c2 := c1.(clock := c1.clock + 1, infra := c1.infra.(policy := false));
    QuietInfra(c2, DeleteService(g), ls, answers);
  }

  /** Pause, first pass: compute goes, the snapshot is taken and its name recorded. */
  lemma SuspendPass(c: Cluster, wait: nat, answers: bool)
    requires CrFits(c) && c.cr.Some?
    requires var ls := c.cr.value;
             && !ls.deleting && ls.finalizer && !PastTtl(ls, c.clock + 1 + wait)
             && ls.spec.paused && ls.status.phase != Paused && ls.status.snapshotName == ""
    ensures var n := SnapshotNameOf(c.id);
            QuietPass(c, wait, answers) == Finish(
              c.(clock := c.clock + wait + 6, infra := CreateSnapshot(NoCompute(c.infra), n),
                 cr := Some(WriteStatus(c.cr.value, c.cr.value.status.(snapshotName := n, serviceDNS := "")))),
              RequeueAfter(5 * SECOND))
  {
    hide Drain, WriteStatus, CreateSnapshot, SnapshotNameOf;
    var ls := c.cr.value;
    var n := SnapshotNameOf(c.id);
    var c0 := c.(clock := c.clock + 1 + wait);
    QuietBegin(c, wait, answers);
    QuietCompute(c0, Suspend, ls, answers);
    var c1 := c0.(clock := c0.clock + 3, infra := NoCompute(c0.infra));
    QuietInfra(c1, TakeSnapshot, ls, answers);
    var c2 := c1.(clock := c1.clock + 1, infra := CreateSnapshot(c1.infra, n));
    QuietCr(c2, PatchSnapshot(n), ls, answers);
    DrainIdle(CrEffect(c2.(clock := c2.clock + 1), PatchSnapshot(n), ls), answers);
  }

  lemma DrainIdle(s: State, answers: bool)
    requires s.op.Idle?
    ensures Drain(s, answers) == s
  {
  }

  /** Pause, second pass: the disk goes once the snapshot is ready. */
  lemma ParkPass(c: Cluster, wait: nat, answers: bool)
    requires CrFits(c) && c.cr.Some?
    requires var ls := c.cr.value;
             && !ls.deleting && ls.finalizer && !PastTtl(ls, c.clock + 1 + wait)
             && ls.spec.paused && ls.status.phase != Paused && ls.status.snapshotName != ""
             && ls.status.snapshotName in c.infra.snapshots && c.infra.snapshots[ls.status.snapshotName].ready
    ensures QuietPass(c, wait, answers) == Finish(
              c.(clock := c.clock + wait + 4, infra := c.infra.(disk := None),
                 cr := Some(WriteStatus(c.cr.value, c.cr.value.status.(phase := Paused)))), Stop)
  {
    hide Drain, WriteStatus;
    var ls := c.cr.value;
    var c0 := c.(clock := c.clock + 1 + wait);
    QuietBegin(c, wait, answers);
    QuietInfra(c0, CheckSnapshot, ls, answers);
    var c1 := c0.(clock := c0.clock + 1);
    assert InfraEffect(c0.infra, CheckSnapshot, ls) == c0.infra;
    QuietInfra(c1, DeleteDisk(Park), ls, answers);
    var c2 := c1.(clock := c1.clock + 1, infra := c1.infra.(disk := None));
    QuietCr(c2, PatchPaused, ls, answers);
    DrainIdle(CrEffect(c2.(clock := c2.clock + 1), PatchPaused, ls), answers);
  }

  lemma WaitPass(c: Cluster, wait: nat, answers: bool)
    requires c.cr.Some?
    requires var ls := c.cr.value;
             && !ls.deleting && ls.finalizer && !PastTtl(ls, c.clock + 1 + wait)
             && ls.spec.paused && ls.status.phase != Paused && ls.status.snapshotName != ""
             && !(ls.status.snapshotName in c.infra.snapshots && c.infra.snapshots[ls.status.snapshotName].ready)
    ensures QuietPass(c, wait, answers) == Finish(c.(clock := c.clock + wait + 2), RequeueAfter(5 * SECOND))
  {
    hide Drain;
    var c0 := c.(clock := c.clock + 1 + wait);
    QuietBegin(c, wait, answers);
    QuietInfra(c0, CheckSnapshot, c.cr.value, answers);
    DrainIdle(Finish(c0.(clock := c0.clock + 1), RequeueAfter(5 * SECOND)), answers);
  }

  lemma ResumePass(c: Cluster, wait: nat, answers: bool)
    requires c.cr.Some?
    requires var ls := c.cr.value;
             && !ls.deleting && ls.finalizer && !PastTtl(ls, c.clock + 1 + wait)
             && !ls.spec.paused && ls.status.phase == Paused
    ensures QuietPass(c, wait, answers) == Finish(
              c.(clock := c.clock + wait + 2,
                 cr := Some(WriteStatus(c.cr.value, c.cr.value.status.(phase := Provisioning)))), RequeueAfter(SECOND))
  {
    hide Drain, WriteStatus;
    var c0 := c.(clock := c.clock + 1 + wait);
    QuietBegin(c, wait, answers);
    QuietCr(c0, PatchResumed, c.cr.value, answers);
    DrainIdle(CrEffect(c0.(clock := c0.clock + 1), PatchResumed, c.cr.value), answers);
  }

  lemma FinalizerPass(c: Cluster, wait: nat, answers: bool)
    requires c.cr.Some? && !c.cr.value.deleting && !c.cr.value.finalizer
    ensures QuietPass(c, wait, answers) == Finish(
              c.(clock := c.clock + wait + 2,
                 cr := Some(c.cr.value.(finalizer := true, resourceVersion := c.cr.value.resourceVersion + 1))), Stop)
  {
    hide Drain;
    var c0 := c.(clock := c.clock + 1 + wait);
    QuietBegin(c, wait, answers);
    QuietCr(c0, AddFinalizer, c.cr.value, answers);
    DrainIdle(CrEffect(c0.(clock := c0.clock + 1), AddFinalizer, c.cr.value), answers);
  }

  /** A session that has come to rest is only looked at. */
  lemma SkipPass(c: Cluster, wait: nat, answers: bool)
    requires c.cr.Some?
    requires var ls := c.cr.value;
             && !ls.deleting && ls.finalizer
             && if PastTtl(ls, c.clock + 1 + wait) then ls.status.phase == Expired
                else ls.spec.paused && ls.status.phase == Paused
    ensures QuietPass(c, wait, answers) == Finish(c.(clock := c.clock + wait + 1), Stop)
  {
    hide Drain;
    QuietBegin(c, wait, answers);
    DrainIdle(Finish(c.(clock := c.clock + wait + 1), Stop), answers);
  }

  function TornDown(f: Infra, snapshotName: string): Infra {
    Infra(None, None, false, false, f.secret,
          if snapshotName != "" then f.snapshots - {snapshotName} else f.snapshots, f.left)
  }

  /** TTL: everything goes, the snapshot too, and the phase says so. */
  lemma ExpiryPass(c: Cluster, wait: nat, answers: bool)
    requires CrFits(c) && c.cr.Some?
    requires var ls := c.cr.value;
             !ls.deleting && ls.finalizer && PastTtl(ls, c.clock + 1 + wait) && ls.status.phase != Expired
    ensures var s' := QuietPass(c, wait, answers);
            && s'.op == Idle && s'.result == Stop && s'.c.clock > c.clock + wait
            && s'.c == c.(clock := s'.c.clock, torn := true, infra := TornDown(c.infra, c.cr.value.status.snapshotName),
                          cr := Some(WriteStatus(c.cr.value, c.cr.value.status.(phase := Expired, snapshotName := ""))))
  {
    hide Drain, WriteStatus;
    var ls := c.cr.value;
    var name := ls.status.snapshotName;
    var c0 := c.(clock := c.clock + 1 + wait, torn := true);
    QuietBegin(c, wait, answers);
    QuietCompute(c0, Expiry, ls, answers);
    var c1 := c0.(clock := c0.clock + 3, infra := NoCompute(c0.infra));
    QuietInfra(c1, DeleteDisk(Expiry), ls, answers);
    var c2 := c1.(clock := c1.clock + 1, infra := c1.infra.(disk := None));
    if name != "" {
      QuietInfra(c2, DeleteSnapshot(Expiry, name), ls, answers);
      var c3 := c2.(clock := c2.clock + 1, infra := c2.infra.(snapshots := c2.infra.snapshots - {name}));
      QuietCr(c3, PatchExpired, ls, answers);
      DrainIdle(CrEffect(c3.(clock := c3.clock + 1), PatchExpired, ls), answers);
    } else {
      QuietCr(c2, PatchExpired, ls, answers);
      DrainIdle(CrEffect(c2.(clock := c2.clock + 1), PatchExpired, ls), answers);
    }
  }

  // ---------------------------------------------------------------- converging

  function Ensured(f: Infra, snapshotName: string): Infra {
    CreateDisk(f, snapshotName).(vmi := if f.vmi.Some? then f.vmi else Some(Pending), service := true, policy := true,
                                 secret := true)
  }

  function Booting(f: Infra): Infra {
    f.(secret := true, vmi := if f.vmi.Some? then f.vmi else Some(Pending))
  }

  lemma QuietEnsure(c: Cluster, ls: LabSession, answers: bool)
    ensures Drain(Continue(c, EnsureDisk, ls), answers) ==
            Drain(Continue(c.(clock := c.clock + 5, infra := Ensured(c.infra, ls.status.snapshotName)), GetVmi, ls),
                  answers)
  {
    hide Drain, CreateDisk, Rank;
    var f1 := CreateDisk(c.infra, ls.status.snapshotName);
    QuietInfra(c, EnsureDisk, ls, answers);
    QuietBooting(c.(clock := c.clock + 1, infra := f1), ls, answers);
    QuietNetwork(c.(clock := c.clock + 3, infra := Booting(f1)), ls, answers);
    CreateDiskFrame(c.infra, ls.status.snapshotName);
  }

  lemma QuietBooting(c: Cluster, ls: LabSession, answers: bool)
    ensures Drain(Continue(c, EnsureSecret, ls), answers) ==
            Drain(Continue(c.(clock := c.clock + 2, infra := Booting(c.infra)), EnsureService, ls), answers)
  {
    hide Drain;
    QuietInfra(c, EnsureSecret, ls, answers);
    QuietInfra(c.(clock := c.clock + 1, infra := c.infra.(secret := true)), EnsureVmi, ls, answers);
  }

  lemma QuietNetwork(c: Cluster, ls: LabSession, answers: bool)
    ensures Drain(Continue(c, EnsureService, ls), answers) ==
            Drain(Continue(c.(clock := c.clock + 2, infra := c.infra.(service := true, policy := true)), GetVmi, ls),
                  answers)
  {
    hide Drain;
    QuietInfra(c, EnsureService, ls, answers);
    QuietInfra(c.(clock := c.clock + 1, infra := c.infra.(service := true)), EnsurePolicy, ls, answers);
  }

  lemma CreateDiskFrame(f: Infra, name: string)
    ensures CreateDisk(f, name) == f.(disk := CreateDisk(f, name).disk)
  {
  }

  lemma PatchTail(c: Cluster, res: ProviderResult, phase: Phase, answers: bool)
    requires c.cr.Some?
    requires var ls := c.cr.value;
             ls.status.phase != phase || ls.status.serviceDNS != res.serviceDNS || ls.status.message != res.message
    ensures var ls := c.cr.value;
            var after := ls.status.(phase := phase, serviceDNS := res.serviceDNS, message := res.message);
            var c' := c.(clock := c.clock + 1, cr := Some(WriteStatus(ls, after)));
            Drain(Continue(c, PatchProgress(res, phase), ls), answers) ==
            Drain(AfterProgress(c', c'.cr.value, phase, ls.status.snapshotName), answers)
  {
    hide Drain, WriteStatus, AfterProgress;
    QuietCr(c, PatchProgress(res, phase), c.cr.value, answers);
  }

  function Reported(status: Status, phase: Phase, dns: string): Status {
    status.(phase := phase, serviceDNS := dns, message := "")
  }

  /** Whatever is reported but a VM that is up: the status shows it, and the pass comes back in five seconds. */
  lemma ReportTail(c: Cluster, ls: LabSession, res: ProviderResult, k: ApiCall, answers: bool)
    requires c.cr == Some(ls) && res.phase != Running && res.phase != Ready
    ensures var s' := Drain(AfterProvider(c, ls, res, k), answers);
            var after := ls.status.(phase := res.phase, serviceDNS := res.serviceDNS, message := res.message);
            && s'.op == Idle && s'.result == RequeueAfter(5 * SECOND) && s'.c.clock >= c.clock
            && s'.c == c.(clock := s'.c.clock, cr := Some(WriteStatus(ls, after)))
  {
    hide Drain;
    var after := ls.status.(phase := res.phase, serviceDNS := res.serviceDNS, message := res.message);
    if ls.status != after {
      PatchTail(c, res, res.phase, answers);
      var c' := c.(clock := c.clock + 1, cr := Some(WriteStatus(ls, after)));
      DrainIdle(AfterProgress(c', c'.cr.value, res.phase, ls.status.snapshotName), answers);
    } else {
      DrainIdle(AfterProgress(c, ls, res.phase, ls.status.snapshotName), answers);
    }
  }

  /** A VM not up yet: the phase is Provisioning and the pass comes back in five seconds. */
  lemma PendingTail(c: Cluster, ls: LabSession, answers: bool)
    requires c.cr == Some(ls)
    ensures var s' := Drain(AfterProvider(c, ls, ProviderResult(Provisioning, "", ""), Quiet(answers)), answers);
            && s'.op == Idle && s'.result == RequeueAfter(5 * SECOND) && s'.c.clock >= c.clock
            && s'.c == c.(clock := s'.c.clock, cr := Some(WriteStatus(ls, Reported(ls.status, Provisioning, ""))))
  {
    hide Drain, AfterProvider;
    ReportTail(c, ls, ProviderResult(Provisioning, "", ""), Quiet(answers), answers);
  }

  /** A VM that is up: Ready if it answers, Running if not yet, and the snapshot it was restored from is let go. */
  lemma ServingTail(c: Cluster, ls: LabSession, dns: string, answers: bool)
    requires c.cr == Some(ls) && dns != ""
    ensures var name := ls.status.snapshotName;
            var s' := Drain(AfterProvider(c, ls, ProviderResult(Running, dns, ""), Quiet(answers)), answers);
            && s'.op == Idle && s'.c.clock >= c.clock && s'.c.cr.Some?
            && s'.c == c.(clock := s'.c.clock, cr := s'.c.cr, infra := Dropped(c.infra, name))
            && s'.c.cr.value == ls.(status := Reported(ls.status, Serve(answers), dns).(snapshotName := ""),
                                    resourceVersion := s'.c.cr.value.resourceVersion)
            && (ls.status == s'.c.cr.value.status ==> s'.c.cr == c.cr)
            && s'.result == FinishConverge(s'.c, ls, Serve(answers)).result
  {
    hide Drain, Dropped, AfterProgress;
    var res := ProviderResult(Running, dns, "");
    if ls.status.phase != Serve(answers) || ls.status.serviceDNS != dns || ls.status.message != "" {
      hide WriteStatus;
      PatchTail(c, res, Serve(answers), answers);
      var c' := c.(clock := c.clock + 1, cr := Some(WriteStatus(ls, Reported(ls.status, Serve(answers), dns))));
      WriteStatusOf(ls, Reported(ls.status, Serve(answers), dns));
      ClearTail(c', c'.cr.value, answers);
    } else {
      ClearTail(c, ls, answers);
    }
  }

  function Serve(answers: bool): Phase {
    if answers then Ready else Running
  }

  function Dropped(f: Infra, name: string): Infra {
    f.(snapshots := if name != "" then f.snapshots - {name} else f.snapshots)
  }

  lemma WriteStatusOf(ls: LabSession, status: Status)
    ensures WriteStatus(ls, status) == ls.(status := status, resourceVersion := WriteStatus(ls, status).resourceVersion)
    ensures status == ls.status ==> WriteStatus(ls, status) == ls
  {
  }

  lemma ClearTail(c: Cluster, ls: LabSession, answers: bool)
    requires c.cr == Some(ls)
    ensures var name := ls.status.snapshotName;
            var s' := Drain(AfterProgress(c, ls, Serve(answers), name), answers);
            && s'.op == Idle && s'.c.clock >= c.clock && s'.c.cr.Some?
            && s'.c == c.(clock := s'.c.clock, cr := s'.c.cr, infra := Dropped(c.infra, name))
            && s'.c.cr.value == ls.(status := ls.status.(snapshotName := ""),
                                    resourceVersion := s'.c.cr.value.resourceVersion)
            && (name == "" ==> s'.c.cr == c.cr)
            && s'.result == FinishConverge(s'.c, ls, Serve(answers)).result
  {
    hide Drain;
    var name := ls.status.snapshotName;
    var phase := Serve(answers);
    if name != "" {
      QuietInfra(c, DeleteSnapshot(Cleanup(phase), name), ls, answers);
      var c1 := c.(clock := c.clock + 1, infra := Dropped(c.infra, name));
      QuietCr(c1, PatchCleared(phase), ls, answers);
      DrainIdle(CrEffect(c1.(clock := c1.clock + 1), PatchCleared(phase), ls), answers);
    } else {
      DrainIdle(FinishConverge(c, ls, phase), answers);
    }
  }

  /** A converging pass creates whatever is missing and then reports on the VM. */
  lemma ConvergePass(c: Cluster, wait: nat, answers: bool)
    requires c.cr.Some?
    requires var ls := c.cr.value;
             && !ls.deleting && ls.finalizer && !PastTtl(ls, c.clock + 1 + wait)
             && !ls.spec.paused && ls.status.phase != Paused
    ensures var ls := c.cr.value;
            var f := Ensured(c.infra, ls.status.snapshotName);
            QuietPass(c, wait, answers) ==
            Drain(AfterProvider(c.(clock := c.clock + wait + 7, infra := f), ls,
                                ReportVmi(f.vmi, ls.spec.sessionID), Quiet(answers)), answers)
  {
    hide Drain, AfterProvider, ReportVmi, Ensured;
    var ls := c.cr.value;
    var c0 := c.(clock := c.clock + 1 + wait);
    QuietBegin(c, wait, answers);
    QuietEnsure(c0, ls, answers);
    var c1 := c0.(clock := c0.clock + 5, infra := Ensured(c0.infra, ls.status.snapshotName));
    QuietInfra(c1, GetVmi, ls, answers);
  }
}
