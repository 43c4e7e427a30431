/** What a whole undisturbed pass makes of a session, said of the resource and the objects alone. */
module Outcomes {
  import opened LabSessions
  import opened Protocol
  import opened ProtocolSafety
  import opened Passes
  import opened QuietPasses

  // ---------------------------------------------------------------- converging

  /** A session for a pass starting at an instant to converge. */
  predicate ToConverge(c: Cluster, start: int) {
    && CrFits(c) && c.cr.Some?
    && var ls := c.cr.value;
       && !ls.deleting && ls.finalizer && !ls.spec.paused && ls.status.phase != Paused
       && (ls.spec.expiresAt == 0 || start <= ls.spec.expiresAt)
  }

  predicate Down(vmi: Option<VmPhase>) {
    vmi == Some(Crashed) || vmi == Some(Finished)
  }

  lemma DownOutcome(c: Cluster, wait: nat, answers: bool)
    requires ToConverge(c, c.clock + 1 + wait) && Down(c.infra.vmi)
    ensures var s', ls := QuietPass(c, wait, answers), c.cr.value;
            && s'.c.cr.Some? && s'.result == RequeueAfter(5_000_000_000)
            && s'.c.cr.value.status == ls.status.(
                 phase := Failed, serviceDNS := "",
                 message := if c.infra.vmi == Some(Crashed) then "vmi phase Failed" else "vmi phase Succeeded")
  {
    hide QuietPass, Drain, AfterProvider, SnapshotNameOf, ServiceDNSOf;
    var ls := c.cr.value;
    var f := Ensured(c.infra, ls.status.snapshotName);
    ConvergePass(c, wait, answers);
    ReportTail(c.(clock := c.clock + wait + 7, infra := f), ls, ReportVmi(f.vmi, ls.spec.sessionID), Quiet(answers),
               answers);
  }

  lemma PendingOutcome(c: Cluster, wait: nat, answers: bool)
    requires ToConverge(c, c.clock + 1 + wait) && !Down(c.infra.vmi) && c.infra.vmi != Some(Up)
    ensures var s', ls := QuietPass(c, wait, answers), c.cr.value;
            && s'.c.cr.Some? && s'.result == RequeueAfter(5_000_000_000)
            && s'.c.cr.value.status == ls.status.(phase := Provisioning, serviceDNS := "", message := "")
  {
    hide QuietPass, Drain, AfterProvider, SnapshotNameOf, ServiceDNSOf;
    var ls := c.cr.value;
    var f := Ensured(c.infra, ls.status.snapshotName);
    ConvergePass(c, wait, answers);
    ReportTail(c.(clock := c.clock + wait + 7, infra := f), ls, ReportVmi(f.vmi, ls.spec.sessionID), Quiet(answers),
               answers);
  }

  /** The name the server reaches the session's terminal under. */
  lemma ServiceName(id: string)
    ensures ServiceDNSOf(id) == "lab-" + (if |id| <= 8 then id else id[..8]) + ".uds-lab-vms.svc.cluster.local"
    ensures SnapshotNameOf(id) == "lab-" + (if |id| <= 8 then id else id[..8]) + "-snap"
  {
  }

  lemma UpOutcome(c: Cluster, wait: nat, answers: bool)
    requires ToConverge(c, c.clock + 1 + wait) && c.infra.vmi == Some(Up)
    ensures var s', ls, id := QuietPass(c, wait, answers), c.cr.value, c.id;
            var expiry := ls.spec.expiresAt;
            && s'.c.cr.Some?
            && s'.c.cr.value.status == ls.status.(
                 phase := if answers then Ready else Running, message := "", snapshotName := "",
                 serviceDNS := "lab-" + (if |id| <= 8 then id else id[..8]) + ".uds-lab-vms.svc.cluster.local")
            && s'.result == RequeueAfter(
                 if !answers then 5_000_000_000
                 else if expiry == 0 then 60_000_000_000
                 else if expiry - s'.c.clock < 1_000_000_000 then 1_000_000_000
                 else expiry - s'.c.clock)
  {
    hide QuietPass, Drain, AfterProvider, SnapshotNameOf, ServiceDNSOf;
    var ls := c.cr.value;
    var f := Ensured(c.infra, ls.status.snapshotName);
    ServiceName(c.id);
    ConvergePass(c, wait, answers);
    ServingTail(c.(clock := c.clock + wait + 7, infra := f), ls, ServiceDNSOf(c.id), answers);
  }

  /** After an undisturbed converging pass the status says what became of the VM: Failed, and how, exactly when it
      has failed or finished; Provisioning exactly when it is not up yet; else Ready or Running by ttyd's answer. */
  lemma ConvergeOutcome(c: Cluster, wait: nat, answers: bool)
    requires ToConverge(c, c.clock + 1 + wait)
    ensures var s', vmi := QuietPass(c, wait, answers), c.infra.vmi;
            && s'.c.cr.Some?
            && var status := s'.c.cr.value.status;
               && (status.phase == Failed <==> vmi == Some(Crashed) || vmi == Some(Finished))
               && (status.phase == Provisioning <==> vmi == None || vmi == Some(Pending))
               && (status.phase == Running <==> vmi == Some(Up) && !answers)
               && (status.phase == Ready <==> vmi == Some(Up) && answers)
               && (vmi == Some(Crashed) ==> status.serviceDNS == "" && status.message == "vmi phase Failed")
               && (vmi == Some(Finished) ==> status.serviceDNS == "" && status.message == "vmi phase Succeeded")
               && (vmi == None || vmi == Some(Pending) ==> status.serviceDNS == "" && status.message == "")
               && status.phase in {Failed, Provisioning, Running, Ready}
               && status.completedSteps == c.cr.value.status.completedSteps
  {
    hide QuietPass, CrFits;
    if Down(c.infra.vmi) {
      DownOutcome(c, wait, answers);
    } else if c.infra.vmi == Some(Up) {
      UpOutcome(c, wait, answers);
    } else {
      assert c.infra.vmi.Some? ==> c.infra.vmi.value.Pending?;
      PendingOutcome(c, wait, answers);
    }
  }

  /** A pass whose configuration cannot be rendered says so in the status and touches no object. */
  lemma ConfigOutcome(c: Cluster, wait: nat, message: string, answers: bool)
    requires ToConverge(c, c.clock + 1 + wait)
    ensures var s' := Drain(OpStep(State(c, Idle, Stop), ApiCall(wait, Done, Some(message), answers)), answers);
            && s'.op.Idle? && s'.result == RequeueAfter(5_000_000_000) && s'.c.infra == c.infra && s'.c.cr.Some?
            && s'.c.cr.value.status ==
               c.cr.value.status.(phase := Failed, serviceDNS := "", message := message)
  {
    hide Drain, AfterProvider, CrFits;
    var k := ApiCall(wait, Done, Some(message), answers);
    ReportTail(c.(clock := c.clock + 1 + wait), c.cr.value, ProviderResult(Failed, "", message), k, answers);
  }

  // ---------------------------------------------------------------- deletion

  /** A pass over a deleted session leaves neither it nor anything of its own. */
  lemma DeletionPass(c: Cluster, wait: nat, answers: bool)
    requires c.cr.Some? && c.cr.value.deleting && c.cr.value.finalizer
    ensures var s', name := QuietPass(c, wait, answers), c.cr.value.status.snapshotName;
            && s'.op == Idle && s'.result == Stop && s'.c.cr == None
            && s'.c.infra == TornDown(c.infra, name)
  {
    hide Drain;
    var ls := c.cr.value;
    var name := ls.status.snapshotName;
    var c0 := c.(clock := c.clock + 1 + wait, torn := true);
    QuietBegin(c, wait, answers);
    QuietCompute(c0, Deletion, ls, answers);
    var c1 := c0.(clock := c0.clock + 3, infra := NoCompute(c0.infra));
    QuietInfra(c1, DeleteDisk(Deletion), ls, answers);
    var c2 := c1.(clock := c1.clock + 1, infra := c1.infra.(disk := None));
    if name != "" {
      QuietInfra(c2, DeleteSnapshot(Deletion, name), ls, answers);
      c2 := c2.(clock := c2.clock + 1, infra := c2.infra.(snapshots := c2.infra.snapshots - {name}));
    }
    QuietCr(c2, DropFinalizer, ls, answers);
    DrainIdle(CrEffect(c2.(clock := c2.clock + 1), DropFinalizer, ls), answers);
  }

  /** Delete removes a session the operator has not taken up; any other one goes with the next pass, and takes its
      disk, VM, service, policy and recorded snapshot with it. */
  lemma DeleteOutcome(c: Cluster, lag: nat, wait: nat, answers: bool)
    requires CrFits(c) && c.cr.Some?
    ensures var c1 := EnvStep(c, Server(lag, Delete));
            if !c.cr.value.finalizer then c1.cr == None && c1.infra == c.infra
            else
              var c2, name := QuietPass(c1, wait, answers).c, c.cr.value.status.snapshotName;
              && c2.cr == None && c2.infra.disk == None && c2.infra.vmi == None
              && !c2.infra.service && !c2.infra.policy && (name != "" ==> name !in c2.infra.snapshots)
              && forall other :: other in c.infra.snapshots && (name == "" || other != name) ==>
                   other in c2.infra.snapshots && c2.infra.snapshots[other] == c.infra.snapshots[other]
  {
    hide QuietPass;
    var c1 := EnvStep(c, Server(lag, Delete));
    if c.cr.value.finalizer {
      DeletionPass(c1, wait, answers);
    }
  }

  // ---------------------------------------------------------------- expiry

  /** A pass writes Expired exactly when it starts after a deadline that is set. */
  lemma ExpiresIff(c: Cluster, wait: nat, answers: bool)
    requires CrFits(c) && c.cr.Some? && !c.cr.value.deleting && c.cr.value.finalizer
    requires c.cr.value.status.phase != Expired
    ensures var c', expiry := QuietPass(c, wait, answers).c, c.cr.value.spec.expiresAt;
            && c'.cr.Some?
            && (c'.cr.value.status.phase == Expired <==> expiry != 0 && c.clock + 1 + wait > expiry)
            && (c'.torn && !c.torn ==> expiry != 0 && c.clock + 1 + wait > expiry)
  {
    hide QuietPass, SnapshotNameOf, ServiceDNSOf, AfterProvider;
    var ls := c.cr.value;
    if PastTtl(ls, c.clock + 1 + wait) {
      ExpiryPass(c, wait, answers);
    } else if ls.spec.paused {
      PausedNeverExpires(c, wait, answers);
    } else if ls.status.phase == Paused {
      ResumePass(c, wait, answers);
    } else {
      ConvergeOutcome(c, wait, answers);
      ConvergeKeepsTorn(c, wait, answers);
    }
  }

  lemma PausedNeverExpires(c: Cluster, wait: nat, answers: bool)
    requires CrFits(c) && c.cr.Some? && !c.cr.value.deleting && c.cr.value.finalizer && c.cr.value.spec.paused
    requires c.cr.value.status.phase != Expired && !PastTtl(c.cr.value, c.clock + 1 + wait)
    ensures var c' := QuietPass(c, wait, answers).c;
            c'.cr.Some? && c'.cr.value.status.phase != Expired && c'.torn == c.torn
  {
    hide QuietPass, SnapshotNameOf;
    var status := c.cr.value.status;
    if status.phase == Paused {
      SkipPass(c, wait, answers);
    } else if status.snapshotName == "" {
      SuspendPass(c, wait, answers);
    } else if status.snapshotName in c.infra.snapshots && c.infra.snapshots[status.snapshotName].ready {
      ParkPass(c, wait, answers);
    } else {
      WaitPass(c, wait, answers);
    }
  }

  lemma ConvergeKeepsTorn(c: Cluster, wait: nat, answers: bool)
    requires ToConverge(c, c.clock + 1 + wait)
    ensures QuietPass(c, wait, answers).c.torn == c.torn
  {
    hide QuietPass, Drain, AfterProvider, SnapshotNameOf, ServiceDNSOf;
    var ls := c.cr.value;
    var f := Ensured(c.infra, ls.status.snapshotName);
    ConvergePass(c, wait, answers);
    if f.vmi == Some(Up) {
      ServingTail(c.(clock := c.clock + wait + 7, infra := f), ls, ServiceDNSOf(c.id), answers);
    } else {
      ReportTail(c.(clock := c.clock + wait + 7, infra := f), ls, ReportVmi(f.vmi, ls.spec.sessionID),
                 Quiet(answers), answers);
    }
  }

  // ---------------------------------------------------------------- failed calls

  /** A call that fails ends the pass: in an error, or, for the readiness check and for the clean-up of a resumed
      session's snapshot, in a retry five seconds later. */
  lemma FailureOutcome(s: State, k: ApiCall)
    requires s.op.At? && k.outcome != Done
    ensures var s', p := OpStep(s, k), s.op.point;
            && s'.op == Idle
            && s'.result == (if p.CheckSnapshot? || (p.DeleteSnapshot? && p.goal.Cleanup?)
                             then RequeueAfter(5_000_000_000) else Error)
            && (k.outcome == Refused ==> s'.c == s.c.(clock := s'.c.clock))
  {
    hide Perform;
  }
}
