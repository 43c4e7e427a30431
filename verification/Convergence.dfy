/** Left alone with a fixed spec, a session comes to rest: whatever the order and pace of passes, of the cluster's
    progress and of the VM's writes, few passes change anything, and away from rest something is always due. */
module Convergence {
  import opened LabSessions
  import opened Protocol
  import opened ProtocolSafety
  import opened DiskConservation
  import opened QuietPasses

  // ---------------------------------------------------------------- histories

  /** An undisturbed pass, with ttyd's answer should it be asked, or one move of the cluster or the VM. */
  datatype Beat = Look(wait: nat, answers: bool) | Nudge(wait: nat, move: InfraAction)

  function Beaten(c: Cluster, b: Beat): Cluster {
    match b
    case Look(wait, answers) => QuietPass(c, wait, answers).c
    case Nudge(wait, move) => EnvStep(c, Nature(wait, move))
  }

  function Play(c: Cluster, beats: seq<Beat>): Cluster
    decreases |beats|
  {
    if beats == [] then c else Play(Beaten(c, beats[0]), beats[1..])
  }

  /** No VM stops, and once ttyd has answered it goes on answering. */
  predicate Allowed(b: Beat, heard: bool) {
    if b.Look? then heard ==> b.answers else !b.move.VmStops?
  }

  function Hears(b: Beat, heard: bool): bool {
    if b.Look? then b.answers else heard
  }

  predicate Hearing(beats: seq<Beat>, heard: bool)
    decreases |beats|
  {
    beats != [] ==> Allowed(beats[0], heard) && Hearing(beats[1..], Hears(beats[0], heard))
  }

  function HeardBy(beats: seq<Beat>, heard: bool): bool
    decreases |beats|
  {
    if beats == [] then heard else HeardBy(beats[1..], Hears(beats[0], heard))
  }

  // ---------------------------------------------------------------- rest, and the way there

  /** No deletion, no VM failure, and an existing object behind every snapshot name in use. */
  predicate Hopeful(c: Cluster) {
    var n := SnapshotNameOf(c.id);
    var f := c.infra;
    && CrFits(c) && c.cr.Some? && !c.cr.value.deleting
    && (c.cr.value.status.snapshotName != "" ==> n in f.snapshots)
    && (f.disk.Some? && f.disk.value.contents.None? && f.disk.value.source.FromSnapshot? ==>
          f.disk.value.source.name == n && n in f.snapshots)
    && (f.vmi.Some? ==> f.vmi.value == Pending || f.vmi.value == Up)
    && (f.vmi == Some(Up) && !c.cr.value.spec.paused ==> f.disk.Some? && f.disk.value.contents.Some?)
    && (c.cr.value.status.phase == Expired ==> c.cr.value.finalizer && Gone(f) && Lapsed(c.cr.value, c.clock)
                                               && c.cr.value.status.snapshotName == "")
  }

  predicate Standing(f: Infra) {
    f.disk.Some? && f.vmi.Some? && f.service && f.policy && f.secret
  }

  predicate Shows(status: Status, phase: Phase, dns: string) {
    status.phase == phase && status.serviceDNS == dns && status.message == ""
  }

  predicate Serving(c: Cluster) {
    && c.cr.Some? && Shows(c.cr.value.status, Ready, ServiceDNSOf(c.id)) && c.cr.value.status.snapshotName == ""
    && Standing(c.infra) && c.infra.vmi == Some(Up) && c.infra.disk.value.contents.Some?
  }

  /** Paused, or Ready with nothing left to clean up, or Expired. */
  predicate AtRest(c: Cluster) {
    && c.cr.Some? && c.cr.value.finalizer
    && (c.cr.value.status.phase == Expired
        || (c.cr.value.spec.paused && c.cr.value.status.phase == Paused)
        || (!c.cr.value.spec.paused && Serving(c)))
  }

  /** A bound on the passes that will still change something; `heard` is whether ttyd has answered before. */
  function Remaining(c: Cluster, heard: bool): (r: nat)
    requires c.cr.Some?
    ensures r <= 6
  {
    var ls, f := c.cr.value, c.infra;
    if !ls.finalizer then 6
    else if ls.status.phase == Expired then 0
    else if ls.spec.paused then
      if ls.status.phase == Paused then 1 else if ls.status.snapshotName != "" then 2 else 3
    else if ls.status.phase == Paused then 5
    else if f.vmi != Some(Up) then if Standing(f) && Shows(ls.status, Provisioning, "") then 3 else 4
    else
      var shown := Standing(f) && ls.status.snapshotName == "" && Shows(ls.status, Serve(heard), ServiceDNSOf(c.id));
      (if shown then 1 else 2) + (if heard then 0 else 1)
  }

  predicate Same(c: Cluster, c': Cluster) {
    c'.cr == c.cr && c'.infra == c.infra
  }

  // ---------------------------------------------------------------- one pass

  /** What a pass does to the measure: it lowers it, or changes neither the CR nor any object. */
  predicate Lowers(c: Cluster, c': Cluster, heard: bool, heard': bool) {
    && Hopeful(c) && Hopeful(c') && c'.id == c.id
    && Remaining(c', heard') <= Remaining(c, heard)
    && (Remaining(c', heard') < Remaining(c, heard) || Same(c, c'))
  }

  predicate SnapshotDue(c: Cluster) {
    var n := SnapshotNameOf(c.id);
    n in c.infra.snapshots && !c.infra.snapshots[n].ready
  }

  /** Waiting for the cluster: for the snapshot to be ready, or for a VM with all its objects to come up. */
  predicate Waiting(c: Cluster) {
    && c.cr.Some? && c.cr.value.finalizer && c.cr.value.status.phase != Paused && c.cr.value.status.phase != Expired
    && if c.cr.value.spec.paused then c.cr.value.status.snapshotName != "" && SnapshotDue(c)
       else c.infra.vmi == Some(Pending) && Standing(c.infra) && Shows(c.cr.value.status, Provisioning, "")
  }

  /** The pass is about to take a branch Reconcile reserves for a live session with its finalizer on. */
  predicate Unexpired(c: Cluster, wait: nat) {
    Hopeful(c) && c.cr.value.finalizer && !PastTtl(c.cr.value, c.clock + 1 + wait)
  }

  lemma UnexpiredPhase(c: Cluster, wait: nat)
    requires Unexpired(c, wait)
    ensures c.cr.value.status.phase != Expired
  {
  }

  lemma FinalizerLowers(c: Cluster, wait: nat, answers: bool, heard: bool)
    requires Hopeful(c) && !c.cr.value.finalizer
    ensures Lowers(c, QuietPass(c, wait, answers).c, heard, answers)
  {
    hide QuietPass, SnapshotNameOf, ServiceDNSOf, Serve;
    FinalizerPass(c, wait, answers);
  }

  lemma ExpiryLowers(c: Cluster, wait: nat, answers: bool, heard: bool)
    requires Hopeful(c) && c.cr.value.finalizer && PastTtl(c.cr.value, c.clock + 1 + wait)
    ensures Lowers(c, QuietPass(c, wait, answers).c, heard, answers)
    ensures c.cr.value.status.phase != Expired ==> !Same(c, QuietPass(c, wait, answers).c)
    ensures AtRest(QuietPass(c, wait, answers).c)
  {
    hide QuietPass, SnapshotNameOf, ServiceDNSOf, Serve, Standing;
    if c.cr.value.status.phase == Expired {
      SkipPass(c, wait, answers);
    } else {
      ExpiryPass(c, wait, answers);
    }
  }

  lemma PausedLowers(c: Cluster, wait: nat, answers: bool, heard: bool)
    requires Unexpired(c, wait) && c.cr.value.spec.paused
    ensures Lowers(c, QuietPass(c, wait, answers).c, heard, answers)
    ensures !AtRest(c) && !Waiting(c) ==> !Same(c, QuietPass(c, wait, answers).c)
    ensures AtRest(c) ==> Same(c, QuietPass(c, wait, answers).c)
  {
    hide QuietPass, SnapshotNameOf, ServiceDNSOf, Serve, Standing;
    UnexpiredPhase(c, wait);
    var status := c.cr.value.status;
    if status.phase == Paused {
      SkipPass(c, wait, answers);
    } else if status.snapshotName == "" {
      SuspendPass(c, wait, answers);
    } else if c.infra.snapshots[status.snapshotName].ready {
      ParkPass(c, wait, answers);
    } else {
      WaitPass(c, wait, answers);
    }
  }

  lemma ResumeLowers(c: Cluster, wait: nat, answers: bool, heard: bool)
    requires Unexpired(c, wait) && !c.cr.value.spec.paused && c.cr.value.status.phase == Paused
    ensures Lowers(c, QuietPass(c, wait, answers).c, heard, answers) && !Same(c, QuietPass(c, wait, answers).c)
  {
    hide QuietPass, SnapshotNameOf, ServiceDNSOf, Serve;
    ResumePass(c, wait, answers);
  }

  lemma PendingLowers(c: Cluster, wait: nat, answers: bool, heard: bool)
    requires Unexpired(c, wait) && !c.cr.value.spec.paused && c.cr.value.status.phase != Paused
    requires c.infra.vmi != Some(Up)
    ensures Lowers(c, QuietPass(c, wait, answers).c, heard, answers)
    ensures !Waiting(c) ==> !Same(c, QuietPass(c, wait, answers).c)
  {
    hide QuietPass, SnapshotNameOf, ServiceDNSOf, Drain, AfterProvider, Lowers, Waiting, Remaining;
    UnexpiredPhase(c, wait);
    var ls := c.cr.value;
    ConvergePass(c, wait, answers);
    PendingTail(c.(clock := c.clock + wait + 7, infra := Ensured(c.infra, ls.status.snapshotName)), ls, answers);
    PendingHopeful(c, QuietPass(c, wait, answers).c);
    PendingStep(c, QuietPass(c, wait, answers).c, heard, answers);
  }

  /** What a pass makes of a session whose VM is not up. */
  predicate Provisioned(c: Cluster, c': Cluster) {
    && c.cr.Some?
    && var ls := c.cr.value;
       c' == c.(clock := c'.clock, infra := Ensured(c.infra, ls.status.snapshotName),
                cr := Some(WriteStatus(ls, Reported(ls.status, Provisioning, ""))))
  }

  lemma PendingHopeful(c: Cluster, c': Cluster)
    requires Hopeful(c) && Provisioned(c, c') && c.cr.value.status.phase != Expired && c.infra.vmi != Some(Up)
    ensures Hopeful(c')
  {
    hide SnapshotNameOf, Gone, Lapsed;
  }

  lemma PendingStep(c: Cluster, c': Cluster, heard: bool, answers: bool)
    requires Hopeful(c) && Hopeful(c') && Provisioned(c, c')
    requires c.cr.value.finalizer && !c.cr.value.spec.paused && c.infra.vmi != Some(Up)
    requires c.cr.value.status.phase != Paused && c.cr.value.status.phase != Expired
    ensures Lowers(c, c', heard, answers) && (!Waiting(c) ==> !Same(c, c'))
  {
    hide SnapshotNameOf, ServiceDNSOf, Serve, Gone, Lapsed, CrFits, SnapshotDue;
  }

  lemma ServingLowers(c: Cluster, wait: nat, answers: bool, heard: bool)
    requires Unexpired(c, wait) && !c.cr.value.spec.paused && c.cr.value.status.phase != Paused
    requires c.infra.vmi == Some(Up) && (heard ==> answers)
    ensures Lowers(c, QuietPass(c, wait, answers).c, heard, answers)
    ensures var c' := QuietPass(c, wait, answers).c; answers ==> Serving(c') && (Same(c, c') <==> Serving(c))
  {
    hide QuietPass, SnapshotNameOf, ServiceDNSOf, Drain, AfterProvider;
    UnexpiredPhase(c, wait);
    var ls := c.cr.value;
    ConvergePass(c, wait, answers);
    ServingTail(c.(clock := c.clock + wait + 7, infra := Ensured(c.infra, ls.status.snapshotName)), ls,
                ServiceDNSOf(c.id), answers);
  }

  /** Every undisturbed pass changes neither the CR nor an object, or lowers the measure; an answering pass changes
      something unless the session is at rest or waits for the cluster. */
  lemma LookLowers(c: Cluster, wait: nat, answers: bool, heard: bool)
    requires Hopeful(c) && (heard ==> answers)
    ensures Lowers(c, QuietPass(c, wait, answers).c, heard, answers)
    ensures answers && Same(c, QuietPass(c, wait, answers).c) ==> AtRest(c) || Waiting(c)
  {
    hide QuietPass, Lowers, SnapshotNameOf, ServiceDNSOf, Serving;
    var ls := c.cr.value;
    if !ls.finalizer {
      FinalizerLowers(c, wait, answers, heard);
      FinalizerPass(c, wait, answers);
    } else if PastTtl(ls, c.clock + 1 + wait) {
      ExpiryLowers(c, wait, answers, heard);
    } else if ls.spec.paused {
      PausedLowers(c, wait, answers, heard);
    } else if ls.status.phase == Paused {
      ResumeLowers(c, wait, answers, heard);
    } else if c.infra.vmi != Some(Up) {
      PendingLowers(c, wait, answers, heard);
    } else {
      ServingLowers(c, wait, answers, heard);
    }
  }

  // ---------------------------------------------------------------- one move of the cluster

  /** No move of the cluster or of a running VM raises the measure. */
  lemma NudgeLowers(c: Cluster, wait: nat, a: InfraAction, heard: bool)
    requires Hopeful(c) && !a.VmStops?
    ensures var c' := EnvStep(c, Nature(wait, a));
            && Hopeful(c') && c'.cr == c.cr && c'.id == c.id && Remaining(c', heard) <= Remaining(c, heard)
            && (AtRest(c) ==> AtRest(c'))
  {
    hide SnapshotNameOf, ServiceDNSOf;
  }

  lemma BeatLowers(c: Cluster, b: Beat, heard: bool)
    requires Hopeful(c) && Allowed(b, heard)
    ensures var c' := Beaten(c, b);
            && Hopeful(c') && c'.id == c.id && Remaining(c', Hears(b, heard)) <= Remaining(c, heard)
            && (b.Look? && !Same(c, c') ==> Remaining(c', b.answers) < Remaining(c, heard))
  {
    hide Hopeful, Remaining, QuietPass, EnvStep;
    match b
    case Look(wait, answers) => LookLowers(c, wait, answers, heard);
    case Nudge(wait, move) => NudgeLowers(c, wait, move, heard);
  }

  // ---------------------------------------------------------------- few passes change anything

  /** How many passes of a history change the CR or an object. */
  function Changes(c: Cluster, beats: seq<Beat>): nat
    decreases |beats|
  {
    if beats == [] then 0
    else (if beats[0].Look? && !Same(c, Beaten(c, beats[0])) then 1 else 0) + Changes(Beaten(c, beats[0]), beats[1..])
  }

  /** However passes, progress and writes follow one another, at most six passes change the CR or an object. */
  lemma {:induction false} FewChanges(c: Cluster, beats: seq<Beat>, heard: bool)
    requires Hopeful(c) && Hearing(beats, heard)
    ensures Hopeful(Play(c, beats)) && Play(c, beats).id == c.id
    ensures Changes(c, beats) + Remaining(Play(c, beats), HeardBy(beats, heard)) <= Remaining(c, heard) <= 6
    decreases |beats|
  {
    hide Hopeful, Remaining, Beaten, Same, Allowed;
    if beats != [] {
      BeatLowers(c, beats[0], heard);
      FewChanges(Beaten(c, beats[0]), beats[1..], Hears(beats[0], heard));
    }
  }

  // ---------------------------------------------------------------- something is always due

  predicate DiskDue(c: Cluster) {
    && c.infra.disk.Some? && c.infra.disk.value.contents.None?
    && (c.infra.disk.value.source.FromSnapshot? ==> !SnapshotDue(c))
  }

  /** Away from rest the next answering pass, the session's snapshot, its disk or its VM changes something. */
  lemma SomethingDue(c: Cluster, wait: nat)
    requires Hopeful(c) && !AtRest(c)
    ensures || !Same(c, QuietPass(c, wait, true).c)
            || InfraStep(c.infra, SnapshotTurnsReady(SnapshotNameOf(c.id))) != c.infra
            || InfraStep(c.infra, DiskPopulates) != c.infra
            || InfraStep(c.infra, VmBoots) != c.infra
  {
    hide QuietPass, SnapshotNameOf, ServiceDNSOf, Lowers;
    LookLowers(c, wait, true, false);
    WaitingIsDue(c);
    var n := SnapshotNameOf(c.id);
    if SnapshotDue(c) {
      assert InfraStep(c.infra, SnapshotTurnsReady(n)).snapshots[n].ready;
    }
  }

  lemma WaitingIsDue(c: Cluster)
    requires Hopeful(c)
    ensures Waiting(c) ==> SnapshotDue(c) || DiskDue(c) || CanBoot(c.infra)
    ensures DiskDue(c) ==> InfraStep(c.infra, DiskPopulates).disk != c.infra.disk
  {
  }

  // ---------------------------------------------------------------- at rest

  /** A further pass leaves a session at rest as it is, until its TTL strikes; one that ttyd does not answer only
      takes Ready back to Running. */
  lemma RestIsStable(c: Cluster, wait: nat, answers: bool)
    requires Hopeful(c) && AtRest(c)
    requires PastTtl(c.cr.value, c.clock + 1 + wait) ==> c.cr.value.status.phase == Expired
    ensures var c', ls := QuietPass(c, wait, answers).c, c.cr.value;
            && c'.infra == c.infra && c'.torn == c.torn && c'.cr.Some?
            && (answers || ls.status.phase != Ready || ls.spec.paused ==> c'.cr == c.cr)
            && c'.cr.value.status == (if answers || ls.spec.paused || ls.status.phase != Ready then ls.status
                                      else ls.status.(phase := Running))
  {
    hide Drain, AfterProvider, SnapshotNameOf, ServiceDNSOf, QuietPass;
    var ls := c.cr.value;
    if PastTtl(ls, c.clock + 1 + wait) || ls.spec.paused {
      SkipPass(c, wait, answers);
    } else {
      ConvergePass(c, wait, answers);
      ServingTail(c.(clock := c.clock + wait + 7, infra := Ensured(c.infra, "")), ls, ServiceDNSOf(c.id), answers);
    }
  }

  /** Any reachable session before its teardown is hopeful, if no VM failed and its snapshot has not been lost. */
  lemma ReachableIsHopeful(s: State, moves: seq<Move>)
    requires Init(s) && Guarded(s, moves)
    requires var c := Run(s, moves).c; Intact(c)
    ensures Hopeful(Run(s, moves).c)
  {
    InitKept(s);
    GuardedRunKeeps(s, moves);
    InitLapsing(s);
    RunKeepsLapsing(s, moves);
    LiveIsHopeful(Run(s, moves));
  }

  /** No teardown has begun, no VM has failed, and the session's snapshot exists where it is relied on. */
  predicate Intact(c: Cluster) {
    && !c.torn && c.cr.Some? && !c.cr.value.deleting
    && c.infra.vmi != Some(Crashed) && c.infra.vmi != Some(Finished)
    && (c.cr.value.status.snapshotName != "" ==> SnapshotNameOf(c.id) in c.infra.snapshots)
    && (c.infra.disk.Some? && c.infra.disk.value.contents.None? && c.infra.disk.value.source.FromSnapshot? ==>
          SnapshotNameOf(c.id) in c.infra.snapshots)
  }

  lemma LiveIsHopeful(s: State)
    requires Kept(s) && Lapsing(s) && Intact(s.c)
    ensures Hopeful(s.c)
  {
    hide PointFits, Progress, SnapshotHolds, FreshSnapshot, Pausing, Enabling, SawVmUp, Tearing;
  }
}
