/** The LabSession custom resource shared by the platform server and the operator. */
module LabSessions {

  datatype Option<+T> = None | Some(value: T)

  datatype Phase = NoPhase | Provisioning | Running | Ready | Expired | Failed | Paused

  datatype StepRecord = StepRecord(step: string, completedAt: int)

  datatype Status = Status(
    phase: Phase,
    serviceDNS: string,
    message: string,
    completedSteps: seq<StepRecord>,
    snapshotName: string)

  /** Only the fields the lifecycle reads; expiresAt is in nanoseconds and 0 is Go's zero time. */
  datatype Spec = Spec(sessionID: string, expiresAt: int, paused: bool)

  datatype LabSession = LabSession(
    spec: Spec,
    status: Status,
    finalizer: bool,
    deleting: bool,
    resourceVersion: nat)

  const SECOND: int := 1_000_000_000

  /** The name a session's child objects share: "lab-" and the first eight characters of the id. */
  function ResourceName(id: string): string {
    "lab-" + (if |id| > 8 then id[..8] else id)
  }

  function SnapshotNameOf(id: string): (r: string)
    ensures r != ""
  {
    ResourceName(id) + "-snap"
  }

  function ServiceDNSOf(id: string): (r: string)
    ensures r != ""
  {
    ResourceName(id) + ".uds-lab-vms.svc.cluster.local"
  }

  /** What a merge patch computed from `before` and `after` leaves of `current`: only fields in which the two
      differ are written.  StatusPatch proves this equal to the JSON Merge Patch the processes send. */
  function FieldMerge(current: Status, before: Status, after: Status): Status {
    Status(
      if before.phase == after.phase then current.phase else after.phase,
      if before.serviceDNS == after.serviceDNS then current.serviceDNS else after.serviceDNS,
      if before.message == after.message then current.message else after.message,
      if before.completedSteps == after.completedSteps then current.completedSteps else after.completedSteps,
      if before.snapshotName == after.snapshotName then current.snapshotName else after.snapshotName)
  }
}
