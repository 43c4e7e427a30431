# LabSession platform: lifecycle, merge patches, and the self-contained algorithms

A Dafny model of the lab platform's central logic, with proofs about all runs or all inputs.

**The LabSession lifecycle.** A platform server and an operator share one custom resource. The server creates sessions,
sets the paused flag, moves the deadline, deletes, and records completed steps; the operator adds a finalizer, builds a
disk, a VMI, a service and a network policy, pauses in two phases over a volume snapshot, resumes from it, and tears
down. `Protocol` cuts the operator's pass at its API calls: between two calls the server, the cluster and the VM may act,
and each call may succeed, be refused, or take effect and still report an error. `Reconciler` has the operator's own code
as methods over an API server object and proves that a pass ends exactly as the protocol's pass does; `Manager` does the
same for the server's calls, over objects with slices that may share arrays. `ProtocolSafety`, `PauseSafety`,
`DiskConservation`, `PauseGuard`, `Convergence`, `Settling`, `PauseCycle`, `Ttl` and `StepHistory` are about runs and
passes.
`MergePatch`, `StatusPatch` and `TokenPatch` are JSON Merge Patch (RFC 7386) and what travels in it, with `omitempty`.

**Self-contained algorithms.** Session admission and the token ConfigMap as runs of unsynchronised calls; the demo-token
codec with its base64url (RFC 4648); the dashboard's grouping and timeline; the injector's WebSocket frame (RFC 6455);
and the bundled editor's text document, edit application, JSON scanner (against RFC 8259) and line tokenizer.

| modules | of |
|---|---|
| `LabSessions`, `Protocol`, `Passes`, `QuietPasses`, `Outcomes` | the resource, the transition system, whole passes, undisturbed passes and what they make of a session |
| `ProtocolSafety`, `PauseSafety`, `DiskConservation`, `PauseGuard`, `Convergence`, `Settling`, `PauseCycle`, `Ttl`, `StepHistory`, `Recovery` | what all runs keep, and where they lead |
| `Reconciler`, `Manager` | the operator's and the server's code |
| `MergePatch`, `StatusPatch`, `TokenPatch` | the patches |
| `Admission`, `TokenStore`, `DemoToken`, `Base64Url`, `Dashboard`, `WebSocketFrames` | the server's and the injector's algorithms |
| `TextDocuments`, `TextEdits`, `JsonLexemes`, `JsonGrammar`, `JsonScanners`, `JsonTokenizers` | the editor's algorithms |

`dafny verify dfyconfig.toml` checks all of it. Proofs hide definitions they do not need with `hide`.

## What the environment is assumed to do

- A VolumeSnapshot holds the disk as it was when the snapshot was created; it turns ready later.
- A VMI starts only when its disk has been populated from its source; it can fail before or after that.
- The clock strictly advances from step to step, and both processes read the same clock.
- An object is gone when its deletion is accepted, and reads see the latest write; nobody else deletes a session's objects.
- Passes for one session never overlap.

## Where the code and its comments part

- "TOCTOU-safe via LIST then CREATE" (internal/session/manager.go:42-44): it is not, see `Admission.OverlapAdmitsTwo`;
  `Admission.SingleIff` and `Admission.ListSafeIff` have exactly when it is.
- "Appends a StepRecord" (internal/session/manager.go:112-114): the patch replaces the whole list; `StepHistory.GrowsIff`
  has exactly when that only appends.
- "Spec/Status contain only value types" (api/v1alpha1/zz_generated.deepcopy.go:1-4): the status has a slice, which the
  code does copy, see `Manager.Object.DeepCopy`.
- "Owned entirely by the operator" (api/v1alpha1/labsession_types.go:56): the server writes the status's completed steps;
  what is true is ownership field by field, `StepHistory.OperatorKeepsSteps` and `StepHistory.ServerKeepsLifecycle`.
- "The operator deletes the session once now > ExpiresAt" (api/v1alpha1/labsession_types.go:49-51): it tears the session
  down and keeps the CR, see `QuietPasses.ExpiryPass` and `Outcomes.ExpiresIff`.
- A pause while a snapshot object of the session's name still exists skips the teardown of compute or adopts the old
  snapshot, and loses later writes; `PauseGuard.PauseSafeIff` has the exact condition.
- "Resume from snapshot — restores exact disk state" (internal/provider/kubevirt/provider.go:312): true under that
  condition, `DiskConservation.DiskConserved`.
- "One active session per client" (internal/session/manager.go:42) takes Failed to be final. It is not
  (`Recovery.FailsThenRecovers`), so even without overlap a client can have two (`Admission.RecoveryLeavesTwo`);
  `Admission.ActiveIff` has exactly when one is kept.
- A clean-up that deletes the snapshot but cannot record it leaves the snapshot's name behind; a pause that lands then
  waits for a snapshot that is not there until the deadline or a resume (`PauseCycle.LostCleanupStalls`,
  `PauseCycle.PauseStalls`). Nothing is lost, the disk is kept.
- The scanner's comment text starts one character before the comment, and its line count passes over a line that ends
  inside a string literal, its break escaped, though not over the CR of a CR LF; both are kept (`JsonLexemes.Comment`,
  `JsonScanners.PlacedRightIff`).

## Model

| member | source | states |
|---|---|---|
| `Reconciler.Reconcile` | internal/controller/labsession_controller.go:50-208 | A pass, call for call and with any other client acting between its calls, ends in exactly the cluster and result of the protocol's pass, so every invariant below holds of the code |
| `Reconciler.Act` | internal/controller/labsession_controller.go:58-156 | Each branch taken on the object just read is the protocol's branch for it |
| `Reconciler.DeleteSession` | internal/controller/labsession_controller.go:58-70 | Deletion: full teardown, then the finalizer goes; an error anywhere leaves it in place |
| `Reconciler.UpdateFinalizer` | internal/controller/labsession_controller.go:72-83 | The finalizer is added or removed only on the resource version that was read |
| `Reconciler.ExpireSession` | internal/controller/labsession_controller.go:85-103 | Expiry: full teardown, then phase Expired with the snapshot name cleared, the CR kept |
| `Reconciler.SuspendSession` | internal/controller/labsession_controller.go:107-124 | Pause, phase 1: compute goes, a snapshot is created, its name is recorded last |
| `Reconciler.ParkSession` | internal/controller/labsession_controller.go:125-138 | Pause, phase 2: the disk goes only on a ready snapshot; a failed check is retried, not an error |
| `Reconciler.ResumeSession` | internal/controller/labsession_controller.go:141-149 | Resume only moves the phase; the recorded snapshot stays for the next pass |
| `Reconciler.Converge` | internal/controller/labsession_controller.go:156-208 | Convergence: phase reported by the provider, Ready only when ttyd answers, status written only when it changed |
| `Reconciler.FinishProgress` | internal/controller/labsession_controller.go:168-207 | A snapshot is deleted only after the VM was seen running, its name cleared only after that, and a failed deletion is retried |
| `Reconciler.Patch` | internal/controller/labsession_controller.go:210-218 | patchStatus writes only what the mutation changed, onto whatever the server holds by then |
| `Reconciler.TeardownCompute` | internal/provider/kubevirt/provider.go:175-190 | VMI, NetworkPolicy, Service in that order, absence tolerated, stopping at the first other error |
| `Reconciler.TeardownDisk` | internal/provider/kubevirt/provider.go:192-200 | The disk, absence tolerated |
| `Reconciler.Teardown` | internal/provider/kubevirt/provider.go:202-220 | Compute, disk, then any recorded snapshot |
| `Reconciler.Snapshot` | internal/provider/kubevirt/provider.go:222-242 | The snapshot of the session's name, an existing one tolerated |
| `Reconciler.SnapshotReady` | internal/provider/kubevirt/provider.go:244-251 | True only for an existing snapshot that reports itself ready |
| `Reconciler.DeleteSnapshotNamed` | internal/provider/kubevirt/provider.go:253-263 | The named snapshot, absence tolerated |
| `Reconciler.ProviderReconcile` | internal/provider/kubevirt/provider.go:113-173 | Disk, secret, VMI, service, policy in order, then the VMI's phase; an error at any of them ends the pass |
| `Reconciler.Ensure` | internal/provider/kubevirt/provider.go:295-355 | One create-or-update: an existing object keeps its spec, so an existing disk keeps its source |
| `Reconciler.ReadVmi` | internal/provider/kubevirt/provider.go:155-173 | Whatever happened before the read: Running exactly for a running VMI, with the service name; Failed exactly for a failed or succeeded one, with its phase in the message; anything else or absence is Provisioning with neither |
| `Reconciler.Api.Update` | internal/controller/labsession_controller.go:72-77 | A whole-object write is refused when the server's copy has moved on |
| `Reconciler.Api.Patch` | internal/controller/labsession_controller.go:214-218 | A patch lands whatever was written since the read |
| `Passes.PassIsRun` | internal/controller/labsession_controller.go:50-208 | A whole pass is a run of single API calls, so what holds of all runs holds after it |
| `Passes.OpRank` | internal/controller/labsession_controller.go:50-208 | Every call takes a pass nearer its end: no pass goes on for ever |
| `ProtocolSafety.FinalizerSafety` | internal/controller/labsession_controller.go:58-83 | In every run from a fresh session, while a VMI, disk, service or policy exists the CR exists with its finalizer, even when Delete lands in the middle of a converging pass |
| `ProtocolSafety.RunKeepsProtected` | internal/provider/kubevirt/provider.go:175-220 | The same from any protected state, with how far each teardown has got at every point of a pass |
| `ProtocolSafety.RunKeepsExpired` | internal/controller/labsession_controller.go:85-103 | Once Expired is written no run of Pause, Resume, Expire, step and pass changes the phase or recreates anything |
| `ProtocolSafety.RunKeepsLapsing` | internal/controller/labsession_controller.go:89-103 | No pass or server call brings an expired session's deadline, phase or objects back |
| `ProtocolSafety.RunKeepsNothing` | internal/controller/labsession_controller.go:54-56 | After the CR has gone nothing of the session appears again |
| `ProtocolSafety.OpFrame` | internal/controller/labsession_controller.go:210-218 | No call of the operator's touches completed steps or another process's calls under way |
| `ProtocolSafety.ServerKeepsFrame` | internal/session/manager.go:115-223 | No server call touches a lifecycle field or the finalizer, and each write moves the resource version |
| `PauseSafety.RunKeepsSealed` | internal/controller/labsession_controller.go:107-154 | In every run, whoever pauses and when: Paused with no teardown begun means no disk and a recorded, ready snapshot |
| `PauseSafety.DiskDropNeedsSnapshot` | internal/controller/labsession_controller.go:125-138 | Outside a TTL or deletion teardown a disk disappears only once the recorded snapshot is ready |
| `DiskConservation.DiskConserved` | internal/controller/labsession_controller.go:105-198 | In every run with failures at any call in which a pause is issued only where no snapshot of the session's name exists, or the one that does already holds what the VM left with no VM able to write and no pass about to set one up, what the VM wrote last is on the disk or in a ready recorded snapshot until a teardown, and a VM about to boot finds exactly that |
| `DiskConservation.GuardedRunKeeps` | internal/provider/kubevirt/provider.go:175-263 | The inductive invariant behind it, kept by every guarded run |
| `DiskConservation.PassKeepsDisk` | internal/controller/labsession_controller.go:50-208 | The same for one pass of the code |
| `PauseGuard.PauseSafeIff` | internal/controller/labsession_controller.go:107-126 | At any point of a pass or between two, in whatever phase and with or without a VM: pausing is safe whatever follows if and only if no snapshot object of the session's name exists, or the one that does already holds what the VM left, no VM is up or can still come up, and the pass under way is not about to set one up |
| `PauseGuard.PauseLoses` | internal/provider/kubevirt/provider.go:238-241 | Otherwise a run without further pauses, in which the pass under way sets the VM up if it is about to, the VM comes up if it has yet to and writes, loses what it left, the resume window included |
| `Settling.Converges` | internal/controller/labsession_controller.go:105-208 | Any run with seventy-six sweeps, each holding, in any order and among anything else, enough successful calls in a row for a pass and a chance for snapshot, disk and VM, with the cluster and the VM moving between any two calls and calls failing elsewhere, ends at Paused, at Ready without a snapshot, or at Expired: at Expired if the deadline had passed, else at rest unless it passes on the way |
| `Settling.FewEffects` | internal/controller/labsession_controller.go:50-208 | However calls, their failures, the cluster's progress and the VM's writes follow one another, with ttyd answering from some call on or never, at most eighteen calls change the CR or an object |
| `Settling.OpSettles` | internal/controller/labsession_controller.go:50-208 | The measure behind it, on the cluster and the point of the pass: a call that succeeds, fails or loses its answer lowers it or changes nothing |
| `Settling.NatureSettles` | internal/provider/kubevirt/provider.go:155-173 | No move of the cluster or of a running VM, between any two calls, raises it |
| `Settling.DueAwayFromRest` | internal/controller/labsession_controller.go:105-208 | Away from rest, or past the deadline and not expired, a call is due, or the snapshot, the disk or the VM is |
| `Settling.SweepWorks` | internal/controller/labsession_controller.go:105-208 | Each sweep over a session away from rest leaves less to do |
| `Settling.RunReaches` | internal/controller/labsession_controller.go:85-207 | Once ttyd has answered, a session at rest stays at rest at every call until its deadline passes, and an expired one stays expired |
| `Settling.ReachableIsSteady` | internal/controller/labsession_controller.go:105-208 | Every guarded run that has kept its snapshot, lost no VM and ends between two passes ends where convergence applies |
| `Convergence.FewChanges` | internal/controller/labsession_controller.go:50-208 | When passes are not disturbed while they run, at most six of them change the CR or an object, however they, the progress of the cluster and the VM's writes follow one another |
| `Convergence.LookLowers` | internal/controller/labsession_controller.go:50-208 | The measure: each such pass lowers it or changes nothing, and an answering pass changes something unless the session is at rest or waits for the cluster |
| `Convergence.NudgeLowers` | internal/provider/kubevirt/provider.go:155-173 | No move of the cluster or of a running VM raises it |
| `Convergence.SomethingDue` | internal/controller/labsession_controller.go:105-208 | Away from rest an answering pass, the snapshot turning ready, the disk being populated or the VM coming up changes something |
| `Convergence.RestIsStable` | internal/controller/labsession_controller.go:151-207 | At rest a further pass changes neither the CR nor any object until the TTL strikes; one that ttyd does not answer only takes Ready back to Running |
| `Convergence.ReachableIsHopeful` | internal/controller/labsession_controller.go:105-208 | Every guarded run that has kept its snapshot and lost no VM ends where these apply |
| `PauseCycle.PauseThenResume` | internal/controller/labsession_controller.go:105-208 | End to end, at any pace of calls and cluster and with calls failing: paused where that is safe, with its recorded snapshot there if one is recorded, a session comes to rest parked, its disk dropped, its snapshot ready, its VM gone; resumed, it comes to serve on a disk holding exactly what the VM wrote last |
| `PauseCycle.PauseStalls` | internal/controller/labsession_controller.go:125-130 | The condition on the recorded snapshot is exact: paused with its recorded snapshot missing, a session is not parked before its deadline by any run of calls and moves of the cluster, and its CR stays as it is |
| `PauseCycle.LostCleanupStalls` | internal/controller/labsession_controller.go:184-199 | Every clean-up whose deletion takes effect but reports an error, followed by a pause before the next pass, leads there |
| `PauseCycle.RunKeepsCalm` | internal/controller/labsession_controller.go:105-208 | A run that ends before the deadline keeps the spec, begins no teardown and keeps what the VM wrote last until it writes again |
| `PauseCycle.OpKeepsCalm` | internal/controller/labsession_controller.go:58-103 | A pass begins a teardown only on deletion or past the deadline, and no call of its changes the spec |
| `QuietPasses.QuietPassIsPass` | internal/controller/labsession_controller.go:50-208 | The failure-free pass used by convergence is the pass of the code |
| `QuietPasses.SuspendPass` | internal/controller/labsession_controller.go:107-124 | What an undisturbed first pause pass leaves |
| `QuietPasses.ParkPass` | internal/controller/labsession_controller.go:125-138 | What an undisturbed second pause pass leaves, with its snapshot ready |
| `QuietPasses.WaitPass` | internal/controller/labsession_controller.go:126-129 | Without a ready snapshot nothing changes and the pass asks to be called again |
| `QuietPasses.ResumePass` | internal/controller/labsession_controller.go:141-149 | What an undisturbed resume pass leaves |
| `QuietPasses.ExpiryPass` | internal/controller/labsession_controller.go:85-103 | What an undisturbed expiry pass leaves: nothing but the CR |
| `QuietPasses.ConvergePass` | internal/provider/kubevirt/provider.go:113-173 | An undisturbed converging pass has ensured every object when it reads the VMI |
| `Outcomes.ConvergeOutcome` | internal/provider/kubevirt/provider.go:155-173 | After an undisturbed pass over a session that is not paused, expired or being deleted and whose configuration renders, the status is Failed, with no service name and the VMI's phase in the message, exactly when the VMI has failed or succeeded; Provisioning with both empty exactly when it is absent or not running yet; else Ready or Running as ttyd answers |
| `Outcomes.UpOutcome` | internal/controller/labsession_controller.go:156-207 | With the VMI running: the service name spelled out, no message, no snapshot left recorded, and the delay to the next pass: five seconds until Ready, then a minute without a deadline and otherwise until it, but at least a second |
| `Outcomes.DownOutcome` | internal/provider/kubevirt/provider.go:168-169 | With the VMI failed or succeeded: the whole status, and a next pass in five seconds |
| `Outcomes.ConfigOutcome` | internal/provider/kubevirt/provider.go:119-137 | A configuration that cannot be rendered makes the status Failed with that message, and touches no object |
| `Outcomes.ServiceName` | internal/provider/kubevirt/provider.go:99-111 | The names of a session's service and snapshot, spelled out |
| `Outcomes.ExpiresIff` | internal/controller/labsession_controller.go:91-103 | A pass writes Expired if and only if it starts after a deadline that is set, and begins no teardown otherwise |
| `Outcomes.DeletionPass` | internal/controller/labsession_controller.go:58-70 | What an undisturbed deletion pass leaves: neither the CR nor anything of the session's own |
| `Outcomes.DeleteOutcome` | internal/session/manager.go:180-186 | Delete removes a session not yet taken up at once, and any other with the next pass, its disk, VM, service, policy and recorded snapshot with it, other snapshots left alone |
| `Outcomes.FailureOutcome` | internal/controller/labsession_controller.go:126-129 | A failed call ends the pass in an error, except that the readiness check and the clean-up of a resumed session's snapshot are retried five seconds later |
| `Ttl.PassTimely` | internal/controller/labsession_controller.go:199-207 | Whatever fails and whoever interferes, a pass that asks to be called back is called at least 1 s later and at most 5 s past the later of now and the deadline |
| `Ttl.PassStops` | internal/controller/labsession_controller.go:138-153 | A pass over a live session ends in an error, asks to be called back, or leaves it Paused or Expired |
| `Ttl.TeardownIsPrompt` | internal/controller/labsession_controller.go:242-253 | Under ideal wake-ups the first pass after the deadline starts at most 5 s after it, plus the length of the pass under way |
| `StepHistory.OperatorKeepsSteps` | internal/controller/labsession_controller.go:210-218 | A run changes completed steps only by the server's step patches, whatever the operator does and however stale its copies |
| `StepHistory.ServerKeepsLifecycle` | internal/session/manager.go:115-131 | A run changes phase, service name, message and snapshot name only by the operator's calls, however stale the server's lists |
| `StepHistory.RunKeepsRecording` | internal/session/manager.go:112-131 | In every run the list has no step twice and its times never go back, even when overlapping calls overwrite each other's array |
| `StepHistory.SequentialAppends` | internal/session/manager.go:112-131 | When the calls do not overlap the list only grows at its end |
| `StepHistory.GrowsIff` | internal/session/manager.go:112-131 | A run never loses a recorded step, nor moves one, if and only if every step patch in it finds the listed steps a prefix of the list its call read, or its own outcome |
| `StepHistory.WriteKeepsIff` | internal/session/manager.go:125-130 | For one patch of a step not listed yet: the list is kept as a prefix if and only if nothing has been written since the call's read |
| `StepHistory.OverlapLosesAStep` | internal/session/manager.go:125-130 | An input: two calls that read the same empty list leave only the second one's step |
| `StepHistory.StepIsRecorded` | internal/session/manager.go:115-131 | With nobody interfering a step not recorded yet is added at the end, under its name and at an instant between read and patch, and nothing else of the status changes; a recorded one is left alone |
| `Manager.Object.DeepCopy` | api/v1alpha1/zz_generated.deepcopy.go:19-27 | The copy equals the object, keeps a nil list nil, and shares no step array with it |
| `Manager.Append` | internal/session/manager.go:126-129 | Go's append: the longer list, in place or in a new array, the old elements untouched |
| `Manager.MarkStepComplete` | internal/session/manager.go:115-131 | A step already recorded is a no-op; otherwise the call is the protocol's read and patch, with whatever others do between them: the list becomes the one that was read and the step with the instant of the read, and nothing else changes |
| `Manager.AppendStep` | internal/session/manager.go:125-130 | Whatever capacity the decoded list has, and in place or not, the patch is of the list that was read and that list with the record after it |
| `Manager.HasStep` | internal/session/manager.go:120-124 | The search finds exactly the recorded steps |
| `Manager.SetPaused` | internal/session/manager.go:203-223 | Pause and Resume set the flag to the value asked for and change nothing else; a copy already showing the value sends nothing |
| `Manager.ExpireSession` | internal/session/manager.go:188-201 | Expire is the protocol's step: the deadline becomes the instant of the call, and nothing else changes |
| `Manager.Store.Patch` | internal/session/manager.go:125-130 | A patch of two copies writes only the fields in which they differ |
| `MergePatch.DiffThenMerge` | internal/controller/labsession_controller.go:214-218 | A diff applied to the copy it was computed from gives the other copy (RFC 7386) |
| `MergePatch.MergeField` | internal/controller/labsession_controller.go:214-218 | A merge field by field, as section 2 of RFC 7386 has it: null deletes, an object merges, anything else replaces, and what the patch does not name stays |
| `MergePatch.DiffLeavesAgreed` | internal/controller/labsession_controller.go:210-213 | A field the two copies agree on keeps whatever the server holds |
| `MergePatch.DisjointPatchesCommute` | internal/controller/labsession_controller.go:210-213 | Patches over disjoint fields can land in either order |
| `StatusPatch.EncodeField` | api/v1alpha1/labsession_types.go:56-74 | Each status field stands under its JSON name, and is left out exactly when it is empty |
| `StatusPatch.EncodedAs` | api/v1alpha1/labsession_types.go:56-81 | The status as it is printed: every field and phase by its literal name, the steps in order with their two fields, empty fields left out |
| `StatusPatch.PatchIsFieldMerge` | internal/controller/labsession_controller.go:214-218 | The JSON patch of two statuses does to the server's status exactly the field-wise merge the protocol uses, omitted fields and whole-array replacement included |
| `StatusPatch.OwnersCommute` | internal/controller/labsession_controller.go:210-213 | An operator patch and a server patch give the same status in either order |
| `Admission.Refuses` | internal/session/manager.go:46-59 | Create refuses if and only if some listed session's phase is neither Failed nor Expired |
| `Admission.Active` | internal/session/manager.go:236-245 | The phases that count as active throughout are all but Failed and Expired |
| `Admission.GetActive` | internal/session/manager.go:158-175 | The first listed session whose phase is neither Failed nor Expired, or none when there is none |
| `Admission.RefusesIffActive` | internal/session/manager.go:46-59 | On one list Create refuses exactly when GetActive finds a session |
| `Admission.SerialKeepsSingle` | internal/session/manager.go:42-98 | If no client's Create calls overlap, every reachable state has at most one session of a client that never failed or expired |
| `Admission.SingleIff` | internal/session/manager.go:42-98 | A run is safe throughout, no serial continuation from any of its states ever giving a client two sessions that never ended, if and only if no list of its passes while another call of that client is pending |
| `Admission.ListSafeIff` | internal/session/manager.go:42-98 | For one call: after it, no serial continuation gives a client two sessions that never ended if and only if no other call of the client is pending or the list shows an active session |
| `Admission.OverlapAdmitsTwo` | internal/session/manager.go:42-98 | An input: two overlapping calls of a client without a session leave it two sessions, open and active |
| `Admission.ActiveIff` | internal/session/manager.go:42-98 | One active session per client, with pending calls counted in, is kept from every state of a run on if and only if every list is careful and every phase set from an ended to an active one finds that client without an active session and without a call under way |
| `Admission.StepOneActiveIff` | internal/session/manager.go:42-98 | The same for one action: it keeps one active session or call per client exactly under that condition |
| `Admission.RecoveryLeavesTwo` | internal/controller/labsession_controller.go:176-184 | An input without overlapping calls: a failed session that recovers after another was admitted leaves a client two active ones |
| `Recovery.FailsThenRecovers` | internal/controller/labsession_controller.go:156-184 | The recovery is the operator's own doing: a configuration error makes a session Failed, and the next pass without one makes its phase an active one again |
| `DemoToken.TokenRoundTrip` | cmd/labserver/main.go:1208-1254 | For any MAC, validating a generated token gives back exactly its fields, until it is out of date |
| `DemoToken.AcceptedIsSigned` | cmd/labserver/main.go:1225-1254 | Nothing is accepted but four fields and their own MAC, one a line, and the claims are those fields in that order |
| `DemoToken.TokenIs` | cmd/labserver/main.go:1208-1217 | A token is the base64url of scenario, address, expiry and id, one a line, and the MAC of those four lines |
| `DemoToken.Sanitize` | cmd/labserver/main.go:1351-1360 | No line break is left, and a field without any is unchanged |
| `DemoToken.SanitizeJoins` | cmd/labserver/main.go:1351-1360 | It works character by character, in order |
| `DemoToken.SanitizeOne` | cmd/labserver/main.go:1353-1358 | A line feed or carriage return goes, any other character stays |
| `DemoToken.ClampHours` | cmd/labserver/main.go:1122-1129 | 72 hours for a missing or non-positive request, a year for a longer one, else the request; the nanosecond product fits int64 |
| `DemoToken.FormatThenParse` | cmd/labserver/main.go:1210-1242 | Every int64 survives decimal printing and parsing, without a line break |
| `DemoToken.ParseExact` | cmd/labserver/main.go:1239-1242 | A number is read exactly from an optional sign and at least one digit with a value an int64 holds, and that value is read |
| `DemoToken.NumberPlace` | cmd/labserver/main.go:1239-1242 | Digits count by their decimal place |
| `DemoToken.FormatStarts` | cmd/labserver/main.go:1210 | A printed number has no leading zero, and a minus sign exactly when it is negative |
| `DemoToken.JoinThenSplit` | cmd/labserver/main.go:1210-1231 | Splitting a join gives the parts back when all but the last are free of newlines |
| `DemoToken.SplitThenJoin` | cmd/labserver/main.go:1230-1234 | Joining the pieces of a split gives the text back |
| `Base64Url.RoundTrip` | cmd/labserver/main.go:1216-1227 | Unpadded base64url decodes to what was encoded, for every byte string |
| `Base64Url.SextetsThenBytes` | cmd/labserver/main.go:1216-1227 | The same for the bits, through every length modulo three |
| `Base64Url.LetterIs` | cmd/labserver/main.go:1216 | The alphabet is that of RFC 4648, section 5, in its order |
| `Base64Url.ValueIs` | cmd/labserver/main.go:1226 | Nothing outside it has a value |
| `Base64Url.GroupsAre` | cmd/labserver/main.go:1216 | Each group of bytes and its letters' values are one number, most significant first, a short group filled up with zeros |
| `TokenStore.AcknowledgedIsKept` | cmd/labserver/main.go:1294-1397 | Under any interleaving of writes of distinct tokens and session-id patches, an acknowledged record stays and only its session id can change |
| `TokenStore.RacingCreateIsRefused` | cmd/labserver/main.go:1300-1308 | Of two first writes the one whose create comes second is told so and overwrites nothing |
| `TokenStore.BindIsRecorded` | cmd/labserver/main.go:1378-1394 | With nobody interfering, recording the session of a known token gives its record exactly that id, its body and every other record as they were |
| `TokenStore.WriteIsRecorded` | cmd/labserver/main.go:1294-1318 | With nobody interfering, a write leaves exactly its record under its token, acknowledged, and every other record as it was |
| `TokenPatch.PatchIsMergeData` | cmd/labserver/main.go:1312-1317 | Writing one record: the JSON merge patch of the two copies of the ConfigMap, with an empty data map omitted, is the per-key merge those runs use |
| `TokenStore.WriteTokenRecord` | cmd/labserver/main.go:1294-1318 | One write, with anything between its read and its send, is the step those runs take: its record is stored under its token unless another Create came first, every other record left as the others left it |
| `TokenStore.PatchSessionID` | cmd/labserver/main.go:1371-1397 | Likewise for recording a session id: a token unknown when read is left alone, a known one's record becomes the one read with exactly this id, every other record as the others left it |
| `Dashboard.GroupSessions` | cmd/labserver/main.go:276-324 | Every session passing the filters is in exactly one (domain, scenario) group, in order; user counts add up to the kept sessions; the best is the first member no other is above |
| `Dashboard.MemberIff` | cmd/labserver/main.go:291-309 | A group's sessions are exactly those of its scenario and domain that are no demos and not expired for more than thirty days |
| `Dashboard.MembersJoin` | cmd/labserver/main.go:291-309 | They stand in the order of the list |
| `Dashboard.BestMeans` | cmd/labserver/main.go:316-323 | The best has the most completed steps, is active if any with as many is, and comes first among equals |
| `Dashboard.BestAfter` | cmd/labserver/main.go:316-323 | The replacement test keeps the best the first attaining the lexicographic maximum of completed steps and activity |
| `Dashboard.CountOut` | cmd/labserver/main.go:312-316 | The users of all groups can be counted group by group in any order |
| `Dashboard.LastAt` | cmd/labserver/main.go:411-417 | The last '@' of an address |
| `Dashboard.DomainIs` | cmd/labserver/main.go:411-417 | The domain is what follows the last '@', lower-cased, and empty when nothing does |
| `Dashboard.Timeline` | cmd/labserver/main.go:334-363 | Each step is passed, with its completion and the time since the one before it or the creation, active since the last completion, or pending; indexing stays in bounds, the durations add up to the last completion shown minus creation, and none is negative if and only if the times go forward |
| `WebSocketFrames.RoundTrip` | vm/lab-inject.py:30-35 | For every message shorter than 65536 bytes, whatever follows, a receiver that decodes and unmasks bit by bit by sections 5.2 and 5.3 of RFC 6455 gets one final masked text frame with exactly that message, its length in the shortest form |
| `WebSocketFrames.FrameBits` | vm/lab-inject.py:31-35 | After header and mask, every bit of the message is flipped exactly where byte i modulo four of the mask has its bit set (RFC 6455, section 5.3) |
| `WebSocketFrames.FrameHeader` | vm/lab-inject.py:33-34 | The header byte by byte: a final text frame, masked, the length in seven bits or in two bytes, most significant first |
| `WebSocketFrames.SendsExactly` | vm/lab-inject.py:33-34 | Exactly the messages shorter than 65536 bytes can be sent |
| `WebSocketFrames.HeaderReads` | vm/lab-inject.py:33-34 | The header's length reads back across the 125/126 boundary, in the shortest form |
| `WebSocketFrames.MaskTwice` | vm/lab-inject.py:31-32 | Masking twice with one mask gives the message back |
| `TextDocuments.TextDocument.GetLineOffsets` | web/static/ide-assets/jsonMode-D4nNrrp1.js:6-8 | The cached line starts are those of the current content |
| `TextDocuments.OffsetsExact` | web/static/ide-assets/jsonMode-D4nNrrp1.js:6-8 | Line starts: the front and after each line break, CR LF counting as one, each once, in order |
| `TextDocuments.TextDocument.PositionAt` | web/static/ide-assets/jsonMode-D4nNrrp1.js:8 | The binary search finds the line the clamped offset lies on |
| `TextDocuments.TextDocument.OffsetAt` | web/static/ide-assets/jsonMode-D4nNrrp1.js:8 | The offset of a position, clamped to its line and to the text |
| `TextDocuments.OffsetIs` | web/static/ide-assets/jsonMode-D4nNrrp1.js:8 | That offset is the line's start plus the character, cut off at the line's start and at the start of the next line or the end of the text |
| `TextDocuments.TextDocument.Update` | web/static/ide-assets/jsonMode-D4nNrrp1.js:6-8 | New content makes the cached line starts obsolete |
| `TextDocuments.OffsetOfPosition` | web/static/ide-assets/jsonMode-D4nNrrp1.js:8 | offsetAt(positionAt(o)) is o, clamped to the text |
| `TextDocuments.OffsetMonotone` | web/static/ide-assets/jsonMode-D4nNrrp1.js:8 | A position not after another has an offset not after the other's |
| `TextDocuments.OffsetInRange` | web/static/ide-assets/jsonMode-D4nNrrp1.js:8 | Offsets lie in the text |
| `TextDocuments.PositionUnique` | web/static/ide-assets/jsonMode-D4nNrrp1.js:8 | An offset falls on one position only |
| `TextEdits.ApplyEdits` | web/static/ide-assets/jsonMode-D4nNrrp1.js:6 | Sorts in place by line, then character, and splices from last to first: fails exactly when an edit's end lies after the next one's start; otherwise the result replaces all ranges at once, gaps kept, an edit that ends before it starts inserting its text and, again, what lies between; it replaces the given ranges exactly when no edit ends before it starts, also in terms of the edits as given when equal offsets mean equal positions |
| `TextEdits.AssembleMeans` | web/static/ide-assets/jsonMode-D4nNrrp1.js:6 | Splicing edits apart from each other always means replacing their straightened ranges at once, and their own ranges if and only if none ends before it starts |
| `TextEdits.MergeSort` | web/static/ide-assets/jsonMode-D4nNrrp1.js:6 | In place: sorted, the same edits, those of one position in their original order |
| `TextEdits.MergeInto` | web/static/ide-assets/jsonMode-D4nNrrp1.js:6 | The merge loops write the left-biased merge of the two halves |
| `TextEdits.StableSortUnique` | web/static/ide-assets/jsonMode-D4nNrrp1.js:6 | There is only one stable sort, so the contract fixes the result |
| `TextEdits.AssembleIsSimultaneous` | web/static/ide-assets/jsonMode-D4nNrrp1.js:6 | Splicing apart edits is replacing all their ranges at once, offset by offset |
| `TextEdits.ReplacesFirst` | web/static/ide-assets/jsonMode-D4nNrrp1.js:6 | Replacing all ranges at once, edit by edit: the text up to the first range, its new text, and what the other edits make of the rest |
| `TextEdits.SortKeepsMeaning` | web/static/ide-assets/jsonMode-D4nNrrp1.js:6 | Sorting stably changes nothing of what replacing the edits all at once gives |
| `JsonScanners.Scanner.Scan` | web/static/ide-assets/jsonMode-D4nNrrp1.js:9-11 | Reads exactly the token at its position, a structural one exactly at its character, records the count it had, and carries it on over the token; with a right count before, the recorded line and character are the position of the token's offset as the text document computes it, and the count is right after it if and only if the token is no literal, short of the text's end, that holds an escaped end of line |
| `JsonScanners.Scanner.ScanInLine` | web/static/ide-assets/jsonMode-D4nNrrp1.js:9-11 | The same for each kind of token that ends no line: which character is which structural token, and everything else of the token |
| `JsonScanners.Scanner.ScanString` | web/static/ide-assets/jsonMode-D4nNrrp1.js:9-10 | A string literal with its escapes, up to its quote, a line break or the end; of several errors the last is kept |
| `JsonScanners.Scanner.ScanNumber` | web/static/ide-assets/jsonMode-D4nNrrp1.js:9 | A number from its first digit |
| `JsonScanners.Scanner.ScanExponent` | web/static/ide-assets/jsonMode-D4nNrrp1.js:9 | Its exponent, or where it breaks off |
| `JsonScanners.Scanner.ScanHexDigits` | web/static/ide-assets/jsonMode-D4nNrrp1.js:9 | The value of the digits when there are enough, the digits consumed either way |
| `JsonScanners.Scanner.ScanEscape` | web/static/ide-assets/jsonMode-D4nNrrp1.js:9-10 | One escape sequence, with its error if it is none |
| `JsonScanners.Scanner.ScanBlockComment` | web/static/ide-assets/jsonMode-D4nNrrp1.js:11 | A block comment up to its first closing, or past the end with an error, every line it ends counted |
| `JsonScanners.Scanner.SkipComment` | web/static/ide-assets/jsonMode-D4nNrrp1.js:11 | Where the comment ends, with one line counted for each that ends in it, CR LF as one, and by how much an unterminated one overshoots the text |
| `JsonScanners.Scanner.ScanLineComment` | web/static/ide-assets/jsonMode-D4nNrrp1.js:11 | A line comment up to the line's end |
| `JsonScanners.Scanner.ScanWord` | web/static/ide-assets/jsonMode-D4nNrrp1.js:11 | A run of word characters, a keyword when it is one of the three |
| `JsonScanners.Scanner.ScanLineBreak` | web/static/ide-assets/jsonMode-D4nNrrp1.js:10-11 | A line break, CR LF in one go, counting one line |
| `JsonScanners.Scanner.ScanBlanks` | web/static/ide-assets/jsonMode-D4nNrrp1.js:10 | A run of blanks |
| `JsonScanners.OnLinePosition` | web/static/ide-assets/jsonMode-D4nNrrp1.js:9-11 | Line count and line start as the scanner keeps them give the position of the offset |
| `JsonScanners.PlacedRightIff` | web/static/ide-assets/jsonMode-D4nNrrp1.js:9-11 | For a whole text: the place recorded for any of its tokens is the position of its offset if and only if no token before it swallows the end of a line; a count once behind stays behind |
| `JsonScanners.CountAfter` | web/static/ide-assets/jsonMode-D4nNrrp1.js:9-11 | The exact condition, token by token: the count stays right if and only if the token is no literal that swallows the end of a line; the CR of a CR LF is no end |
| `JsonScanners.LexFlat` | web/static/ide-assets/jsonMode-D4nNrrp1.js:9-11 | Of the other tokens only string literals can hold a line break |
| `JsonScanners.EscapedBreakMiscounts` | web/static/ide-assets/jsonMode-D4nNrrp1.js:9-10 | An input: a literal that escapes an LF leaves the count behind |
| `JsonLexemes.Advances` | web/static/ide-assets/jsonMode-D4nNrrp1.js:9-11 | Before the end of the text every scan starts its token where it stands and takes at least a character; only an unterminated comment passes the end, by one |
| `JsonLexemes.Tiles` | web/static/ide-assets/jsonMode-D4nNrrp1.js:9-11 | The tokens cover the text without gap or overlap |
| `JsonGrammar.StructuralExact` | web/static/ide-assets/jsonMode-D4nNrrp1.js:9-11 | The six structural characters of RFC 8259, section 2, and nothing else, are the six structural tokens, one character each |
| `JsonGrammar.NamesExact` | web/static/ide-assets/jsonMode-D4nNrrp1.js:9-11 | true, false and null are read as such exactly where those letters stand and no longer word does (RFC 8259, section 3) |
| `JsonGrammar.OpeningExact` | web/static/ide-assets/jsonMode-D4nNrrp1.js:9-11 | Strings, numbers, comments, line breaks and blanks begin exactly at the characters that say so |
| `JsonGrammar.UnknownIs` | web/static/ide-assets/jsonMode-D4nNrrp1.js:9-11 | Anything else is a minus or slash alone, or the word up to the next character that stops one |
| `JsonGrammar.FlatExtent` | web/static/ide-assets/jsonMode-D4nNrrp1.js:9-11 | How far blanks, line breaks and line comments go, and what they hold |
| `JsonGrammar.CommentExtent` | web/static/ide-assets/jsonMode-D4nNrrp1.js:11 | A closed comment goes to its first closing |
| `JsonGrammar.EscapeErrors` | web/static/ide-assets/jsonMode-D4nNrrp1.js:9-10 | Which of the two escape errors, exactly when |
| `JsonGrammar.LiteralErrors` | web/static/ide-assets/jsonMode-D4nNrrp1.js:9-10 | A literal reported unterminated stops at a line break or at the end of the text; any other ends in a quote |
| `JsonGrammar.ControlError` | web/static/ide-assets/jsonMode-D4nNrrp1.js:10 | A control character before the closing quote is an invalid character |
| `JsonGrammar.CommentError` | web/static/ide-assets/jsonMode-D4nNrrp1.js:11 | A block comment is reported unterminated exactly when nothing closes it |
| `JsonGrammar.NumberExact` | web/static/ide-assets/jsonMode-D4nNrrp1.js:9 | A text is one error-free number to the scanner if and only if RFC 8259, section 6, makes it one |
| `JsonGrammar.StringExact` | web/static/ide-assets/jsonMode-D4nNrrp1.js:9-10 | A string is read without an error, up to an offset and with a value, if and only if RFC 8259, section 7, has a string there that stands for that value |
| `JsonGrammar.StringReads` | web/static/ide-assets/jsonMode-D4nNrrp1.js:9-11 | Every text, spelled as a JSON string, is read back as itself wherever it stands |
| `JsonTokenizers.Tokenize` | web/static/ide-assets/jsonMode-D4nNrrp1.js:15 | Terminates on every line with the scanner advancing each time, so the throw is unreachable; the tokens are those scanned in the prefixed line, each with the scope name its first characters call for; the first starts with the line, and start indexes strictly increase if and only if no string is carried into a line that begins with a line break |
| `JsonTokenizers.StringScope` | web/static/ide-assets/jsonMode-D4nNrrp1.js:15 | Whatever preceded, a string is a value if and only if a colon is the last thing that matters before it or the innermost bracket still open around it is an array's, on the line or carried in; otherwise it is a key |
| `JsonTokenizers.TokenScopes` | web/static/ide-assets/jsonMode-D4nNrrp1.js:15 | Every token has the scope name its first characters call for: brackets, colon, comma, keywords, strings, numbers and comments, by character |
| `JsonTokenizers.StringCarries` | web/static/ide-assets/jsonMode-D4nNrrp1.js:15 | A string carried over is read on from the start of the line as if its quote stood there |
| `JsonTokenizers.InnermostEncloses` | web/static/ide-assets/jsonMode-D4nNrrp1.js:15 | That bracket is one opened on the line with everything opened after it closed again |
| `JsonTokenizers.Starts` | web/static/ide-assets/jsonMode-D4nNrrp1.js:15 | The prefix never shows in the start indexes |
| `JsonTokenizers.CommentCarries` | web/static/ide-assets/jsonMode-D4nNrrp1.js:15 | A comment carried over takes the line up to its first closing, or all of it and is carried on with the state unchanged |
| `JsonTokenizers.BalancedLine` | web/static/ide-assets/jsonMode-D4nNrrp1.js:15 | A line whose brackets balance hands on the nesting it was given |
| `JsonTokenizers.ParentsReturn` | web/static/ide-assets/jsonMode-D4nNrrp1.js:15 | Popping what a line left open leads back to where it began |

## Left out

- Ttl.TeardownIsPrompt: bounds the start of the teardown pass by 5 s plus the length of the pass that was under way at the deadline, because a pass takes time here; with instant passes it is the 5 s.
- Ttl.PassTimely: requires that no one calls Expire during the pass, since the pass books its successor by the deadline it read.
- Convergence.FewChanges: is about passes during which nothing else moves and no call fails; `Settling.FewEffects` has neither restriction, and counts calls.
- Settling.FewEffects: is about runs in which nobody edits or deletes the session and no completed step is recorded, no VM stops, the configuration renders, an object stands behind every snapshot name in use, and ttyd never stops answering once it has answered; the safety results assume none of these.
- Settling.Converges: needs ttyd to answer in each sweep; before it first does, a session with its VM up stays in Running, which `Settling.FewEffects` covers.
- Settling.ReachableIsSteady: is about states between two passes; after an edit that lands inside a pass, the pass ends in at most twelve calls.
- DiskConservation.DiskConserved: assumes that a pause is issued only where `DiskConservation.SafeToPause` holds; without that it is false, and `PauseGuard.PauseSafeIff` says exactly when.
- PauseGuard.PauseSafeIff: is about a session with its deadline more than thirty nanoseconds away, so that the losing run, of one pause, the rest of a pass, four moves and two passes, fits before it.
- Dashboard.Timeline: durations are whole nanoseconds, without the saturation of Go's time difference and the conversion to floating-point hours.
- DemoToken.Sanitize: works on bytes, so the replacement of invalid UTF-8 is not modelled; the MAC is an arbitrary function and the token id any newline-free text.
- TokenStore.AcknowledgedIsKept: takes each token id to be written by one call, which fresh UUIDs give, and records as opaque values.
- Stored times are kept to the nanosecond; the truncation to seconds that JSON gives `metav1.Time` is not modelled.
- Informer-cache staleness, and deletions that take time because of other finalizers.
- The get and the create inside CreateOrUpdate are one call; labels, ports, rules, quantities and owner references of the objects are left out, and with them garbage collection of the user-data Secret.
- Two sessions whose ids share their first eight characters share object names; one session is modelled.
- In `Protocol` Pause, Resume and Expire take effect when their patch lands; the stale read that makes one a no-op is in `Manager.SetPaused`.
- Scenario, sizing, cloud-init and tier lookups: their failure is one configuration error with a message.
- Sorting the dashboard's rows by name, and dropping groups whose scenario no longer loads.
- HTTP handlers, cookies, JWT checks, proxies, the admin and metrics pages, the log and file endpoints.
- The scanner's variant that skips trivia, a loop over `Scanner.Scan`.
- The injector's service listing and its socket handshake.
- The rest of the bundled editor, and its CSS and HTML modes, which repeat the text document code.
