/** The status as it travels: JSON with omitempty, patched by JSON Merge Patch. */
module StatusPatch {
  import opened LabSessions
  import opened MergePatch

  datatype Key = PhaseKey | ServiceKey | MessageKey | StepsKey | SnapshotKey

  function KeyName(k: Key): string {
    match k
    case PhaseKey => "phase"
    case ServiceKey => "serviceDNS"
    case MessageKey => "message"
    case StepsKey => "completedSteps"
    case SnapshotKey => "snapshotName"
  }

  function PhaseName(p: Phase): string {
    match p
    case NoPhase => ""
    case Provisioning => "Provisioning"
    case Running => "Running"
    case Ready => "Ready"
    case Expired => "Expired"
    case Failed => "Failed"
    case Paused => "Paused"
  }

  function EncodeStep(r: StepRecord): Json {
    Obj(map["step" := Str(r.step), "completedAt" := Num(r.completedAt)])
  }

  function EncodeSteps(steps: seq<StepRecord>): Json {
    Arr(seq(|steps|, i requires 0 <= i < |steps| => EncodeStep(steps[i])))
  }

  function OmitEmpty(s: string): Option<Json> {
    if s == "" then None else Some(Str(s))
  }

  /** The field's JSON value; None where omitempty drops it. */
  function Field(status: Status, k: Key): Option<Json> {
    match k
    case PhaseKey => OmitEmpty(PhaseName(status.phase))
    case ServiceKey => OmitEmpty(status.serviceDNS)
    case MessageKey => OmitEmpty(status.message)
    case StepsKey => if status.completedSteps == [] then None else Some(EncodeSteps(status.completedSteps))
    case SnapshotKey => OmitEmpty(status.snapshotName)
  }

  function Put(m: map<string, Json>, k: string, v: Option<Json>): (r: map<string, Json>)
    ensures forall j :: Get(r, j) == if j == k && v.Some? then v else Get(m, j)
  {
    if v.None? then m else m[k := v.value]
  }

  function Encode(status: Status): (r: Json)
    ensures r.Obj?
  {
    Obj(Put(Put(Put(Put(Put(map[], "phase", Field(status, PhaseKey)), "serviceDNS", Field(status, ServiceKey)),
                    "message", Field(status, MessageKey)), "completedSteps", Field(status, StepsKey)),
            "snapshotName", Field(status, SnapshotKey)))
  }

  const EMPTY: Status := Status(NoPhase, "", "", [], "")

  lemma FieldIsThere(status: Status, k: Key)
    ensures Get(Encode(status).fields, KeyName(k)) == Field(status, k)
  {
    hide Field;
    KeysDiffer();
  }

  /** Each field stands under its own name, and is left out exactly when it is empty. */
  lemma EncodeField(status: Status, k: Key)
    ensures Get(Encode(status).fields, KeyName(k)) == Field(status, k)
    ensures KeyName(k) !in Encode(status).fields <==> SameField(status, EMPTY, k)
  {
    KeysDiffer();
    FieldIsThere(status, k);
    FieldsDiffer(status, EMPTY, k);
  }

  lemma EncodeNothingElse(status: Status, name: string)
    requires forall k :: KeyName(k) != name
    ensures Get(Encode(status).fields, name) == None
  {
    hide Field;
    assert KeyName(PhaseKey) == "phase" && KeyName(ServiceKey) == "serviceDNS" && KeyName(MessageKey) == "message";
    assert KeyName(StepsKey) == "completedSteps" && KeyName(SnapshotKey) == "snapshotName";
  }

  lemma KeysDiffer()
    ensures forall j, k :: j != k ==> KeyName(j) != KeyName(k)
  {
    assert |KeyName(PhaseKey)| == 5 && |KeyName(ServiceKey)| == 10 && |KeyName(MessageKey)| == 7;
    assert |KeyName(StepsKey)| == 14 && |KeyName(SnapshotKey)| == 12;
  }

  /** The status as it is printed, name by name; what is empty is left out. */
  lemma EncodedAs(status: Status)
    ensures var m := Encode(status).fields;
            && Get(m, "serviceDNS") == (if status.serviceDNS == "" then None else Some(Str(status.serviceDNS)))
            && Get(m, "message") == (if status.message == "" then None else Some(Str(status.message)))
            && Get(m, "snapshotName") == (if status.snapshotName == "" then None else Some(Str(status.snapshotName)))
            && (match status.phase
                case NoPhase => "phase" !in m
                case Provisioning => Get(m, "phase") == Some(Str("Provisioning"))
                case Running => Get(m, "phase") == Some(Str("Running"))
                case Ready => Get(m, "phase") == Some(Str("Ready"))
                case Expired => Get(m, "phase") == Some(Str("Expired"))
                case Failed => Get(m, "phase") == Some(Str("Failed"))
                case Paused => Get(m, "phase") == Some(Str("Paused")))
            && (status.completedSteps == [] <==> "completedSteps" !in m)
            && ("completedSteps" in m ==>
                  && m["completedSteps"].Arr? && |m["completedSteps"].elems| == |status.completedSteps|
                  && forall i :: 0 <= i < |status.completedSteps| ==>
                       var r := status.completedSteps[i];
                       m["completedSteps"].elems[i] ==
                       Obj(map["step" := Str(r.step), "completedAt" := Num(r.completedAt)]))
  {
    FieldIsThere(status, PhaseKey);
    FieldIsThere(status, ServiceKey);
    FieldIsThere(status, MessageKey);
    FieldIsThere(status, StepsKey);
    FieldIsThere(status, SnapshotKey);
  }

  // ---------------------------------------------------------------- encoding loses nothing

  lemma PhaseNamesDiffer(p: Phase, q: Phase)
    requires PhaseName(p) == PhaseName(q)
    ensures p == q
  {
    var s, t := PhaseName(p), PhaseName(q);
    assert |s| == |t| && (|s| > 1 ==> s[1] == t[1]) && (|s| > 0 ==> s[0] == t[0]);
  }

  lemma StepsDiffer(a: seq<StepRecord>, b: seq<StepRecord>)
    requires EncodeSteps(a) == EncodeSteps(b)
    ensures a == b
  {
    var x, y := EncodeSteps(a).elems, EncodeSteps(b).elems;
    assert |x| == |a| && |y| == |b|;
    forall i | 0 <= i < |a|
      ensures a[i] == b[i]
    {
      assert x[i] == EncodeStep(a[i]) && y[i] == EncodeStep(b[i]);
      assert EncodeStep(a[i]).fields["step"] == EncodeStep(b[i]).fields["step"];
      assert EncodeStep(a[i]).fields["completedAt"] == EncodeStep(b[i]).fields["completedAt"];
    }
  }

  predicate SameField(a: Status, b: Status, k: Key) {
    match k
    case PhaseKey => a.phase == b.phase
    case ServiceKey => a.serviceDNS == b.serviceDNS
    case MessageKey => a.message == b.message
    case StepsKey => a.completedSteps == b.completedSteps
    case SnapshotKey => a.snapshotName == b.snapshotName
  }

  lemma FieldsDiffer(a: Status, b: Status, k: Key)
    ensures Field(a, k) == Field(b, k) <==> SameField(a, b, k)
  {
    hide EncodeSteps, PhaseName;
    match k
    case PhaseKey =>
      if Field(a, k) == Field(b, k) {
        PhaseNamesDiffer(a.phase, b.phase);
      }
    case StepsKey =>
      if Field(a, k) == Field(b, k) && a.completedSteps != [] && b.completedSteps != [] {
        StepsDiffer(a.completedSteps, b.completedSteps);
      }
    case _ =>
  }

  // ---------------------------------------------------------------- the patches the two processes send

  lemma FieldIsFlat(status: Status, k: Key)
    ensures var f := Field(status, k); f.Some? ==> f.value != Null && !f.value.Obj?
  {
  }

  lemma PatchedField(current: Status, before: Status, after: Status, k: Key)
    ensures var m := Merge(Encode(current), Diff(Encode(before), Encode(after)));
            m.Obj? && Get(m.fields, KeyName(k)) == Field(FieldMerge(current, before, after), k)
  {
    hide Merge, Diff, Encode, Field, KeyName;
    var c, a, b, n := Encode(current), Encode(before), Encode(after), KeyName(k);
    EncodeField(current, k);
    EncodeField(before, k);
    EncodeField(after, k);
    FieldsDiffer(before, after, k);
    MergedField(current, before, after, k);
    if Field(before, k) == Field(after, k) {
      DiffLeavesAgreed(c, a, b, n);
    } else {
      DiffField(a, b, n);
      DiffIsObject(a, b);
      MergeField(c, Diff(a, b), n);
      FieldIsFlat(after, k);
      if Field(after, k).Some? {
        ScalarReplaces(if n in c.fields then c.fields[n] else Null, Field(after, k).value);
      }
    }
  }

  lemma MergedField(current: Status, before: Status, after: Status, k: Key)
    ensures Field(FieldMerge(current, before, after), k) ==
            if SameField(before, after, k) then Field(current, k) else Field(after, k)
  {
    hide EncodeSteps, PhaseName;
  }

  /** The merge patch computed from two copies of a status does to the server's status exactly what FieldMerge
      says, whatever the server holds by the time it lands. */
  lemma PatchIsFieldMerge(current: Status, before: Status, after: Status)
    ensures Merge(Encode(current), Diff(Encode(before), Encode(after))) == Encode(FieldMerge(current, before, after))
  {
    hide Merge, Diff, Encode, Field, FieldMerge, KeyName;
    var merged := FieldMerge(current, before, after);
    var m := Merge(Encode(current), Diff(Encode(before), Encode(after)));
    PatchedField(current, before, after, PhaseKey);
    forall n
      ensures Get(m.fields, n) == Get(Encode(merged).fields, n)
    {
      if k :| KeyName(k) == n {
        PatchedField(current, before, after, k);
        EncodeField(merged, k);
      } else {
        EncodeNothingElse(current, n);
        EncodeNothingElse(before, n);
        EncodeNothingElse(after, n);
        EncodeNothingElse(merged, n);
        DiffLeavesAgreed(Encode(current), Encode(before), Encode(after), n);
      }
    }
    SameFields(m.fields, Encode(merged).fields);
  }

  /** The two processes' patches can land in either order: the operator's mutations leave the completed steps
      alone and the server's change nothing else. */
  lemma OwnersCommute(current: Status, opBefore: Status, opAfter: Status, srvBefore: Status, srvAfter: Status)
    requires opAfter.completedSteps == opBefore.completedSteps
    requires srvAfter == srvBefore.(completedSteps := srvAfter.completedSteps)
    ensures var p := Diff(Encode(opBefore), Encode(opAfter));
            var q := Diff(Encode(srvBefore), Encode(srvAfter));
            var c := Encode(current);
            Merge(Merge(c, p), q) == Merge(Merge(c, q), p)
  {
    hide Merge, Diff, Encode;
    PatchIsFieldMerge(current, opBefore, opAfter);
    PatchIsFieldMerge(FieldMerge(current, opBefore, opAfter), srvBefore, srvAfter);
    PatchIsFieldMerge(current, srvBefore, srvAfter);
    PatchIsFieldMerge(FieldMerge(current, srvBefore, srvAfter), opBefore, opAfter);
  }
}
