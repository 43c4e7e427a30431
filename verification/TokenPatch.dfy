/** The token ConfigMap as it travels: the merge patch a write sends is the per-key merge the runs use. */
module TokenPatch {
  import opened LabSessions
  import opened MergePatch
  import opened TokenStore

  /** Two records never print alike. */
  ghost predicate Injective(marshal: Record -> string) {
    forall r, s :: marshal(r) == marshal(s) ==> r == s
  }

  function EncodeRecords(m: Data, marshal: Record -> string): Json {
    Obj(map k | k in m :: Str(marshal(m[k])))
  }

  /** The ConfigMap's JSON; an empty data map is omitted. */
  function Encode(m: Data, marshal: Record -> string): Json {
    if m == map[] then Obj(map[]) else Obj(map["data" := EncodeRecords(m, marshal)])
  }

  /** What the patch of one record holds under "data". */
  function OneKey(k: string, r: Record, marshal: Record -> string): Json {
    Obj(map[k := Str(marshal(r))])
  }

  /** The records of two copies differing in one key differ by that key alone. */
  lemma DiffOfRecords(before: Data, k: string, r: Record, marshal: Record -> string)
    requires Injective(marshal) && At(before, k) != Some(r)
    ensures Diff(EncodeRecords(before, marshal), EncodeRecords(before[k := r], marshal)) == OneKey(k, r, marshal)
  {
    var x, y := EncodeRecords(before, marshal), EncodeRecords(before[k := r], marshal);
    forall j
      ensures Get(Diff(x, y).fields, j) == Get(OneKey(k, r, marshal).fields, j)
    {
      DiffField(x, y, j);
    }
    SameFields(Diff(x, y).fields, OneKey(k, r, marshal).fields);
  }

  lemma DiffOfMaps(before: Data, k: string, r: Record, marshal: Record -> string)
    requires Injective(marshal) && At(before, k) != Some(r)
    ensures Diff(Encode(before, marshal), Encode(before[k := r], marshal)) == Obj(map["data" := OneKey(k, r, marshal)])
  {
    hide EncodeRecords;
    var x, y := Encode(before, marshal), Encode(before[k := r], marshal);
    var patch := map["data" := OneKey(k, r, marshal)];
    assert k in before[k := r];
    DiffOfRecords(before, k, r, marshal);
    RecordsDiffer(before, k, r, marshal);
    forall j
      ensures Get(Diff(x, y).fields, j) == Get(patch, j)
    {
      DiffField(x, y, j);
    }
    SameFields(Diff(x, y).fields, patch);
  }

  lemma RecordsDiffer(before: Data, k: string, r: Record, marshal: Record -> string)
    requires Injective(marshal) && At(before, k) != Some(r)
    ensures EncodeRecords(before, marshal) != EncodeRecords(before[k := r], marshal)
    ensures EncodeRecords(before, marshal).Obj? && EncodeRecords(before[k := r], marshal).Obj?
    ensures before == map[] ==> EncodeRecords(before[k := r], marshal) == OneKey(k, r, marshal)
  {
    var y := EncodeRecords(before[k := r], marshal);
    assert Get(y.fields, k) == Some(Str(marshal(r)));
    if before == map[] {
      SameFields(y.fields, OneKey(k, r, marshal).fields);
    }
  }

  lemma MergeOfRecords(current: Data, target: Json, k: string, r: Record, marshal: Record -> string)
    requires target == EncodeRecords(current, marshal) || (current == map[] && target == Null)
    ensures Merge(target, OneKey(k, r, marshal)) == EncodeRecords(current[k := r], marshal)
  {
    var m, e := Merge(target, OneKey(k, r, marshal)), EncodeRecords(current[k := r], marshal);
    MergeField(target, OneKey(k, r, marshal), k);
    forall j
      ensures Get(m.fields, j) == Get(e.fields, j)
    {
      MergeField(target, OneKey(k, r, marshal), j);
    }
    SameFields(m.fields, e.fields);
  }

  /** Writing one record: the JSON merge patch of the two copies does to the ConfigMap exactly what MergeData does. */
  lemma PatchIsMergeData(current: Data, before: Data, k: string, r: Record, marshal: Record -> string)
    requires Injective(marshal)
    ensures Merge(Encode(current, marshal), Diff(Encode(before, marshal), Encode(before[k := r], marshal)))
            == Encode(MergeData(current, before, before[k := r]), marshal)
  {
    hide EncodeRecords, MergeData, Merge, Diff;
    MergedOne(current, before, k, r);
    if At(before, k) == Some(r) {
      assert before[k := r] == before;
      EmptyPatch(Encode(current, marshal), Encode(before, marshal));
    } else {
      DiffOfMaps(before, k, r, marshal);
      assert k in current[k := r];
      MergeOfMaps(current, k, r, marshal);
    }
  }

  lemma MergedOne(current: Data, base: Data, k: string, r: Record)
    ensures MergeData(current, base, base[k := r]) == if At(base, k) == Some(r) then current else current[k := r]
  {
    var m, e := MergeData(current, base, base[k := r]), if At(base, k) == Some(r) then current else current[k := r];
    MergeOneKey(current, base, k, r);
    assert forall j :: At(m, j) == At(e, j);
    assert forall j :: (j in m <==> At(m, j).Some?) && (j in e <==> At(e, j).Some?);
    assert m.Keys == e.Keys;
    assert forall j :: j in m ==> Some(m[j]) == At(m, j) == At(e, j);
  }

  lemma EmptyPatch(target: Json, a: Json)
    requires a.Obj? && target.Obj?
    ensures Merge(target, Diff(a, a)) == target
  {
    forall k
      ensures Get(Merge(target, Diff(a, a)).fields, k) == Get(target.fields, k)
    {
      DiffLeavesAgreed(target, a, a, k);
    }
    DiffLeavesAgreed(target, a, a, "data");
    SameFields(Merge(target, Diff(a, a)).fields, target.fields);
  }

  lemma MergeOfMaps(current: Data, k: string, r: Record, marshal: Record -> string)
    ensures Merge(Encode(current, marshal), Obj(map["data" := OneKey(k, r, marshal)]))
            == Obj(map["data" := EncodeRecords(current[k := r], marshal)])
  {
    hide EncodeRecords;
    var x, patch := Encode(current, marshal), Obj(map["data" := OneKey(k, r, marshal)]);
    var e := map["data" := EncodeRecords(current[k := r], marshal)];
    MergeField(x, patch, "data");
    MergeOfRecords(current, if "data" in x.fields then x.fields["data"] else Null, k, r, marshal);
    forall j
      ensures Get(Merge(x, patch).fields, j) == Get(e, j)
    {
      MergeField(x, patch, j);
    }
    SameFields(Merge(x, patch).fields, e);
  }
}
