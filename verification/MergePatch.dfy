/** JSON Merge Patch (RFC 7386, section 2) and the patches two copies of an object give rise to. */
module MergePatch {
  import opened LabSessions

  datatype Json =
    | Null
    | Bool(b: bool)
    | Num(n: int)
    | Str(s: string)
    | Arr(elems: seq<Json>)
    | Obj(fields: map<string, Json>)

  function Get(m: map<string, Json>, k: string): Option<Json> {
    if k in m then Some(m[k]) else None
  }

  function Fields(j: Json): map<string, Json> {
    if j.Obj? then j.fields else map[]
  }

  /** A null in the patch deletes, an object merges, anything else replaces. */
  function Merge(target: Json, patch: Json): Json
    decreases patch
  {
    if !patch.Obj? then patch
    else
      var t := Fields(target);
      Obj(map k | k in t.Keys + patch.fields.Keys && Get(patch.fields, k) != Some(Null) ::
            if k in patch.fields then Merge(if k in t then t[k] else Null, patch.fields[k]) else t[k])
  }

  /** The smallest patch that turns a into b. */
  function Diff(a: Json, b: Json): Json
    requires a.Obj? && b.Obj?
    decreases b
  {
    Obj(map k | k in a.fields.Keys + b.fields.Keys && Get(a.fields, k) != Get(b.fields, k) ::
          if k !in b.fields then Null
          else if k in a.fields && a.fields[k].Obj? && b.fields[k].Obj? then Diff(a.fields[k], b.fields[k])
          else b.fields[k])
  }

  /** No null anywhere an object would hold one: what serialising a Go value with omitempty gives. */
  predicate NullFree(j: Json)
    decreases j
  {
    j != Null && (j.Obj? ==> forall k :: k in j.fields ==> NullFree(j.fields[k]))
  }

  lemma {:induction false} MergeBuilds(target: Json, j: Json)
    requires NullFree(j) && !target.Obj?
    ensures Merge(target, j) == j
    decreases j
  {
    if j.Obj? {
      forall k | k in j.fields
        ensures Merge(Null, j.fields[k]) == j.fields[k]
      {
        MergeBuilds(Null, j.fields[k]);
      }
      assert Merge(target, j).fields == j.fields;
    }
  }

  /** What a merge makes of one field. */
  lemma MergeField(target: Json, patch: Json, k: string)
    requires patch.Obj?
    ensures Merge(target, patch).Obj?
    ensures Get(Merge(target, patch).fields, k) ==
              match Get(patch.fields, k)
              case None => Get(Fields(target), k)
              case Some(Null) => None
              case Some(v) => Some(Merge(if k in Fields(target) then Fields(target)[k] else Null, v))
  {
  }

  lemma DiffField(a: Json, b: Json, k: string)
    requires a.Obj? && b.Obj?
    ensures Get(Diff(a, b).fields, k) ==
              if Get(a.fields, k) == Get(b.fields, k) then None
              else if k !in b.fields then Some(Null)
              else if k in a.fields && a.fields[k].Obj? && b.fields[k].Obj? then Some(Diff(a.fields[k], b.fields[k]))
              else Some(b.fields[k])
  {
  }

  lemma SameFields(m: map<string, Json>, n: map<string, Json>)
    requires forall k :: Get(m, k) == Get(n, k)
    ensures m == n
  {
    forall k
      ensures k in m <==> k in n
      ensures k in m ==> m[k] == n[k]
    {
      assert Get(m, k) == Get(n, k);
    }
  }

  /** Applied to the very copy it was computed from, a diff gives the other copy. */
  lemma {:induction false} DiffThenMerge(a: Json, b: Json)
    requires a.Obj? && b.Obj? && NullFree(b)
    ensures Merge(a, Diff(a, b)) == b
    decreases b
  {
    var patch := Diff(a, b);
    var m := Merge(a, patch);
    forall k
      ensures Get(m.fields, k) == Get(b.fields, k)
    {
      DiffMergeField(a, b, k);
    }
    SameFields(m.fields, b.fields);
  }

  lemma {:induction false} DiffMergeField(a: Json, b: Json, k: string)
    requires a.Obj? && b.Obj? && NullFree(b)
    ensures Get(Merge(a, Diff(a, b)).fields, k) == Get(b.fields, k)
    decreases b, 0
  {
    hide Merge, Diff;
    DiffField(a, b, k);
    DiffIsObject(a, b);
    MergeField(a, Diff(a, b), k);
    if Get(a.fields, k) != Get(b.fields, k) && k in b.fields {
      if k in a.fields && a.fields[k].Obj? && b.fields[k].Obj? {
        DiffIsObject(a.fields[k], b.fields[k]);
        DiffThenMerge(a.fields[k], b.fields[k]);
      } else if k in a.fields && a.fields[k].Obj? {
        ScalarReplaces(a.fields[k], b.fields[k]);
      } else {
        MergeBuilds(if k in a.fields then a.fields[k] else Null, b.fields[k]);
      }
    }
  }

  lemma DiffIsObject(a: Json, b: Json)
    requires a.Obj? && b.Obj?
    ensures Diff(a, b).Obj?
  {
  }

  lemma ScalarReplaces(target: Json, j: Json)
    requires !j.Obj?
    ensures Merge(target, j) == j
  {
  }

  /** A field in which the two copies agree is left to whatever the server holds by then. */
  lemma DiffLeavesAgreed(current: Json, a: Json, b: Json, k: string)
    requires current.Obj? && a.Obj? && b.Obj? && Get(a.fields, k) == Get(b.fields, k)
    ensures Merge(current, Diff(a, b)).Obj?
    ensures Get(Merge(current, Diff(a, b)).fields, k) == Get(current.fields, k)
  {
    hide Merge, Diff;
    DiffField(a, b, k);
    DiffIsObject(a, b);
    MergeField(current, Diff(a, b), k);
  }

  /** Patches over disjoint fields can land in either order. */
  lemma DisjointPatchesCommute(target: Json, p: Json, q: Json)
    requires p.Obj? && q.Obj? && p.fields.Keys !! q.fields.Keys
    ensures Merge(Merge(target, p), q) == Merge(Merge(target, q), p)
  {
    var pq := Merge(Merge(target, p), q);
    var qp := Merge(Merge(target, q), p);
    forall k
      ensures Get(pq.fields, k) == Get(qp.fields, k)
    {
      CommuteAt(target, p, q, k);
    }
    SameFields(pq.fields, qp.fields);
  }

  lemma CommuteAt(target: Json, p: Json, q: Json, k: string)
    requires p.Obj? && q.Obj? && p.fields.Keys !! q.fields.Keys
    ensures Get(Merge(Merge(target, p), q).fields, k) == Get(Merge(Merge(target, q), p).fields, k)
  {
    hide Merge;
    MergeField(target, p, k);
    MergeField(target, q, k);
    MergeField(Merge(target, p), q, k);
    MergeField(Merge(target, q), p, k);
    assert k in p.fields ==> k !in q.fields;
  }
}
