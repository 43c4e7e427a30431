/** The server's side of a session: LabSession objects in memory, their deep copies, and the calls that read one
    and patch it back while everyone else goes on writing. */
module Manager {
  import opened LabSessions
  import opened Protocol
  import opened Passes
  import opened Ttl

  // ---------------------------------------------------------------- objects and their copies

  /** A Go slice of records: nil, or a length over a backing array that other slices may share. */
  datatype Slice = NilSlice | Slice(backing: array<StepRecord>, len: nat)

  predicate SliceValid(s: Slice) {
    s.Slice? ==> s.len <= s.backing.Length
  }

  function Records(s: Slice): seq<StepRecord>
    requires SliceValid(s)
    reads if s.Slice? then {s.backing} else {}
  {
    if s.NilSlice? then [] else s.backing[..s.len]
  }

  /** Go's append: in place when the capacity allows it, so a slice sharing the array can see it happen. */
  method Append(s: Slice, r: StepRecord) returns (t: Slice)
    requires SliceValid(s)
    modifies if s.Slice? then {s.backing} else {}
    ensures SliceValid(t) && Records(t) == old(Records(s)) + [r]
    ensures t.Slice? && (fresh(t.backing) || (s.Slice? && t.backing == s.backing))
    ensures s.Slice? ==> s.backing[..s.len] == old(s.backing[..s.len])
  {
    if s.Slice? && s.len < s.backing.Length {
      s.backing[s.len] := r;
      return Slice(s.backing, s.len + 1);
    }
    var len := if s.Slice? then s.len else 0;
    var backing := new StepRecord[2 * len + 1](_ => r);
    for i := 0 to len
      invariant s.Slice? ==> s.backing[..] == old(s.backing[..])
      invariant forall j :: 0 <= j < i ==> backing[j] == s.backing[j]
      invariant backing[len] == r
    {
      backing[i] := s.backing[i];
    }
    t := Slice(backing, len + 1);
    assert backing[..len] == old(Records(s));
    assert Records(t) == backing[..len] + [r];
  }

  class Object {
    var spec: Spec
    var phase: Phase
    var serviceDNS: string
    var message: string
    var snapshotName: string
    var steps: Slice

    constructor (ls: LabSession, steps: Slice)
      requires SliceValid(steps)
      ensures spec == ls.spec && this.steps == steps
      ensures Value() == ls.status.(completedSteps := Records(steps))
    {
      spec, phase, serviceDNS, message := ls.spec, ls.status.phase, ls.status.serviceDNS, ls.status.message;
      snapshotName := ls.status.snapshotName;
      this.steps := steps;
    }

    ghost predicate Valid()
      reads this
    {
      SliceValid(steps)
    }

    function Footprint(): set<object>
      reads this
    {
      if steps.Slice? then {steps.backing} else {}
    }

    function Value(): Status
      requires SliceValid(steps)
      reads this, Footprint()
    {
      Status(phase, serviceDNS, message, Records(steps), snapshotName)
    }

    /** The copy a merge patch is later diffed against: equal now, and sharing no step array with the original. */
    method DeepCopy() returns (out: Object)
      requires Valid()
      ensures fresh(out) && out.Valid() && out.spec == spec && out.Value() == Value()
      ensures out.steps.NilSlice? == steps.NilSlice?
      ensures fresh(out.Footprint())
    {
      var copied := NilSlice;
      if steps.Slice? {
        var backing := new StepRecord[steps.len](_ => StepRecord("", 0));
        for i := 0 to steps.len
          invariant forall j :: 0 <= j < i ==> backing[j] == steps.backing[j]
        {
          backing[i] := steps.backing[i];
        }
        copied := Slice(backing, steps.len);
        assert Records(copied) == Records(steps);
      }
      var status := Status(phase, serviceDNS, message, [], snapshotName);
      out := new Object(LabSession(spec, status, false, false, 0), copied);
    }
  }

  // ---------------------------------------------------------------- the store

  /** The cluster as a call finds it, after whatever the others did. */
  function Seen(c: Cluster, others: seq<Event>): Cluster {
    var c := EnvRun(c, others);
    c.(clock := c.clock + 1)
  }

  /** A merge patch of spec and status at once, computed from two copies of the object. */
  function Patched(ls: LabSession, before: (Spec, Status), after: (Spec, Status)): LabSession {
    var spec := Spec(ls.spec.sessionID,
                     if before.0.expiresAt == after.0.expiresAt then ls.spec.expiresAt else after.0.expiresAt,
                     if before.0.paused == after.0.paused then ls.spec.paused else after.0.paused);
    var status := FieldMerge(ls.status, before.1, after.1);
    if spec == ls.spec && status == ls.status then ls
    else ls.(spec := spec, status := status, resourceVersion := ls.resourceVersion + 1)
  }

  /** Decoding leaves the list nil when it is absent, and otherwise in an array of some capacity. */
  method Decode(steps: seq<StepRecord>) returns (s: Slice)
    ensures SliceValid(s) && Records(s) == steps && (s.Slice? ==> fresh(s.backing))
  {
    if steps == [] {
      return NilSlice;
    }
    var spare :| 0 <= spare;
    var backing := new StepRecord[|steps| + spare](i => if 0 <= i < |steps| then steps[i] else steps[0]);
    s := Slice(backing, |steps|);
    assert backing[..|steps|] == steps;
  }

  class Store {
    var c: Cluster
    var next: nat
    const others: nat -> seq<Event>

    constructor (c: Cluster, others: nat -> seq<Event>)
      ensures this.c == c && next == 0 && this.others == others
    {
      this.c, next, this.others := c, 0, others;
    }

    method Get() returns (obj: Object?)
      modifies this
      ensures next == old(next) + 1 && c == Seen(old(c), others(old(next)))
      ensures obj == null <==> c.cr.None?
      ensures obj != null ==> fresh(obj) && fresh(obj.Footprint()) && obj.Valid() && obj.spec == c.cr.value.spec
                              && obj.Value() == c.cr.value.status
    {
      c := Seen(c, others(next));
      next := next + 1;
      obj := null;
      if c.cr.Some? {
        var steps := Decode(c.cr.value.status.completedSteps);
        obj := new Object(c.cr.value, steps);
      }
    }

    /** Sends what changed between the base and the object. */
    method Patch(base: Object, obj: Object) returns (err: bool)
      requires base.Valid() && obj.Valid()
      modifies this
      ensures next == old(next) + 1
      ensures var c0 := Seen(old(c), others(old(next)));
              var before, after := old((base.spec, base.Value())), old((obj.spec, obj.Value()));
              && err == c0.cr.None?
              && c == if err then c0 else c0.(cr := Some(Patched(c0.cr.value, before, after)))
    {
      var before, after := (base.spec, base.Value()), (obj.spec, obj.Value());
      c := Seen(c, others(next));
      next := next + 1;
      err := c.cr.None?;
      if !err {
        c := c.(cr := Some(Patched(c.cr.value, before, after)));
      }
    }
  }

  // ---------------------------------------------------------------- the manager

  /** Appends a record unless the step already has one.  The patch replaces the whole list by the one that was
      read, with the new record after it, and touches nothing else. */
  method MarkStepComplete(store: Store, step: string) returns (err: bool)
    modifies store
    ensures var c1 := Seen(old(store.c), store.others(old(store.next)));
            var c2 := Seen(c1, store.others(old(store.next) + 1));
            if c1.cr.None? then err && store.c == c1
            else if Recorded(c1.cr.value.status.completedSteps, step) then !err && store.c == c1
            else
              && err == c2.cr.None?
              && store.c == if err then c2
                            else c2.(cr := Some(MarkPatch(c2.cr.value,
                                                          StepCall(c1.cr.value.status.completedSteps, step, c1.clock),
                                                          c1.clock)))
    ensures var c1 := Seen(old(store.c), store.others(old(store.next)));
            var c2 := Seen(c1, store.others(old(store.next) + 1));
            !err && !Recorded(c1.cr.value.status.completedSteps, step) ==>
              && c2.cr.Some? && store.c.cr.Some? && store.c.cr.value.spec == c2.cr.value.spec
              && store.c.cr.value.status == c2.cr.value.status.(
                   completedSteps := c1.cr.value.status.completedSteps + [StepRecord(step, c1.clock)])
  {
    hide EnvRun, Recorded, MarkPatch;
    var ls := store.Get();
    if ls == null {
      return true;
    }
    var found := HasStep(ls.steps, step);
    if found {
      return false;
    }
    ghost var c1, c2 := store.c, Seen(store.c, store.others(store.next));
    err := AppendStep(store, ls, step);
    if !err {
      PatchIs(c2.cr.value, c1.cr.value.status.completedSteps, step, c1.clock);
    }
  }

  /** A patch of a list and that list with one more record makes it the server's list, and touches nothing else. */
  lemma PatchIs(ls: LabSession, read: seq<StepRecord>, step: string, at: int)
    ensures var ls' := MarkPatch(ls, StepCall(read, step, at), at);
            ls'.spec == ls.spec && ls'.status == ls.status.(completedSteps := read + [StepRecord(step, at)])
  {
    assert |read + [StepRecord(step, at)]| != |read|;
  }

  method HasStep(s: Slice, step: string) returns (found: bool)
    requires SliceValid(s)
    ensures found <==> Recorded(Records(s), step)
  {
    var n := if s.Slice? then s.len else 0;
    for i := 0 to n
      invariant forall j :: 0 <= j < i ==> s.backing[j].step != step
    {
      if s.backing[i].step == step {
        assert Records(s)[i].step == step;
        return true;
      }
    }
    return false;
  }

  /** Appends to the object that was read and sends what that changed. */
  method AppendStep(store: Store, ls: Object, step: string) returns (err: bool)
    requires ls.Valid() && ls as object != store && store !in ls.Footprint()
    modifies store, ls, ls.Footprint()
    ensures var c2 := Seen(old(store.c), store.others(old(store.next)));
            var k := StepCall(old(ls.Value()).completedSteps, step, old(store.c.clock));
            && err == c2.cr.None?
            && store.c == if err then c2 else c2.(cr := Some(MarkPatch(c2.cr.value, k, k.readAt)))
  {
    hide EnvRun, MarkPatch, Patched;
    var stamp := store.c.clock;
    ghost var spec, read := ls.spec, ls.Value();
    var base := ls.DeepCopy();
    var steps := Append(ls.steps, StepRecord(step, stamp));
    ls.steps := steps;
    assert ls.Value() == read.(completedSteps := read.completedSteps + [StepRecord(step, stamp)]);
    ghost var c2 := Seen(store.c, store.others(store.next));
    err := store.Patch(base, ls);
    if !err {
      PatchedIsMarkPatch(c2.cr.value, spec, read, step, stamp);
    }
  }

  lemma PatchedIsMarkPatch(ls: LabSession, spec: Spec, read: Status, step: string, stamp: int)
    ensures Patched(ls, (spec, read), (spec, read.(completedSteps := read.completedSteps + [StepRecord(step, stamp)])))
            == MarkPatch(ls, StepCall(read.completedSteps, step, stamp), stamp)
  {
  }

  /** Pause and Resume: a read that already shows the wanted value sends an empty patch. */
  method SetPaused(store: Store, paused: bool) returns (err: bool)
    modifies store
    ensures var c1 := Seen(old(store.c), store.others(old(store.next)));
            var c2 := Seen(c1, store.others(old(store.next) + 1));
            if c1.cr.None? then err && store.c == c1
            else
              && err == c2.cr.None?
              && store.c == if err || c1.cr.value.spec.paused == paused || c2.cr.value.spec.paused == paused then c2
                            else ServerStep(c2, if paused then Pause else Resume)
    ensures var c1 := Seen(old(store.c), store.others(old(store.next)));
            var c2 := Seen(c1, store.others(old(store.next) + 1));
            !err && c1.cr.value.spec.paused != paused ==>
              && c2.cr.Some? && store.c.cr.Some? && store.c.cr.value.status == c2.cr.value.status
              && store.c.cr.value.spec == c2.cr.value.spec.(paused := paused)
  {
    hide EnvRun;
    var ls := store.Get();
    if ls == null {
      return true;
    }
    var base := ls.DeepCopy();
    ls.spec := ls.spec.(paused := paused);
    err := store.Patch(base, ls);
  }

  /** The preferred delete path: the deadline is moved to now, and the CR stays. */
  method ExpireSession(store: Store) returns (err: bool)
    requires store.c.clock > 0
    modifies store
    ensures var c1 := Seen(old(store.c), store.others(old(store.next)));
            var c2 := Seen(c1, store.others(old(store.next) + 1));
            if c1.cr.None? then err && store.c == c1
            else
              && err == c2.cr.None? && c2.clock >= c1.clock
              && store.c ==
                 if err || c1.cr.value.spec.expiresAt == c1.clock || c2.cr.value.spec.expiresAt == c1.clock
                 then c2
                 else ServerStep(c2, Expire(c2.clock - c1.clock))
    ensures var c1 := Seen(old(store.c), store.others(old(store.next)));
            var c2 := Seen(c1, store.others(old(store.next) + 1));
            !err && c1.cr.value.spec.expiresAt != c1.clock ==>
              && c2.cr.Some? && store.c.cr.Some? && store.c.cr.value.status == c2.cr.value.status
              && store.c.cr.value.spec == c2.cr.value.spec.(expiresAt := c1.clock)
  {
    hide EnvRun;
    SeenAdvances(store.c, store.others(store.next));
    var ls := store.Get();
    if ls == null {
      return true;
    }
    SeenAdvances(store.c, store.others(store.next));
    var base := ls.DeepCopy();
    ls.spec := ls.spec.(expiresAt := store.c.clock);
    err := store.Patch(base, ls);
  }

  lemma SeenAdvances(c: Cluster, others: seq<Event>)
    ensures Seen(c, others).clock > c.clock
  {
    EnvAdvances(c, others);
  }
}
