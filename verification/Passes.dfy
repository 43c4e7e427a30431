/** A whole pass of the operator, with whatever the others do before each of its calls. */
module Passes {
  import opened LabSessions
  import opened Protocol

  /** Calls left before the pass ends, at most. */
  function Rank(op: OpState): nat {
    match op
    case Idle => 0
    case At(p, _) => PointRank(p)
  }

  function PointRank(p: Point): nat {
    match p
    case EnsureDisk => 12
    case EnsureSecret => 11
    case EnsureVmi => 10
    case EnsureService => 9
    case EnsurePolicy => 8
    case GetVmi => 7
    case PatchProgress(_, _) => 6
    case DeleteVmi(_) => 9
    case DeletePolicy(_) => 8
    case DeleteService(_) => 7
    case CheckSnapshot => 6
    case TakeSnapshot => 5
    case DeleteDisk(_) => 5
    case DeleteSnapshot(_, _) => 4
    case _ => 1
  }

  lemma AfterInfraRank(c: Cluster, p: Point, ls: LabSession, k: ApiCall)
    requires !WritesCr(p)
    ensures Rank(AfterInfra(c, p, ls, k).op) < PointRank(p)
  {
  }

  lemma CrEffectRank(c: Cluster, p: Point, ls: LabSession)
    requires WritesCr(p)
    ensures Rank(CrEffect(c, p, ls).op) < PointRank(p)
  {
    hide FieldMerge, WriteStatus, Mutated;
  }

  /** Every call takes the pass nearer its end. */
  lemma OpRank(s: State, k: ApiCall)
    requires s.op.At?
    ensures Rank(OpStep(s, k).op) < Rank(s.op)
  {
    hide AfterInfra, CrEffect, InfraEffect;
    var c := s.c.(clock := s.c.clock + 1 + k.wait);
    var p, ls := s.op.point, s.op.ls;
    if WritesCr(p) {
      CrEffectRank(c, p, ls);
    } else {
      AfterInfraRank(c.(infra := InfraEffect(c.infra, p, ls)), p, ls, k);
    }
  }

  /** What happens before a call, and the call. */
  datatype Slot = Slot(before: seq<Event>, call: ApiCall)

  type Script = nat -> Slot

  function EnvRun(c: Cluster, events: seq<Event>): Cluster
    decreases |events|
  {
    if events == [] then c else EnvRun(EnvStep(c, events[0]), events[1..])
  }

  function SlotStep(s: State, slot: Slot): State {
    OpStep(s.(c := EnvRun(s.c, slot.before)), slot.call)
  }

  /** The rest of a pass whose next call is the i-th of the script. */
  function Rest(s: State, script: Script, i: nat): State
    decreases Rank(s.op)
  {
    if s.op.Idle? then s else
      SlotRank(s, script(i));
      Rest(SlotStep(s, script(i)), script, i + 1)
  }

  lemma RestIdle(s: State, script: Script, i: nat)
    requires s.op.Idle?
    ensures Rest(s, script, i) == s
  {
  }

  lemma SlotRank(s: State, slot: Slot)
    requires s.op.At?
    ensures Rank(SlotStep(s, slot).op) < Rank(s.op)
  {
    hide OpStep, Rank;
    OpRank(s.(c := EnvRun(s.c, slot.before)), slot.call);
  }

  /** A pass from its first read on. */
  function Pass(c: Cluster, script: Script, i: nat): State {
    Rest(SlotStep(State(c, Idle, Stop), script(i)), script, i + 1)
  }

  // ---------------------------------------------------------------- passes are runs

  function EnvMoves(events: seq<Event>): (moves: seq<Move>)
    ensures |moves| == |events| && forall i :: 0 <= i < |events| ==> moves[i] == Env(events[i])
  {
    seq(|events|, i requires 0 <= i < |events| => Env(events[i]))
  }

  function SlotMoves(slot: Slot): seq<Move> {
    EnvMoves(slot.before) + [Op(slot.call)]
  }

  function RestMoves(s: State, script: Script, i: nat): seq<Move>
    decreases Rank(s.op)
  {
    if s.op.Idle? then [] else
      SlotRank(s, script(i));
      SlotMoves(script(i)) + RestMoves(SlotStep(s, script(i)), script, i + 1)
  }

  function PassMoves(c: Cluster, script: Script, i: nat): seq<Move> {
    SlotMoves(script(i)) + RestMoves(SlotStep(State(c, Idle, Stop), script(i)), script, i + 1)
  }

  lemma {:induction false} RunAppend(s: State, a: seq<Move>, b: seq<Move>)
    ensures Run(s, a + b) == Run(Run(s, a), b)
    decreases |a|
  {
    hide Step;
    if a == [] {
      assert a + b == b;
    } else {
      assert (a + b)[1..] == a[1..] + b;
      RunAppend(Step(s, a[0]), a[1..], b);
    }
  }

  lemma {:induction false} EnvMovesRun(s: State, events: seq<Event>)
    ensures Run(s, EnvMoves(events)) == s.(c := EnvRun(s.c, events))
    decreases |events|
  {
    hide EnvStep;
    if events != [] {
      assert EnvMoves(events)[1..] == EnvMoves(events[1..]);
      EnvMovesRun(Step(s, Env(events[0])), events[1..]);
    }
  }

  lemma SlotIsRun(s: State, slot: Slot)
    ensures Run(s, SlotMoves(slot)) == SlotStep(s, slot)
  {
    hide OpStep, EnvRun;
    EnvMovesRun(s, slot.before);
    RunAppend(s, EnvMoves(slot.before), [Op(slot.call)]);
    var s' := s.(c := EnvRun(s.c, slot.before));
    RunOne(s', Op(slot.call));
  }

  lemma RunOne(s: State, m: Move)
    ensures Run(s, [m]) == Step(s, m)
  {
    hide Step;
    assert [m][1..] == [];
  }

  lemma {:induction false} RestIsRun(s: State, script: Script, i: nat)
    ensures Run(s, RestMoves(s, script, i)) == Rest(s, script, i)
    decreases Rank(s.op)
  {
    hide SlotStep, SlotMoves, Run, Rank;
    if s.op.At? {
      SlotRank(s, script(i));
      var s' := SlotStep(s, script(i));
      SlotIsRun(s, script(i));
      RestIsRun(s', script, i + 1);
      RunAppend(s, SlotMoves(script(i)), RestMoves(s', script, i + 1));
    } else {
      RunNothing(s);
    }
  }

  lemma RunNothing(s: State)
    ensures Run(s, []) == s
  {
  }

  /** Whatever a pass does is a run of the protocol, so every invariant of runs holds after it. */
  lemma PassIsRun(s: State, script: Script, i: nat)
    requires s.op.Idle?
    ensures Run(s, PassMoves(s.c, script, i)) == Pass(s.c, script, i)
  {
    hide SlotMoves, Run, Rest, RestMoves, SlotStep;
    ReadIgnoresResult(s, script(i));
    SlotIsRun(s, script(i));
    RestIsRun(SlotStep(s, script(i)), script, i + 1);
    RunAppend(s, SlotMoves(script(i)), RestMoves(SlotStep(s, script(i)), script, i + 1));
  }

  lemma ReadIgnoresResult(s: State, slot: Slot)
    requires s.op.Idle?
    ensures SlotStep(s, slot) == SlotStep(State(s.c, Idle, Stop), slot)
  {
    hide Begin, EnvRun;
  }
}
