/** How late a teardown can be: every live pass books its successor so that the TTL is noticed in time. */
module Ttl {
  import opened LabSessions
  import opened Protocol
  import opened ProtocolSafety
  import opened Passes

  function Max(a: int, b: int): int {
    if a < b then b else a
  }

  /** The deadline as both the server and the pass under way know it. */
  predicate Deadline(s: State, expiry: int) {
    && (s.c.cr.Some? ==> s.c.cr.value.spec.expiresAt == expiry)
    && (s.op.At? ==> s.op.ls.spec.expiresAt == expiry)
  }

  /** Nobody moves the deadline during the pass. */
  predicate NoExpire(events: seq<Event>) {
    forall i :: 0 <= i < |events| ==> !(events[i].Server? && events[i].act.Expire?)
  }

  ghost predicate Steady(script: Script) {
    forall i: nat :: NoExpire(script(i).before)
  }

  /** A wake-up at least a second away, and no more than five seconds past the later of now and the deadline. */
  predicate Timely(s: State, expiry: int) {
    s.result.RequeueAfter? ==>
      SECOND <= s.result.delay && s.c.clock + s.result.delay <= Max(expiry, s.c.clock) + REQUEUE_WHILE_PENDING
  }

  lemma {:induction false} EnvKeepsDeadline(c: Cluster, events: seq<Event>, expiry: int)
    requires NoExpire(events)
    requires c.cr.Some? ==> c.cr.value.spec.expiresAt == expiry
    ensures var c' := EnvRun(c, events);
            c'.cr.Some? ==> c'.cr.value.spec.expiresAt == expiry
    decreases |events|
  {
    hide InfraStep, FieldMerge;
    if events != [] {
      EnvKeepsDeadline(EnvStep(c, events[0]), events[1..], expiry);
    }
  }

  lemma InfraTimely(c: Cluster, p: Point, ls: LabSession, k: ApiCall, expiry: int)
    requires expiry != 0 && Deadline(State(c, At(p, ls), Busy), expiry) && !WritesCr(p)
    ensures var s' := AfterInfra(c, p, ls, k); Deadline(s', expiry) && Timely(s', expiry)
  {
    hide ReportVmi, SnapshotNameOf;
  }

  lemma CrTimely(c: Cluster, p: Point, ls: LabSession, expiry: int)
    requires expiry != 0 && Deadline(State(c, At(p, ls), Busy), expiry) && WritesCr(p)
    ensures var s' := CrEffect(c, p, ls); Deadline(s', expiry) && Timely(s', expiry)
  {
    hide FieldMerge, Mutated, SnapshotNameOf;
  }

  lemma OpTimely(s: State, k: ApiCall, expiry: int)
    requires expiry != 0 && Deadline(s, expiry)
    ensures var s' := OpStep(s, k); Deadline(s', expiry) && Timely(s', expiry)
  {
    hide AfterInfra, CrEffect, InfraEffect, AfterProvider;
    var c := s.c.(clock := s.c.clock + 1 + k.wait);
    match s.op
    case Idle =>
      if c.cr.Some? {
        BeginTimely(c, c.cr.value, k, expiry);
      }
    case At(p, ls) =>
      if WritesCr(p) {
        CrTimely(c, p, ls, expiry);
      } else {
        InfraTimely(c.(infra := InfraEffect(c.infra, p, ls)), p, ls, k, expiry);
      }
  }

  lemma BeginTimely(c: Cluster, ls: LabSession, k: ApiCall, expiry: int)
    requires expiry != 0 && c.cr == Some(ls) && ls.spec.expiresAt == expiry
    ensures var s' := Begin(c, ls, k); Deadline(s', expiry) && Timely(s', expiry)
  {
  }

  lemma {:induction false} RestTimely(s: State, script: Script, i: nat, expiry: int)
    requires expiry != 0 && Deadline(s, expiry) && Timely(s, expiry) && Steady(script)
    ensures var s' := Rest(s, script, i); Deadline(s', expiry) && Timely(s', expiry)
    decreases Rank(s.op)
  {
    hide OpStep, EnvRun, Rank, Timely;
    if s.op.At? {
      SlotRank(s, script(i));
      EnvKeepsDeadline(s.c, script(i).before, expiry);
      OpTimely(s.(c := EnvRun(s.c, script(i).before)), script(i).call, expiry);
      RestTimely(SlotStep(s, script(i)), script, i + 1, expiry);
    }
  }

  /** Whatever fails and whoever interferes, a pass that asks to be called back is called back in time. */
  lemma PassTimely(c: Cluster, script: Script, i: nat, expiry: int)
    requires expiry != 0 && Steady(script)
    requires c.cr.Some? ==> c.cr.value.spec.expiresAt == expiry
    ensures var s' := Pass(c, script, i); Deadline(s', expiry) && Timely(s', expiry)
  {
    hide OpStep, EnvRun, Rest, Timely;
    EnvKeepsDeadline(c, script(i).before, expiry);
    OpTimely(State(EnvRun(c, script(i).before), Idle, Stop), script(i).call, expiry);
    RestTimely(SlotStep(State(c, Idle, Stop), script(i)), script, i + 1, expiry);
  }

  // ---------------------------------------------------------------- passes that book no successor

  /** The branches outside the finalizer and deletion ones that end without an error and without a requeue
      leave the session Paused or Expired. */
  predicate RestsIfStopped(s: State) {
    s.op.Idle? && s.result == Stop ==>
      s.c.cr.Some? && (s.c.cr.value.status.phase == Paused || s.c.cr.value.status.phase == Expired)
  }

  predicate OnLivePath(op: OpState) {
    op.At? ==> op.point != DropFinalizer && op.point != AddFinalizer && !Tearing(op.point, Deletion)
  }

  lemma OpRestsIfStopped(s: State, k: ApiCall)
    requires View(s) && s.op.At? && OnLivePath(s.op)
    ensures OnLivePath(OpStep(s, k).op) && RestsIfStopped(OpStep(s, k))
  {
    hide InfraEffect, ReportVmi, SnapshotNameOf, RequeueUntilExpiry;
  }

  lemma {:induction false} EnvRunKeepsView(s: State, events: seq<Event>)
    requires View(s)
    ensures View(s.(c := EnvRun(s.c, events)))
    decreases |events|
  {
    hide View, EnvStep;
    if events != [] {
      EnvKeepsView(s, events[0]);
      EnvRunKeepsView(s.(c := EnvStep(s.c, events[0])), events[1..]);
    }
  }

  lemma {:induction false} RestStops(s: State, script: Script, i: nat)
    requires View(s) && OnLivePath(s.op) && RestsIfStopped(s)
    ensures RestsIfStopped(Rest(s, script, i))
    decreases Rank(s.op)
  {
    hide View, OpStep, EnvRun, Rank, OnLivePath, RestsIfStopped;
    if s.op.At? {
      SlotRank(s, script(i));
      EnvRunKeepsView(s, script(i).before);
      var s1 := s.(c := EnvRun(s.c, script(i).before));
      OpRestsIfStopped(s1, script(i).call);
      OpKeepsView(s1, script(i).call);
      RestStops(SlotStep(s, script(i)), script, i + 1);
    }
  }

  lemma BeginRestsIfStopped(c: Cluster, k: ApiCall)
    requires CrFits(c) && c.cr.Some? && !c.cr.value.deleting && c.cr.value.finalizer
    ensures var s' := Begin(c, c.cr.value, k); OnLivePath(s'.op) && RestsIfStopped(s')
  {
  }

  /** A pass over a live session with its finalizer either fails, asks to be called back, or leaves it Paused or
      Expired. */
  lemma PassStops(c: Cluster, script: Script, i: nat)
    requires View(State(c, Idle, Stop))
    requires var c0 := EnvRun(c, script(i).before); c0.cr.Some? && !c0.cr.value.deleting && c0.cr.value.finalizer
    ensures RestsIfStopped(Pass(c, script, i))
  {
    hide View, Begin, EnvRun, OnLivePath, RestsIfStopped, Rest;
    EnvRunKeepsView(State(c, Idle, Stop), script(i).before);
    var s1 := State(EnvRun(c, script(i).before), Idle, Stop);
    ReadStops(s1, script(i).call);
    OpKeepsView(s1, script(i).call);
    RestStops(SlotStep(State(c, Idle, Stop), script(i)), script, i + 1);
  }

  lemma ReadStops(s: State, k: ApiCall)
    requires View(s) && s.op.Idle? && s.c.cr.Some? && !s.c.cr.value.deleting && s.c.cr.value.finalizer
    ensures OnLivePath(OpStep(s, k).op) && RestsIfStopped(OpStep(s, k))
  {
    hide Begin;
    BeginRestsIfStopped(s.c.(clock := s.c.clock + 1 + k.wait), k);
  }

  // ---------------------------------------------------------------- a chain of ideal wake-ups

  /** When the pass reads the CR and the clock. */
  function StartOf(c: Cluster, script: Script): int {
    EnvRun(c, script(0).before).clock + 1 + script(0).call.wait
  }

  /** Passes, each starting exactly when its predecessor asked, none longer than `longest`, and each of them up to
      the deadline ending in such a request. */
  ghost predicate Chain(c: Cluster, start: int, scripts: seq<Script>, expiry: int, longest: int)
    decreases |scripts|
  {
    scripts != [] ==>
      var s' := Pass(c, scripts[0], 0);
      && Steady(scripts[0]) && StartOf(c, scripts[0]) == start
      && s'.c.clock <= start + longest
      && (start <= expiry ==>
            s'.result.RequeueAfter? && Chain(s'.c, s'.c.clock + s'.result.delay, scripts[1..], expiry, longest))
  }

  /** The first start after the deadline. */
  function TeardownStart(c: Cluster, start: int, scripts: seq<Script>, expiry: int): Option<int>
    decreases |scripts|
  {
    if scripts == [] then None
    else if start > expiry then Some(start)
    else
      var s' := Pass(c, scripts[0], 0);
      if s'.result.RequeueAfter? then TeardownStart(s'.c, s'.c.clock + s'.result.delay, scripts[1..], expiry)
      else None
  }

  lemma {:induction false} RestAdvances(s: State, script: Script, i: nat)
    ensures Rest(s, script, i).c.clock >= s.c.clock
    decreases Rank(s.op)
  {
    hide OpStep, EnvRun, Rank;
    if s.op.At? {
      SlotRank(s, script(i));
      EnvAdvances(s.c, script(i).before);
      OpFrame(s.(c := EnvRun(s.c, script(i).before)), script(i).call);
      RestAdvances(SlotStep(s, script(i)), script, i + 1);
    }
  }

  lemma {:induction false} EnvAdvances(c: Cluster, events: seq<Event>)
    ensures EnvRun(c, events).clock >= c.clock
    decreases |events|
  {
    hide InfraStep, FieldMerge;
    if events != [] {
      EnvAdvances(EnvStep(c, events[0]), events[1..]);
    }
  }

  lemma PassAdvances(c: Cluster, script: Script)
    ensures Pass(c, script, 0).c.clock >= StartOf(c, script)
  {
    hide OpStep, EnvRun, Rest;
    OpFrame(State(EnvRun(c, script(0).before), Idle, Stop), script(0).call);
    RestAdvances(SlotStep(State(c, Idle, Stop), script(0)), script, 1);
  }

  /** The chain reaches the deadline, with wake-ups at least a second apart, and its first pass after it starts no
      later than the length of one pass and five seconds past it. */
  lemma {:induction false} TeardownIsPrompt(c: Cluster, start: int, scripts: seq<Script>, expiry: int, longest: nat)
    requires expiry != 0 && start <= expiry + longest + REQUEUE_WHILE_PENDING
    requires c.cr.Some? ==> c.cr.value.spec.expiresAt == expiry
    requires Chain(c, start, scripts, expiry, longest)
    requires start <= expiry ==> |scripts| * SECOND > expiry - start + SECOND
    requires scripts != []
    ensures var t := TeardownStart(c, start, scripts, expiry);
            t.Some? && expiry < t.value <= expiry + longest + REQUEUE_WHILE_PENDING
    decreases |scripts|
  {
    hide Pass, StartOf;
    if start <= expiry {
      var s' := Pass(c, scripts[0], 0);
      PassAdvances(c, scripts[0]);
      PassTimely(c, scripts[0], 0, expiry);
      TeardownIsPrompt(s'.c, s'.c.clock + s'.result.delay, scripts[1..], expiry, longest);
    }
  }
}
