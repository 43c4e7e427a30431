/** A session can fail and recover: the operator itself brings a phase counted as ended back to an active one. */
module Recovery {
  import opened LabSessions
  import opened Protocol
  import opened ProtocolSafety
  import opened QuietPasses
  import Admission

  /** The read of a pass whose rendering of the session's configuration fails. */
  function FailingRead(message: string): Move {
    Op(ApiCall(0, Done, Some(message), false))
  }

  /** A session the server has created and the operator has taken up, well before its TTL. */
  predicate TakenUp(c: Cluster) {
    && c.cr.Some? && !c.cr.value.deleting && c.cr.value.finalizer && !c.cr.value.spec.paused
    && c.cr.value.status.phase != Paused
    && c.infra.vmi != Some(Crashed) && c.infra.vmi != Some(Finished)
    && (c.cr.value.spec.expiresAt == 0 || c.clock + 10 < c.cr.value.spec.expiresAt)
  }

  lemma FailingPass(s: State, message: string)
    requires s.op.Idle? && TakenUp(s.c) && s.c.cr.value.status.phase != Failed
    ensures var s' := Run(s, [FailingRead(message), Op(Quiet(false))]);
            && s'.op.Idle? && TakenUp(s'.c.(clock := s.c.clock)) && s'.c.clock == s.c.clock + 2
            && s'.c.cr.value.status.phase == Failed
  {
    hide Run;
    var m := FailingRead(message);
    RunCons(s, m, [Op(Quiet(false))]);
    RunCons(Step(s, m), Op(Quiet(false)), []);
    RunEnds(Step(Step(s, m), Op(Quiet(false))));
    assert [m] + [Op(Quiet(false))] == [m, Op(Quiet(false))];
    assert [Op(Quiet(false))] + [] == [Op(Quiet(false))];
  }

  lemma RunEnds(s: State)
    ensures Run(s, []) == s
  {
  }

  /** One pass with a configuration that cannot be rendered makes the session count as ended; the next one, with a
      configuration that can, makes it active again. */
  lemma FailsThenRecovers(s: State, message: string)
    requires s.op.Idle? && TakenUp(s.c) && s.c.cr.value.status.phase != Failed
    ensures var failed := Run(s, [FailingRead(message), Op(Quiet(false))]);
            && failed.op.Idle? && failed.c.cr.Some? && !Admission.Active(failed.c.cr.value.status.phase)
            && var c := QuietPass(failed.c, 0).c;
               c.cr.Some? && Admission.Active(c.cr.value.status.phase)
  {
    hide Run, QuietPass, Drain, AfterProvider;
    FailingPass(s, message);
    var c := Run(s, [FailingRead(message), Op(Quiet(false))]).c;
    var ls := c.cr.value;
    var f := Ensured(c.infra, ls.status.snapshotName);
    ConvergePass(c, 0, true);
    if f.vmi == Some(Up) {
      ServingTail(c.(clock := c.clock + 7, infra := f), ls, ServiceDNSOf(ls.spec.sessionID), true);
    } else {
      PendingTail(c.(clock := c.clock + 7, infra := f), ls, true);
    }
  }
}
