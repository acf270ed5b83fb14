/** Which calls a Catch takes, and when it stops refusing them. */
module Admission {
  import opened Artifacts
  import opened Transaction

  /** When a call begins something. A migration is applied only by a Catch that runs as the
      source, saw nothing unfinished, and has not begun one; a recovery is for a Catch that did
      see something, as long as the journal is not past the point of no return; finalizing and
      cleaning up are for the Catch of the target. */
  predicate Admits(plan: Plan, s: State, call: Call)
    requires s.proc.Up?
  {
    match call
    case Apply => (s.proc.config == Source || !plan.distinct) && !s.proc.blocked && s.log == []
    case Recover => s.proc.blocked && s.w.src.Some? && s.w.src.value.phase !in [CleanupPending, Complete]
    case Finalize =>
      && s.w.src.Some? && (plan.hasTarget ==> s.proc.config == Target && s.w.tgt.Some?)
      && s.w.src.value.phase in [CatchSwitched, Validated, CleanupPending]
    case Cleanup =>
      && s.proc.config == Target && plan.hasTarget && s.w.tgt.Some?
      && (s.w.tgt.value.phase == CleanupPending || (s.w.tgt.value.phase == Validated && s.w.tree != Gone))
  }

  /** A call that is taken begins its job and changes nothing else yet; one that is not changes
      nothing, except that finalizing what is complete lifts the block. */
  lemma CallStartsIff(plan: Plan, s: State, call: Call)
    requires s.proc.Up? && s.proc.job.None?
    ensures var t := Step(plan, s, Invoke(call));
            && t.w == s.w && t.log == s.log && t.proc.Up? && t.proc.config == s.proc.config
            && (t.proc.job.Some? <==> Admits(plan, s, call))
            && (t.proc.job.Some? ==> t.proc.duty == Serving(call) && t.proc.blocked == s.proc.blocked)
            && (t.proc.job.None? ==>
                  t == s || (call == Finalize && s.w.src.Some? && s.w.src.value.phase == Complete &&
                             t == s.(proc := s.proc.(blocked := false))))
  {
    hide ApplyCode, RollbackCode, FinalPhase;
  }

  /** The journal with which a call begins is the one it is about: a recovery and a finalization
      read the source's, a cleanup the target's. */
  lemma CallReads(plan: Plan, s: State, call: Call)
    requires s.proc.Up? && s.proc.job.None? && Admits(plan, s, call)
    ensures var job := Step(plan, s, Invoke(call)).proc.job;
            && job.Some? && job.value.runningAs == s.proc.config && !job.value.failed
            && match call
               case Apply => job.value.tx == FIRST && job.value.mode == Creating
               case Recover => Some(job.value.tx) == s.w.src && job.value.mode == Joined
               case Finalize => Some(job.value.tx) == s.w.src && job.value.mode == Finalizing
               case Cleanup => Some(job.value.tx) == s.w.tgt && job.value.mode == Cleaning
  {
    hide ApplyCode, RollbackCode, FinalPhase;
  }

  /** A job that comes to its end lifts the block if it was the completion of a hand-over at the
      start, a recovery whose journal says rolled-back under the source, or a finalization that
      did not turn into a rollback. */
  predicate Lifts(job: Job, duty: Duty) {
    || duty == StartingUp
    || (duty == Serving(Recover) && job.tx.phase == RolledBack && job.tx.authority == Source)
    || (duty == Serving(Finalize) && job.mode == Finalizing)
  }

  lemma EndLiftsIff(plan: Plan, s: State, o: Outcome)
    requires s.proc.Up? && s.proc.job.Some? && s.proc.job.value.code == []
    ensures var t := Step(plan, s, Exec(o));
            && t.w == s.w && t.log == s.log && t.proc.Up? && t.proc.job.None?
            && (t.proc.blocked <==> s.proc.blocked && !Lifts(s.proc.job.value, s.proc.duty))
  {
  }

  /** A job that is broken off lifts the block only if it was a recovery that got as far as
      rolled-back under the source, whatever its last write reported. */
  lemma BreakLiftsIff(plan: Plan, s: State, o: Outcome)
    requires s.proc.Up? && s.proc.job.Some? && s.proc.job.value.code != []
    requires Step(plan, s, Exec(o)).proc.job.None?
    ensures var job, t := s.proc.job.value, Step(plan, s, Exec(o));
            var tx := Perform(plan, job.code[0], s.w, job.tx, s.log, job.runningAs, o).tx;
            && t.proc.Up?
            && (t.proc.blocked <==>
                  s.proc.blocked &&
                  !(s.proc.duty == Serving(Recover) && tx.phase == RolledBack && tx.authority == Source))
  {
    hide Perform, RollbackCode;
  }

  /** A starting process runs as its unit says. It blocks changes exactly if it sees a journal
      and the source journal is gone or in a phase that needs recovery, and it completes a
      hand-over exactly if one is recorded and it runs as the source. */
  lemma StartBlocksIff(plan: Plan, s: State)
    requires s.proc.Down?
    ensures var t := Step(plan, s, Boot);
            var sees := if s.w.catchUnit == Target && plan.hasTarget then s.w.tgt.Some? else s.w.src.Some?;
            && t.w == s.w && t.log == s.log && t.proc.Up? && t.proc.config == s.w.catchUnit && t.proc.duty == StartingUp
            && (t.proc.blocked <==>
                  sees && (s.w.src.None? || s.w.src.value.phase !in [CleanupPending, Complete, RolledBack]))
            && (t.proc.job.Some? <==>
                  && sees && s.w.src.Some? && s.w.src.value.phase == SourceRestartPending
                  && (t.proc.config == Source || !plan.distinct))
            && (t.proc.job.Some? ==>
                  t.proc.job.value.tx == s.w.src.value &&
                  t.proc.job.value.code == [Persist(AdvanceTo(RolledBack, Source))])
  {
  }

  /** Cleaning up begins with the final check, in every request: one that does not pass, or finds
      other services running than before the migration, ends the request, and nothing is removed
      or written. */
  lemma RejectedCleanupChangesNothing(plan: Plan, s: State, o: Outcome)
    requires s.proc.Up? && s.proc.job.None? && Admits(plan, s, Cleanup)
    requires !o.ok || !Matches(plan, s.w.running, Tracked(plan, s.w.tgt.value))
    ensures var t := Step(plan, Step(plan, s, Invoke(Cleanup)), Exec(o));
            t.w == s.w && t.log == s.log && t.proc.Up? && t.proc.job.None? && t.proc.blocked == s.proc.blocked
  {
    CallReads(plan, s, Cleanup);
    CallStartsIff(plan, s, Cleanup);
    var t := Step(plan, s, Invoke(Cleanup));
    assert t.proc.job.value.code[0] == CheckFinal;
    hide Started, Matches, Tracked, FinalRollbackJob, RollbackJob;
  }

  /** Finalizing, too, begins with the final check: one that does not pass writes no validated,
      cleanup-pending or complete journal. */
  lemma RejectedFinalizeRecordsNothing(plan: Plan, s: State, o: Outcome)
    requires s.proc.Up? && s.proc.job.None? && Admits(plan, s, Finalize)
    requires !o.ok || !Matches(plan, s.w.running, Tracked(plan, s.w.src.value))
    ensures var t := Step(plan, Step(plan, s, Invoke(Finalize)), Exec(o));
            && t.w == s.w && t.log == s.log && t.proc.Up?
            && (t.proc.job.Some? <==> s.w.src.value.phase == CatchSwitched)
            && (t.proc.job.Some? ==> t.proc.job.value.mode == Joined && t.proc.job.value.tx == s.w.src.value)
  {
    CallReads(plan, s, Finalize);
    CallStartsIff(plan, s, Finalize);
    var t := Step(plan, s, Invoke(Finalize));
    assert t.proc.job.value.code[0] == CheckFinal;
    hide Started, Matches, Tracked, RollbackCode;
  }
}
