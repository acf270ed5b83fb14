/** Which reported errors stop the machine, what a stopped rollback leaves, and what looking up a
    service does on the way. */
module ErrorPolicy {
  import opened Artifacts
  import opened Ordering
  import opened Transaction
  import opened Safety
  import opened Recovery
  import opened Applying

  /** Exactly when an instruction fails. Unexpected services are stopped as well as possible;
      pending restarts, and units to be reloaded, matter only if there can be any; copies of the
      journal only where there is a place for them. The checks of the running services look at
      them, and a deferred restart of the source Catch is not yet one. */
  predicate Stopping(plan: Plan, i: Instr, w: World, tx: Tx, runningAs: Side, o: Outcome) {
    match i
    case Enter => false
    case Settle => false
    case RestoreAuthority => false
    case StopUnexpected(n) => false
    case MirrorPrepared => !o.ok && plan.hasTarget && !plan.zfs
    case Mirror => !o.ok && plan.hasTarget && (plan.zfs ==> w.targetRoot)
    case CancelRestarts => !o.ok && tx.authority == Target
    case Reload => !o.ok && plan.unitOrder != []
    case CheckFinal =>
      || !o.ok || (plan.distinct && runningAs == Source) || (plan.hasTarget && w.catchUnit == Source)
      || !AsBefore(plan, w, tx)
    case CheckRunning => !o.ok || !AsBefore(plan, w, tx)
    case RestartSource => !o.ok || o.scheduled
    case _ => !o.ok
  }

  /** Of all services that the migration has to do with, exactly those run that ran before. */
  predicate AsBefore(plan: Plan, w: World, tx: Tx) {
    && (forall n :: n in plan.previously ==> n in w.running)
    && (forall n :: n in tx.stopped + tx.restarted + plan.planned && n !in plan.previously ==> n !in w.running)
  }

  lemma MatchesIsAsBefore(plan: Plan, w: World, tx: Tx)
    ensures Matches(plan, w.running, Tracked(plan, tx)) <==> AsBefore(plan, w, tx)
  {
    assert forall n :: n in Tracked(plan, tx) <==>
             n in tx.stopped + tx.restarted + plan.planned || n in plan.previously;
  }

  lemma FailsIff(plan: Plan, i: Instr, w: World, tx: Tx, log: seq<Tx>, runningAs: Side, o: Outcome)
    ensures Perform(plan, i, w, tx, log, runningAs, o).control.Fail? <==> Stopping(plan, i, w, tx, runningAs, o)
  {
    MatchesIsAsBefore(plan, w, tx);
    LookUpKeepsServices(plan, w, log, o);
    hide Matches, Tracked, AsBefore, LookUp, Updated, AuthorityCode;
  }

  lemma LookUpKeepsServices(plan: Plan, w: World, log: seq<Tx>, o: Outcome)
    ensures LookUp(plan, w, log, o).0.running == w.running
    ensures AsBefore(plan, LookUp(plan, w, log, o).0, FIRST) <==> AsBefore(plan, w, FIRST)
  {
  }

  // ----- a rollback in which something has failed -----

  predicate FailedRollback(s: State) {
    s.proc.Up? && s.proc.job.Some? && s.proc.job.value.mode == Joined && s.proc.job.value.failed
    && AllHarmless(s.proc.job.value.code)
  }

  /** A rollback whose step fails goes on, but as a failed one. */
  lemma FailureIsRemembered(plan: Plan, s: State, o: Outcome)
    requires s.proc.Up? && s.proc.job.Some? && s.proc.job.value.code != []
    requires s.proc.job.value.mode == Joined && AllHarmless(s.proc.job.value.code)
    requires var job := s.proc.job.value; Stopping(plan, job.code[0], s.w, job.tx, job.runningAs, o)
    ensures FailedRollback(Step(plan, s, Exec(o)))
    ensures Step(plan, s, Exec(o)).proc.job.value.code == s.proc.job.value.code[1..]
  {
    var job := s.proc.job.value;
    FailsIff(plan, job.code[0], s.w, job.tx, s.log, job.runningAs, o);
    assert forall i :: i in job.code[1..] ==> i in job.code;
    hide Perform, Stopping, Harmless, RollbackCode;
  }

  lemma FailedStep(plan: Plan, s: State, o: Outcome)
    requires FailedRollback(s)
    ensures var t := Step(plan, s, Exec(o));
            t.proc.Up? && (t.proc.job.None? || FailedRollback(t))
  {
    var job := s.proc.job.value;
    if job.code != [] {
      var i, rest := job.code[0], job.code[1..];
      assert job.code == [i] + rest && Harmless(i);
      assert AllHarmless(rest);
      Leaves(plan, i, s.w, job.tx, s.log, job.runningAs, o);
      AuthorityHarmless(plan, job.runningAs);
      assert AllHarmless([Mirror]) && AllHarmless([MirrorPrepared]) && AllHarmless([]);
      var e := Perform(plan, i, s.w, job.tx, s.log, job.runningAs, o);
      hide Perform, AuthorityCode, Harmless, RollbackCode;
      if e.control.Next? {
        HarmlessConcat(e.control.extra, rest);
      }
      hide AllHarmless;
    }
  }

  /** However it goes on, a rollback in which a step has failed never comes to bringing Catch
      back and recording that all is rolled back. */
  lemma {:induction false} FailedRollbackStaysFailed(plan: Plan, s: State, os: seq<Outcome>)
    requires FailedRollback(s)
    ensures var t := Run(plan, s, Execs(os)); t.proc.Up? && (t.proc.job.None? || FailedRollback(t))
    decreases |os|
  {
    hide AllHarmless, Step;
    if os != [] {
      assert Execs(os)[1..] == Execs(os[1..]);
      FailedStep(plan, s, os[0]);
      var t := Step(plan, s, Exec(os[0]));
      if t.proc.job.None? {
        NothingMore(plan, t, os[1..]);
      } else {
        FailedRollbackStaysFailed(plan, t, os[1..]);
      }
    }
  }

  lemma {:induction false} NothingMore(plan: Plan, s: State, os: seq<Outcome>)
    requires s.proc.Up? && s.proc.job.None?
    ensures Run(plan, s, Execs(os)) == s
    decreases |os|
  {
    if os != [] {
      assert Execs(os)[1..] == Execs(os[1..]);
      NothingMore(plan, s, os[1..]);
    }
  }

  /** A copy of the journal that is written without an error is the journal in memory, wherever
      there is a place for it, and nothing else changes. */
  lemma CopiesAreWritten(plan: Plan, w: World, tx: Tx, log: seq<Tx>, runningAs: Side, o: Outcome)
    requires o.ok
    ensures var e := Perform(plan, MirrorPrepared, w, tx, log, runningAs, o);
            && e.w == (if plan.hasTarget && !plan.zfs then w.(tgt := Some(tx)) else w) && e.tx == tx && e.log == log
    ensures var e := Perform(plan, Mirror, w, tx, log, runningAs, o);
            && e.w == (if plan.hasTarget && (plan.zfs ==> w.targetRoot) then w.(tgt := Some(tx)) else w)
            && e.tx == tx && e.log == log
  {
  }

  /** A removal that is over has taken the tree and the source journal in it; one that is not
      leaves a part of the tree, with or without that journal. */
  lemma RemovalTakesTheTree(plan: Plan, w: World, tx: Tx, log: seq<Tx>, runningAs: Side, o: Outcome)
    ensures var e := Perform(plan, RemoveTree, w, tx, log, runningAs, o);
            && e.tx == tx && e.w.tgt == w.tgt
            && (e.control.Next? <==> o.ok && !o.again)
            && (e.control.Next? ==> e.w.tree == Gone && e.w.src.None?)
            && (!e.control.Next? && (o.ok || o.effect) ==>
                  e.w.tree == Partial && e.w.src == if o.lost then None else w.src)
            && (!o.ok && !o.effect ==> e.w == w)
  {
  }

  // ----- looking up a service -----

  predicate LooksUp(i: Instr) {
    i.Stop? || i.Start? || i.StopUnexpected? || i.CheckRunning?
  }

  /** Whatever instruction looks up a service: a recorded hand-over that is completed on the way
      is rolled back under the source in the source journal, and so in the target journal if
      that write succeeds, too; any other journal is left alone. */
  lemma LookingUpCompletesHandOver(plan: Plan, i: Instr, w: World, tx: Tx, log: seq<Tx>, runningAs: Side, o: Outcome)
    requires LooksUp(i)
    ensures var e := Perform(plan, i, w, tx, log, runningAs, o);
            if w.src.Some? && w.src.value.phase == SourceRestartPending && o.handoff then
              var done := w.src.value.(phase := RolledBack, authority := Source);
              && e.w.src == Some(done) && e.log == log + [done]
              && e.w.tgt == (if o.mirrored && plan.hasTarget && (plan.zfs ==> w.targetRoot) then Some(done) else w.tgt)
            else e.w.src == w.src && e.w.tgt == w.tgt && e.log == log
  {
    hide Matches, Tracked;
  }

  // ----- a migration that cannot be applied -----

  /** What an instruction of the running job does. */
  function Effects(plan: Plan, s: State, o: Outcome): Effect
    requires s.proc.Up? && s.proc.job.Some? && s.proc.job.value.code != []
  {
    var job := s.proc.job.value;
    Perform(plan, job.code[0], s.w, job.tx, s.log, job.runningAs, o)
  }

  lemma FailedApplyRollsBack(plan: Plan, s: State, o: Outcome)
    requires s.proc.Up? && s.proc.job.Some? && s.proc.job.value.code != [] && s.proc.job.value.mode == Applying
    requires var job := s.proc.job.value; Stopping(plan, job.code[0], s.w, job.tx, job.runningAs, o)
    ensures var t, e := Step(plan, s, Exec(o)), Effects(plan, s, o);
            && t.proc.Up? && t.proc.job == Some(RollbackJob(plan, e.tx, e.runningAs)) && t.w == e.w
  {
    var job := s.proc.job.value;
    FailsIff(plan, job.code[0], s.w, job.tx, s.log, job.runningAs, o);
    hide Perform, Stopping, RollbackCode;
  }

  lemma RollbackJobLandsIffClear(plan: Plan, t: State, tx: Tx, runningAs: Side, os: seq<Outcome>)
    requires ValidPlan(plan) && Inv(plan, t) && t.proc.Up? && t.proc.job == Some(RollbackJob(plan, tx, runningAs))
    requires t.proc.duty != Serving(Recover)
    requires AllSucceed(os) && |os| > Work(RollbackCode(plan, tx))
    ensures Landed(plan, Run(plan, t, Execs(os))) <==> Clear(plan, t.w.running)
    ensures Clear(plan, t.w.running) ==> Restored(plan, Run(plan, t, Execs(os)).w)
  {
    RollbackFacts(plan, t, tx, runningAs);
    hide RollbackCode, Work, Restored, Inv, Lands, Ahead, Matches, Booked;
    RollbackMatchesIffClear(plan, t.w.running, tx);
    if Clear(plan, t.w.running) {
      RollbackLandsAlone(plan, tx);
      assert OnCourse(plan, t);
      CourseRuns(plan, t, os, Work(RollbackCode(plan, tx)));
      LandedIsRestored(plan, Run(plan, t, Execs(os)));
    } else {
      RollbackStops(plan, tx);
      assert OffCourse(plan, t, tx);
      OffRuns(plan, t, tx, os);
    }
  }

  lemma RollbackFacts(plan: Plan, t: State, tx: Tx, runningAs: Side)
    requires Inv(plan, t) && t.proc.Up? && t.proc.job == Some(RollbackJob(plan, tx, runningAs))
    ensures Booked(plan, tx) && t.w.src.Some? && SamePos(t.w.src.value, tx) && Open(tx.phase)
  {
    hide RollbackCode, WorldOk, Legal, Body, Progress;
  }

  /** A migration whose application meets an error is rolled back at once: if the steps of the
      rollback succeed it lands over a restored host, exactly if no planned service runs that
      did not run before. */
  lemma FailedApplyLandsIffClear(plan: Plan, s: State, o: Outcome, os: seq<Outcome>)
    requires ValidPlan(plan) && Inv(plan, s) && s.proc.Up? && s.proc.job.Some? && s.proc.duty == Serving(Apply)
    requires s.proc.job.value.code != [] && s.proc.job.value.mode == Applying
    requires var job := s.proc.job.value; Stopping(plan, job.code[0], s.w, job.tx, job.runningAs, o)
    requires AllSucceed(os) && |os| > Work(RollbackCode(plan, Effects(plan, s, o).tx))
    ensures var t := Run(plan, Step(plan, s, Exec(o)), Execs(os));
            && (Landed(plan, t) <==> Clear(plan, Effects(plan, s, o).w.running))
            && (Landed(plan, t) ==> Restored(plan, t.w))
  {
    ApplyingStep(plan, s, o);
    FailedApplyRollsBack(plan, s, o);
    DutyStep(plan, s, o);
    hide Inv, RollbackCode, Work, Effects, Stopping, Clear, Restored, Landed, Run1;
    var e := Effects(plan, s, o);
    assert Step(plan, s, Exec(o)) == Run1(plan, s, o);
    RollbackJobLandsIffClear(plan, Step(plan, s, Exec(o)), e.tx, e.runningAs, os);
  }

  /** A migration whose first copy of the journal cannot be written is abandoned: the journal
      then says rolled-back, with a cause, unless that write fails, too. */
  lemma FailedCreationIsAbandoned(plan: Plan, s: State, o: Outcome, o': Outcome)
    requires s.proc.Up? && s.proc.job.Some? && s.proc.job.value.code != [] && s.proc.job.value.mode == Creating
    requires s.proc.job.value.code[0] == MirrorPrepared && !o.ok && plan.hasTarget && !plan.zfs
    ensures var t := Step(plan, Step(plan, s, Exec(o)), Exec(o'));
            && (o'.ok || o'.effect ==>
                  t.w.src.Some? && t.w.src.value.phase == RolledBack && t.w.src.value.cause
                  && t.log == s.log + [t.w.src.value])
            && (!o'.ok && !o'.effect ==> t.w.src == s.w.src && t.log == s.log && t.proc.job.None?)
  {
    hide RollbackCode;
    var s' := Step(plan, s, Exec(o));
    assert s'.proc.job == Some(Job([Abandon], s.proc.job.value.tx, Plain, false, s.proc.job.value.runningAs));
    assert [Abandon][1..] == [];
  }
}
