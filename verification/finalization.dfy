/** Finalization: what a migration that has been switched over is recorded as, and who may
    ever record that the old tree is to go. */
module Finalization {
  import opened Artifacts
  import opened Ordering
  import opened Transaction
  import opened Safety
  import opened Recovery

  /** A process as which, and over a host on which, the final validation passes. */
  predicate Finalizable(plan: Plan, s: State) {
    && Inv(plan, s) && s.proc.Up? && s.proc.job.None? && s.w.src.Some?
    && RunsAs(plan, s.proc.config, Target) && Matches(plan, s.w.running, Tracked(plan, FIRST))
    && (plan.hasTarget ==> s.proc.config == Target && s.w.tgt.Some? && s.w.catchUnit == Target)
  }

  /** A finalization that has come to its check. */
  predicate Checking(plan: Plan, s: State) {
    && s.proc.Up? && s.proc.job.Some? && s.proc.duty == Serving(Finalize)
    && s.proc.job.value.mode == Finalizing && s.proc.job.value.code != [] && s.proc.job.value.code[0] == CheckFinal
    && RunsAs(plan, s.proc.job.value.runningAs, Target) && (plan.hasTarget ==> s.w.catchUnit == Target)
    && Matches(plan, s.w.running, Tracked(plan, s.proc.job.value.tx))
  }

  lemma CheckPasses(plan: Plan, s: State, o: Outcome)
    requires Checking(plan, s) && Succeeds(o)
    ensures var job := s.proc.job.value;
            Step(plan, s, Exec(o)) == s.(proc := s.proc.(job := Some(job.(code := job.code[1..]))))
  {
    assert [] + s.proc.job.value.code[1..] == s.proc.job.value.code[1..];
  }

  /** A process that finalizes, with this much left to do. */
  predicate Left(s: State, w: World, code: seq<Instr>, tx: Tx) {
    && s.proc.Up? && s.proc.duty == Serving(Finalize) && s.w == w && s.proc.job.Some?
    && s.proc.job.value.code == code && s.proc.job.value.tx == tx && s.proc.job.value.mode == Finalizing
  }

  lemma RecordsPhase(plan: Plan, s: State, w: World, tx: Tx, phase: Phase, o: Outcome)
    requires Left(s, w, [Persist(Advance(phase))], tx) && Succeeds(o)
    ensures Left(Step(plan, s, Exec(o)), w.(src := Some(tx.(phase := phase))), [Mirror], tx.(phase := phase))
  {
    assert [Mirror] + [Persist(Advance(phase))][1..] == [Mirror];
  }

  lemma MirrorsPhase(plan: Plan, s: State, w: World, tx: Tx, o: Outcome)
    requires Left(s, w, [Mirror], tx) && Succeeds(o)
    ensures Left(Step(plan, s, Exec(o)), if TargetReadable(plan, w) then w.(tgt := Some(tx)) else w, [], tx)
  {
    assert [] + [Mirror][1..] == [];
  }

  /** A finished finalization: nothing is running and nothing is blocked. */
  predicate Over(s: State, w: World) {
    s.proc.Up? && s.proc.job.None? && !s.proc.blocked && s.w == w
  }

  lemma EndsOver(plan: Plan, s: State, w: World, tx: Tx, o: Outcome)
    requires Left(s, w, [], tx)
    ensures Over(Step(plan, s, Exec(o)), w)
  {
  }

  lemma FourSteps(plan: Plan, s: State, os: seq<Outcome>)
    requires |os| >= 4
    ensures var t := Step(plan, Step(plan, Step(plan, Step(plan, s, Exec(os[0])), Exec(os[1])), Exec(os[2])),
                          Exec(os[3]));
            t.proc.Up? && t.proc.job.None? ==> Run(plan, s, Execs(os)) == t
  {
    hide Step;
    RunFirst(plan, s, os);
    var s1 := Step(plan, s, Exec(os[0]));
    RunFirst(plan, s1, os[1..]);
    var s2 := Step(plan, s1, Exec(os[1]));
    RunFirst(plan, s2, os[1..][1..]);
    var s3 := Step(plan, s2, Exec(os[2]));
    RunFirst(plan, s3, os[1..][1..][1..]);
    var s4 := Step(plan, s3, Exec(os[3]));
    if s4.proc.Up? && s4.proc.job.None? {
      IdleStays(plan, s4, os[1..][1..][1..][1..]);
    }
  }

  /** What a successful finalization records. A migration without a target is complete. One
      with a target leaves the old tree to be cleaned up if the plan allows that, and is
      merely validated if it does not. */
  lemma FinalizeRecords(plan: Plan, s: State, os: seq<Outcome>)
    requires ValidPlan(plan) && Finalizable(plan, s) && s.w.src.value.phase == CatchSwitched
    requires AllSucceed(os) && |os| >= 4
    ensures var t := Run(plan, Step(plan, s, Invoke(Finalize)), Execs(os));
            var phase := if !plan.hasTarget then Complete else if plan.cleanupAllowed then CleanupPending
                else Validated;
            var tx := s.w.src.value.(phase := phase);
            Over(t, s.w.(src := Some(tx), tgt := if plan.hasTarget then Some(tx) else s.w.tgt))
  {
    var tx := s.w.src.value;
    var s0 := Step(plan, s, Invoke(Finalize));
    FinalizeSetsOut(plan, s);
    hide Inv, FinalPhase, Matches;
    FourSteps(plan, s0, os);
    assert os[0] in os && os[1] in os && os[2] in os && os[3] in os;
    CheckPasses(plan, s0, os[0]);
    var s1 := Step(plan, s0, Exec(os[0]));
    RecordsPhase(plan, s1, s.w, tx, FinalPhase(plan), os[1]);
    var s2 := Step(plan, s1, Exec(os[1]));
    var tx' := tx.(phase := FinalPhase(plan));
    MirrorsPhase(plan, s2, s.w.(src := Some(tx')), tx', os[2]);
    var s3 := Step(plan, s2, Exec(os[2]));
    EndsOver(plan, s3, s3.w, tx', os[3]);
    FinalPhaseIs(plan);
  }

  lemma FinalPhaseIs(plan: Plan)
    ensures FinalPhase(plan) == if !plan.hasTarget then Complete else if plan.cleanupAllowed then CleanupPending
            else Validated
  {
  }

  lemma FinalizeSetsOut(plan: Plan, s: State)
    requires ValidPlan(plan) && Finalizable(plan, s) && s.w.src.value.phase == CatchSwitched
    ensures var t := Step(plan, s, Invoke(Finalize));
            && Checking(plan, t) && t.w == s.w && t.log == s.log
            && Left(t, s.w, [CheckFinal] + [Persist(Advance(FinalPhase(plan)))], s.w.src.value)
            && [CheckFinal] + [Persist(Advance(FinalPhase(plan)))] != []
            && ([CheckFinal] + [Persist(Advance(FinalPhase(plan)))])[1..] == [Persist(Advance(FinalPhase(plan)))]
            && (TargetReadable(plan, s.w) <==> plan.hasTarget)
  {
    assert s.w.src.value in s.log;
    BookedTracks(plan, s.w.src.value);
    assert [CheckFinal] + [Persist(Advance(FinalPhase(plan)))] == [CheckFinal, Persist(Advance(FinalPhase(plan)))];
  }

  /** Finalizing again changes nothing and lifts the block. */
  lemma FinalizeAgain(plan: Plan, s: State, os: seq<Outcome>)
    requires ValidPlan(plan) && Finalizable(plan, s) && AllSucceed(os) && |os| >= 2
    requires var p := s.w.src.value.phase; p == Validated || p == CleanupPending || p == Complete
    ensures Over(Run(plan, Step(plan, s, Invoke(Finalize)), Execs(os)), s.w)
  {
    var s0 := Step(plan, s, Invoke(Finalize));
    if s.w.src.value.phase == Complete {
      CompleteIsOver(plan, s);
      IdleStays(plan, s0, os);
    } else {
      AgainSetsOut(plan, s);
      hide Inv, Matches;
      assert os[0] in os;
      CheckPasses(plan, s0, os[0]);
      RunFirst(plan, s0, os);
      var s1 := Step(plan, s0, Exec(os[0]));
      EndsOver(plan, s1, s.w, s.w.src.value, os[1]);
      RunFirst(plan, s1, os[1..]);
      IdleStays(plan, Step(plan, s1, Exec(os[1])), os[1..][1..]);
    }
  }

  lemma CompleteIsOver(plan: Plan, s: State)
    requires Finalizable(plan, s) && s.w.src.value.phase == Complete
    ensures Over(Step(plan, s, Invoke(Finalize)), s.w)
  {
    assert s.w.src.value in s.log;
  }

  lemma AgainSetsOut(plan: Plan, s: State)
    requires ValidPlan(plan) && Finalizable(plan, s)
    requires s.w.src.value.phase == Validated || s.w.src.value.phase == CleanupPending
    ensures var t := Step(plan, s, Invoke(Finalize));
            Checking(plan, t) && Left(t, s.w, [CheckFinal], s.w.src.value) && [CheckFinal][1..] == []
  {
    assert s.w.src.value in s.log;
    BookedTracks(plan, s.w.src.value);
  }

  /** Once a migration has been validated, a final validation that does not pass rolls
      nothing back: everything stays as it was. */
  lemma LateRejectKeeps(plan: Plan, s: State, check: Outcome)
    requires s.proc.Up? && s.proc.job.None? && s.w.src.Some?
    requires s.w.src.value.phase == Validated || s.w.src.value.phase == CleanupPending
    requires var t := Step(plan, s, Invoke(Finalize)); t.proc.job.Some? ==> Rejects(plan, t, check)
    ensures var t := Step(plan, Step(plan, s, Invoke(Finalize)), Exec(check));
            t.w == s.w && t.log == s.log && t.proc.Up? && t.proc.job.None? && t.proc.blocked == s.proc.blocked
  {
    hide Matches, FinalRollbackJob;
  }

  // ----- who may record that the old tree is to go -----

  predicate Tells(i: Instr) {
    i.Persist? && (i.u.Advance? || i.u.AdvanceTo?) && i.u.phase == CleanupPending
  }

  predicate Untold(tx: Tx) {
    tx.phase != CleanupPending
  }

  /** No version of either journal says cleanup-pending, and no running job will write one. */
  predicate Quiet(s: State) {
    && (forall v :: v in s.log ==> Untold(v))
    && (s.w.src.Some? ==> Untold(s.w.src.value)) && (s.w.tgt.Some? ==> Untold(s.w.tgt.value))
    && (s.proc.Up? && s.proc.job.Some? ==> QuietJob(s.proc.job.value))
  }

  predicate QuietJob(job: Job) {
    Untold(job.tx) && forall i :: i in job.code ==> !Tells(i)
  }

  predicate QuietEffect(e: Effect) {
    && Untold(e.tx) && (forall v :: v in e.log ==> Untold(v))
    && (e.w.src.Some? ==> Untold(e.w.src.value)) && (e.w.tgt.Some? ==> Untold(e.w.tgt.value))
    && (e.control.Next? ==> forall i :: i in e.control.extra ==> !Tells(i))
  }

  lemma QuietWrite(log: seq<Tx>, tx: Tx)
    requires Untold(tx) && forall v :: v in log ==> Untold(v)
    ensures forall v :: v in log + [tx] ==> Untold(v)
  {
  }

  lemma QuietPersist(plan: Plan, u: Update, w: World, tx: Tx, log: seq<Tx>, runningAs: Side, o: Outcome)
    requires !Tells(Persist(u)) && Untold(tx) && forall v :: v in log ==> Untold(v)
    requires (w.src.Some? ==> Untold(w.src.value)) && (w.tgt.Some? ==> Untold(w.tgt.value))
    ensures QuietEffect(Perform(plan, Persist(u), w, tx, log, runningAs, o))
  {
    QuietWrite(log, Updated(u, tx));
  }

  lemma QuietLookUp(plan: Plan, w: World, log: seq<Tx>, o: Outcome)
    requires (w.src.Some? ==> Untold(w.src.value)) && (w.tgt.Some? ==> Untold(w.tgt.value))
    requires forall v :: v in log ==> Untold(v)
    ensures var (w', log') := LookUp(plan, w, log, o);
            && (w'.src.Some? ==> Untold(w'.src.value)) && (w'.tgt.Some? ==> Untold(w'.tgt.value))
            && (forall v :: v in log' ==> Untold(v))
  {
  }

  predicate LooksUp(i: Instr) {
    i.Stop? || i.Start? || i.StopUnexpected? || i == CheckRunning
  }

  lemma QuietLook(plan: Plan, i: Instr, w: World, tx: Tx, log: seq<Tx>, runningAs: Side, o: Outcome)
    requires LooksUp(i) && Untold(tx) && forall v :: v in log ==> Untold(v)
    requires (w.src.Some? ==> Untold(w.src.value)) && (w.tgt.Some? ==> Untold(w.tgt.value))
    ensures QuietEffect(Perform(plan, i, w, tx, log, runningAs, o))
  {
    QuietLookUp(plan, w, log, o);
    hide LookUp, Matches;
    if i.Stop? {
    } else if i.Start? {
    } else if i.StopUnexpected? {
    } else {
      assert i == CheckRunning;
    }
  }

  /** What the rest can do to the journals. */
  lemma RestOfJournals(plan: Plan, i: Instr, w: World, tx: Tx, log: seq<Tx>, runningAs: Side, o: Outcome)
    requires !i.Persist? && !LooksUp(i) && i != RestoreAuthority
    ensures var e := Perform(plan, i, w, tx, log, runningAs, o);
            && (e.tx == tx || e.tx.phase == RolledBack || e.tx.phase == Complete)
            && (e.log == log || e.log == log + [e.tx])
            && (e.w.src == w.src || e.w.src.None? || e.w.src == Some(e.tx))
            && (e.w.tgt == w.tgt || e.w.tgt == w.src || e.w.tgt == Some(tx) ||
                (e.w.tgt.Some? && e.w.tgt.value.phase == Complete))
            && (e.control.Next? ==> e.control.extra == [] || e.control.extra == [MirrorPrepared])
  {
    hide Matches, Updated, AuthorityCode, LookUp;
    if i == Create {
    } else if i == Abandon {
    } else if i == RemoveTree {
    } else if i == RecordComplete {
    } else if i == CopyData {
    } else if i == CheckFinal {
    } else if i == Mirror || i == MirrorPrepared {
    } else {
      assert i.Enter? || i.CreateTarget? || i.Mutate? || i.InstallCatch? || i.RestartTarget? || i.CheckApply? ||
             i.CancelRestarts? || i.RestoreUnit? || i.RestoreDatabase? || i.Reload? || i.Settle? || i.RestartSource?;
    }
  }

  lemma QuietPerform(plan: Plan, i: Instr, w: World, tx: Tx, log: seq<Tx>, runningAs: Side, o: Outcome)
    requires !Tells(i) && Untold(tx) && forall v :: v in log ==> Untold(v)
    requires (w.src.Some? ==> Untold(w.src.value)) && (w.tgt.Some? ==> Untold(w.tgt.value))
    ensures QuietEffect(Perform(plan, i, w, tx, log, runningAs, o))
  {
    hide Perform;
    if i.Persist? {
      QuietPersist(plan, i.u, w, tx, log, runningAs, o);
    } else if LooksUp(i) {
      QuietLook(plan, i, w, tx, log, runningAs, o);
    } else if i == RestoreAuthority {
      AuthorityFacts(plan, w, tx, log, runningAs, o);
      AuthorityLog(plan, w, tx, log, runningAs, o);
    } else {
      RestOfJournals(plan, i, w, tx, log, runningAs, o);
      QuietWrite(log, Perform(plan, i, w, tx, log, runningAs, o).tx);
    }
  }

  lemma AuthorityLog(plan: Plan, w: World, tx: Tx, log: seq<Tx>, runningAs: Side, o: Outcome)
    ensures Perform(plan, RestoreAuthority, w, tx, log, runningAs, o).log == log
  {
  }

  lemma QuietRollbackCode(plan: Plan, tx: Tx)
    ensures forall i :: i in RollbackCode(plan, tx) ==> !Tells(i)
  {
    RollbackSplit(plan, tx);
    assert forall i :: BodyInstr(i) ==> !Tells(i);
    assert forall i :: i in CHECKED ==> !Tells(i);
    hide RollbackCode, Collected, Tells, BodyInstr;
    QuietBoth(Collected(plan, tx), CHECKED);
  }

  lemma QuietUnexpected(names: seq<string>)
    ensures forall i :: i in Unexpected(names) ==> !Tells(i)
  {
    ListKinds(names);
  }

  lemma QuietRollback(plan: Plan, tx: Tx, runningAs: Side)
    requires Untold(tx)
    ensures QuietJob(RollbackJob(plan, tx, runningAs)) && QuietJob(FinalRollbackJob(plan, tx, runningAs))
  {
    hide RollbackCode, Unexpected, UniqueSorted, Tells;
    var names := UniqueSorted(tx.stopped + plan.planned);
    QuietRollbackCode(plan, tx);
    QuietUnexpected(names);
    QuietBoth(Unexpected(names), RollbackCode(plan, tx));
  }

  lemma QuietBoth(a: seq<Instr>, b: seq<Instr>)
    requires (forall i :: i in a ==> !Tells(i)) && (forall i :: i in b ==> !Tells(i))
    ensures forall i :: i in a + b ==> !Tells(i)
  {
    hide Tells;
  }

  /** What a job can go on with. */
  lemma ContinueCode(plan: Plan, s: State, e: Effect)
    requires s.proc.Up? && s.proc.job.Some? && s.proc.job.value.code != []
    ensures var t := Continue(plan, s, e);
            && t.w == e.w && t.log == e.log
            && (t.proc.Up? && t.proc.job.Some? ==>
                  var job, code := t.proc.job.value, s.proc.job.value.code;
                  || job == RollbackJob(plan, e.tx, e.runningAs) || job == FinalRollbackJob(plan, e.tx, e.runningAs)
                  || (job.tx == e.tx &&
                      (job.code == [] || job.code == code || job.code == code[1..] || job.code == [Abandon] ||
                       (e.control.Next? && job.code == e.control.extra + code[1..]))))
  {
    hide RollbackJob, FinalRollbackJob;
  }

  lemma QuietContinues(plan: Plan, s: State, e: Effect)
    requires Quiet(s) && s.proc.Up? && s.proc.job.Some? && s.proc.job.value.code != [] && QuietEffect(e)
    ensures Quiet(Continue(plan, s, e))
  {
    var code := s.proc.job.value.code;
    ContinueCode(plan, s, e);
    QuietRollback(plan, e.tx, e.runningAs);
    assert forall i :: i in code[1..] ==> i in code;
    assert !Tells(Abandon);
    hide RollbackJob, FinalRollbackJob, Tells, Continue, Untold;
    if e.control.Next? {
      QuietBoth(e.control.extra, code[1..]);
    }
  }

  lemma QuietApply(plan: Plan)
    ensures forall i :: i in ApplyCode(plan) ==> !Tells(i)
  {
    ApplyLegal(plan);
    var rest := ApplyCode(plan)[2..];
    assert ApplyCode(plan) == [Create, Enter] + rest;
    assert forall i :: ApplyInstr(plan, i) ==> !Tells(i);
    assert !Tells(Create) && !Tells(Enter);
    hide ApplyCode, ApplyInstr, Tells;
    QuietBoth([Create, Enter], rest);
  }

  lemma QuietStarts(plan: Plan, s: State, call: Call)
    requires !plan.cleanupAllowed && Quiet(s) && s.proc.Up? && s.proc.job.None? && call != Cleanup
    ensures Quiet(Started(plan, s, call))
  {
    match call
    case Apply =>
      QuietApply(plan);
      hide ApplyCode, Tells;
    case Recover =>
      if s.w.src.Some? {
        QuietRollback(plan, s.w.src.value, s.proc.config);
        hide RollbackJob, Tells;
      }
    case Finalize =>
    case Cleanup =>
  }

  lemma QuietStep(plan: Plan, s: State, a: Action)
    requires !plan.cleanupAllowed && Quiet(s) && a != Invoke(Cleanup)
    ensures Quiet(Step(plan, s, a))
  {
    match a
    case Crash =>
    case Boot =>
    case Invoke(call) =>
      if s.proc.Up? && s.proc.job.None? {
        QuietStarts(plan, s, call);
      }
    case Exec(o) =>
      if s.proc.Up? && s.proc.job.Some? && s.proc.job.value.code != [] {
        var job := s.proc.job.value;
        assert job.code[0] in job.code;
        QuietPerform(plan, job.code[0], s.w, job.tx, s.log, job.runningAs, o);
        hide Perform;
        QuietContinues(plan, s, Perform(plan, job.code[0], s.w, job.tx, s.log, job.runningAs, o));
      }
  }

  lemma {:induction false} QuietRuns(plan: Plan, s: State, acts: seq<Action>)
    requires !plan.cleanupAllowed && Quiet(s) && Invoke(Cleanup) !in acts
    ensures Quiet(Run(plan, s, acts))
    decreases |acts|
  {
    if acts != [] {
      assert acts[0] in acts && Invoke(Cleanup) !in acts[1..];
      QuietStep(plan, s, acts[0]);
      QuietRuns(plan, Step(plan, s, acts[0]), acts[1..]);
    }
  }

  /** If the plan does not allow the old tree to be cleaned up, nothing but a request for
      cleanup ever makes a journal say cleanup-pending: no finalization, crash, restart,
      rollback or recovery, asked for again or not. */
  lemma OnlyCleanupTells(plan: Plan, s0: State, acts: seq<Action>)
    requires Initial(plan, s0) && !plan.cleanupAllowed && Invoke(Cleanup) !in acts
    ensures var s := Run(plan, s0, acts);
            && (forall v :: v in s.log ==> v.phase != CleanupPending)
            && (s.w.src.Some? ==> s.w.src.value.phase != CleanupPending)
            && (s.w.tgt.Some? ==> s.w.tgt.value.phase != CleanupPending)
  {
    QuietRuns(plan, s0, acts);
  }
}
