/** Cleanup of the old tree: from every crash point it can be run again and reaches the end,
    exactly when the target journal has been told that the migration was finalized. */
module SourceCleanup {
  import opened Artifacts
  import opened Transaction
  import opened Safety
  import opened Recovery
  import opened Reentry

  /** The target journal authorizes cleanup. */
  predicate Authorizes(tx: Tx) {
    tx.phase == Validated || tx.phase == CleanupPending
  }

  predicate Cleaned(w: World) {
    w.tgt.Some? && w.tgt.value.phase == Complete && w.tree == Gone
  }

  /** A process on the target for which the final validation passes. */
  predicate Passing(plan: Plan, s: State) {
    && Inv(plan, s) && plan.hasTarget && s.proc.Up? && s.proc.config == Target && s.proc.job.None?
    && s.w.tgt.Some? && s.w.catchUnit == Target && Matches(plan, s.w.running, Tracked(plan, FIRST))
  }

  // ----- the way to the end -----

  predicate OnTheWay(plan: Plan, s: State) {
    && Inv(plan, s) && s.proc.Up? && s.proc.job.Some? && s.proc.job.value.mode == Cleaning
    && var job := s.proc.job.value;
    && (job.code == [] ==> Cleaned(s.w))
    && (job.code != [] && job.code[0] == CheckFinal ==>
          job.runningAs == Target && s.w.catchUnit == Target && Matches(plan, s.w.running, Tracked(plan, job.tx)))
  }

  lemma CleaningPerforms(plan: Plan, i: Instr, w: World, tx: Tx, log: seq<Tx>, runningAs: Side, o: Outcome)
    requires i == CheckFinal || i == Persist(Advance(CleanupPending)) || i == Mirror || i == RemoveTree ||
             i == RecordComplete
    requires Succeeds(o)
    requires i == CheckFinal ==>
               runningAs == Target && w.catchUnit == Target && Matches(plan, w.running, Tracked(plan, tx))
    ensures var e := Perform(plan, i, w, tx, log, runningAs, o);
            && e.control == Next(if i.Persist? then [Mirror] else [])
            && (i == RecordComplete ==> e.w.tgt.Some? && e.w.tgt.value.phase == Complete)
  {
  }

  lemma CleaningCode(plan: Plan, s: State)
    requires OnTheWay(plan, s) && s.proc.job.value.code != []
    ensures var code := s.proc.job.value.code;
            && (code[0] == CheckFinal || code[0] == Persist(Advance(CleanupPending)) || code[0] == Mirror ||
                code[0] == RemoveTree || code[0] == RecordComplete)
            && (code[0] == RecordComplete <==> code[1..] == [])
            && CheckFinal !in code[1..]
  {
  }

  lemma CleaningGoesOn(plan: Plan, s: State, e: Effect)
    requires s.proc.Up? && s.proc.job.Some? && s.proc.job.value.mode == Cleaning && s.proc.job.value.code != []
    requires Inv(plan, Continue(plan, s, e))
    requires var code := s.proc.job.value.code;
             && code[0] != Settle && code[0] != Enter && CheckFinal !in code[1..]
             && (code[1..] == [] ==> code[0] == RecordComplete)
             && e.control == Next(if code[0].Persist? then [Mirror] else [])
             && (code[0] == RecordComplete ==> e.w.tgt.Some? && e.w.tgt.value.phase == Complete)
    ensures var t := Continue(plan, s, e);
            OnTheWay(plan, t) && Work(t.proc.job.value.code) < Work(s.proc.job.value.code)
  {
    hide Inv, Work, Continue, Matches;
    var code := s.proc.job.value.code;
    Costs(Mirror, code[1..]);
    assert [] + code[1..] == code[1..];
    assert code == [code[0]] + code[1..];
    Costs(code[0], code[1..]);
    GoesOn(plan, s, e);
    if code[0] == RecordComplete {
      CompleteIsGone(plan, Continue(plan, s, e));
    }
  }

  lemma CompleteIsGone(plan: Plan, s: State)
    requires Inv(plan, s) && s.w.tgt.Some? && s.w.tgt.value.phase == Complete
    ensures Cleaned(s.w)
  {
    hide History, Agreement, JobOk;
  }

  lemma OneOnTheWay(plan: Plan, s: State, o: Outcome)
    requires ValidPlan(plan) && OnTheWay(plan, s) && s.proc.job.value.code != [] && Succeeds(o)
    ensures var t := Step(plan, s, Exec(o));
            OnTheWay(plan, t) && Work(t.proc.job.value.code) < Work(s.proc.job.value.code)
  {
    var job := s.proc.job.value;
    StepKeeps(plan, s, Exec(o));
    CleaningCode(plan, s);
    CleaningPerforms(plan, job.code[0], s.w, job.tx, s.log, job.runningAs, o);
    CleaningGoesOn(plan, s, Perform(plan, job.code[0], s.w, job.tx, s.log, job.runningAs, o));
  }

  lemma {:induction false} TheWayEnds(plan: Plan, s: State, os: seq<Outcome>, work: nat)
    requires ValidPlan(plan) && OnTheWay(plan, s) && AllSucceed(os)
    requires Work(s.proc.job.value.code) <= work < |os|
    ensures Cleaned(Run(plan, s, Execs(os)).w)
    decreases work
  {
    RunFirst(plan, s, os);
    assert os[0] in os && forall o :: o in os[1..] ==> o in os;
    var t := Step(plan, s, Exec(os[0]));
    if s.proc.job.value.code == [] {
      IdleStays(plan, t, os[1..]);
    } else {
      OneOnTheWay(plan, s, os[0]);
      TheWayEnds(plan, t, os[1..], work - 1);
    }
  }

  lemma CleanupSetsOut(plan: Plan, s: State)
    requires ValidPlan(plan) && Passing(plan, s) && Authorizes(s.w.tgt.value)
    ensures OnTheWay(plan, Started(plan, s, Cleanup)) && Work(Started(plan, s, Cleanup).proc.job.value.code) <= 5
  {
    var tx := s.w.tgt.value;
    assert tx in s.log;
    BookedTracks(plan, tx);
    CleanupStarts(plan, s);
    CleanupWork();
  }

  lemma CleanupWork()
    ensures Work([CheckFinal, Persist(Advance(CleanupPending)), RemoveTree, RecordComplete]) == 5
    ensures Work([CheckFinal] + [RemoveTree] + [RecordComplete]) == 3
    ensures Work([CheckFinal] + [] + [RecordComplete]) == 2
  {
    Costs(RecordComplete, []);
    Costs(RemoveTree, [RecordComplete]);
    Costs(Persist(Advance(CleanupPending)), [RemoveTree, RecordComplete]);
    Costs(CheckFinal, [Persist(Advance(CleanupPending)), RemoveTree, RecordComplete]);
    Costs(CheckFinal, [RemoveTree, RecordComplete]);
    Costs(CheckFinal, [RecordComplete]);
    assert [RecordComplete] == [RecordComplete] + [];
    assert [RemoveTree, RecordComplete] == [RemoveTree] + [RecordComplete];
    assert [Persist(Advance(CleanupPending)), RemoveTree, RecordComplete]
        == [Persist(Advance(CleanupPending))] + [RemoveTree, RecordComplete];
    assert [CheckFinal, Persist(Advance(CleanupPending)), RemoveTree, RecordComplete]
        == [CheckFinal] + [Persist(Advance(CleanupPending)), RemoveTree, RecordComplete];
    assert [CheckFinal] + [RemoveTree] + [RecordComplete] == [CheckFinal] + [RemoveTree, RecordComplete];
    assert [CheckFinal] + [] + [RecordComplete] == [CheckFinal] + [RecordComplete];
  }

  /** Whatever crash point cleanup is resumed from (before, during or after the removal, with
      or without the source journal), a run whose steps succeed reaches the end exactly when
      the target journal authorizes cleanup or already says complete. */
  lemma CleanupEndsIffAuthorized(plan: Plan, s: State, os: seq<Outcome>)
    requires ValidPlan(plan) && Passing(plan, s) && AllSucceed(os) && |os| > 5
    ensures Cleaned(Run(plan, Step(plan, s, Invoke(Cleanup)), Execs(os)).w) <==>
            Authorizes(s.w.tgt.value) || s.w.tgt.value.phase == Complete
  {
    if Authorizes(s.w.tgt.value) {
      CleanupSetsOut(plan, s);
      TheWayEnds(plan, Started(plan, s, Cleanup), os, 5);
    } else {
      IdleStays(plan, s, os);
    }
  }

  // ----- a finalization cut in two -----

  /** The source journal says cleanup-pending, which ends the transaction for everybody who
      asks it, but the target journal was never told. */
  predicate Stranded(plan: Plan, s: State) {
    && plan.hasTarget && s.log != []
    && s.w.src.Some? && s.w.src.value.phase == CleanupPending
    && s.w.tgt.Some? && !Authorizes(s.w.tgt.value)
    && (s.proc.Up? ==> !s.proc.blocked)
    && (s.proc.Up? && s.proc.job.Some? ==>
          var job := s.proc.job.value;
          job.mode == Finalizing && job.tx.phase == CleanupPending && (job.code == [] || job.code == [CheckFinal]))
  }

  lemma StrandedStep(plan: Plan, s: State, a: Action)
    requires Stranded(plan, s)
    ensures Stranded(plan, Step(plan, s, a)) && Step(plan, s, a).w == s.w
  {
    if a.Exec? && s.proc.Up? && s.proc.job.Some? && s.proc.job.value.code != [] {
      var job := s.proc.job.value;
      hide Perform, Authorizes;
      CheckEffect(plan, s.w, job.tx, s.log, job.runningAs, a.o);
      assert [] + job.code[1..] == [];
    } else {
      hide Perform, RollbackCode, ApplyCode;
    }
  }

  /** Nothing changes a stranded migration any more: no crash, restart or request. */
  lemma {:induction false} StrandedForever(plan: Plan, s: State, acts: seq<Action>)
    requires Stranded(plan, s)
    ensures Run(plan, s, acts).w == s.w
    decreases |acts|
  {
    if acts != [] {
      StrandedStep(plan, s, acts[0]);
      StrandedForever(plan, Step(plan, s, acts[0]), acts[1..]);
    }
  }

  /** Once the source journal says cleanup-pending, a restarted Catch can reach the end of
      cleanup exactly when the target journal authorizes it. */
  lemma CleanupReachableIffAuthorized(plan: Plan, s: State)
    requires ValidPlan(plan) && Passing(plan, s)
    requires s.w.src.Some? && s.w.src.value.phase == CleanupPending
    ensures (exists acts: seq<Action> :: Cleaned(Run(plan, Step(plan, s, Crash), acts).w)) <==>
            Authorizes(s.w.tgt.value)
  {
    var down := Step(plan, s, Crash);
    if Authorizes(s.w.tgt.value) {
      CleanedAfterRestart(plan, s);
    } else {
      assert s.w.src.value in s.log;
      forall acts: seq<Action> ensures !Cleaned(Run(plan, down, acts).w) {
        StrandedForever(plan, down, acts);
      }
    }
  }

  lemma CleanedAfterRestart(plan: Plan, s: State)
    requires ValidPlan(plan) && Passing(plan, s) && s.w.src.Some? && Authorizes(s.w.tgt.value)
    ensures exists acts: seq<Action> :: Cleaned(Run(plan, Step(plan, s, Crash), acts).w)
  {
    hide Authorizes, Cleaned;
    var os := [FINE, FINE, FINE, FINE, FINE, FINE];
    var down := Step(plan, s, Crash);
    var up := Step(plan, down, Boot);
    BootKeeps(plan, down);
    RestartPasses(plan, s);
    CleanupEndsIffAuthorized(plan, up, os);
    var acts := [Invoke(Cleanup)] + Execs(os);
    RunOne(plan, up, acts, Execs(os));
    RunOne(plan, down, [Boot] + acts, acts);
    assert Cleaned(Run(plan, down, [Boot] + acts).w);
  }

  lemma RestartPasses(plan: Plan, s: State)
    requires ValidPlan(plan) && Passing(plan, s) && Inv(plan, Step(plan, Step(plan, s, Crash), Boot))
    ensures var up := Step(plan, Step(plan, s, Crash), Boot); Passing(plan, up) && up.w == s.w
  {
    hide WorldOk;
  }

  /** Finalization writes the source journal first. When the process dies, or the second write
      fails, right there, the migration is stranded from the next restart on: so any migration
      that may be cleaned up can be. */
  lemma CutFinalizationStrands(plan: Plan, s: State, cut: Action)
    requires ValidPlan(plan) && Passing(plan, s) && plan.cleanupAllowed
    requires s.w.src.Some? && s.w.src.value.phase == CatchSwitched && s.w.tgt.value.phase == CatchSwitched
    requires cut == Crash || (cut.Exec? && !cut.o.ok && !cut.o.effect)
    ensures Stranded(plan, Run(plan, s, [Invoke(Finalize), Exec(FINE), Exec(FINE), cut, Crash]))
  {
    var x := Exec(FINE);
    var tx := s.w.src.value;
    assert tx in s.log;
    BookedTracks(plan, tx);
    RunOne(plan, s, [Invoke(Finalize), x, x, cut, Crash], [x, x, cut, Crash]);
    var s1 := Started(plan, s, Finalize);
    RunOne(plan, s1, [x, x, cut, Crash], [x, cut, Crash]);
    CutChecks(plan, s1);
    var s2 := Step(plan, s1, x);
    RunOne(plan, s2, [x, cut, Crash], [cut, Crash]);
    CutWrites(plan, s2);
    var s3 := Step(plan, s2, x);
    RunOne(plan, s3, [cut, Crash], [Crash]);
    RunOne(plan, Step(plan, s3, cut), [Crash], []);
    CutMirror(plan, s3, cut);
  }

  predicate Halfway(s: State, code: seq<Instr>, phase: Phase) {
    && s.proc.Up? && s.proc.job.Some? && s.proc.job.value.mode == Finalizing && s.proc.job.value.code == code
    && s.proc.job.value.tx.phase == phase
    && s.w.src == Some(s.proc.job.value.tx) && s.w.tgt.Some? && s.w.tgt.value.phase == CatchSwitched
  }

  lemma CutChecks(plan: Plan, s: State)
    requires Halfway(s, [CheckFinal, Persist(Advance(FinalPhase(plan)))], CatchSwitched)
    requires s.proc.job.value.runningAs == Target && s.w.catchUnit == Target
    requires Matches(plan, s.w.running, Tracked(plan, s.proc.job.value.tx))
    ensures Halfway(Step(plan, s, Exec(FINE)), [Persist(Advance(FinalPhase(plan)))], CatchSwitched)
  {
    assert s.proc.job.value.code[1..] == [Persist(Advance(FinalPhase(plan)))];
    assert [] + s.proc.job.value.code[1..] == s.proc.job.value.code[1..];
  }

  lemma CutWrites(plan: Plan, s: State)
    requires Halfway(s, [Persist(Advance(FinalPhase(plan)))], CatchSwitched) && plan.hasTarget && plan.cleanupAllowed
    ensures Halfway(Step(plan, s, Exec(FINE)), [Mirror], CleanupPending) && Step(plan, s, Exec(FINE)).log != []
  {
    assert [Mirror] + s.proc.job.value.code[1..] == [Mirror];
  }

  lemma CutMirror(plan: Plan, s: State, cut: Action)
    requires Halfway(s, [Mirror], CleanupPending) && plan.hasTarget && s.log != []
    requires cut == Crash || (cut.Exec? && !cut.o.ok && !cut.o.effect)
    ensures Stranded(plan, Step(plan, Step(plan, s, cut), Crash))
  {
  }
}
