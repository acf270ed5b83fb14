/** What every run of the migration machine guarantees, said without the machinery of its
    invariant. A run may crash anywhere, restart anywhere, and call anything at any time; it
    only never takes up a rollback again under a journal that announces its end. */
module Guarantees {
  import opened Artifacts
  import opened Ordering
  import opened Transaction
  import opened Safety

  predicate Reachable(plan: Plan, s0: State, acts: seq<Action>) {
    ValidPlan(plan) && Initial(plan, s0) && NoReentry(plan, s0, acts)
  }

  lemma ReachableInv(plan: Plan, s0: State, acts: seq<Action>)
    requires Reachable(plan, s0, acts)
    ensures Inv(plan, Run(plan, s0, acts))
  {
    InitialOk(plan, s0);
    RunKeeps(plan, s0, acts);
  }

  /** The versions of the source journal walk along the graph, and target authority occurs
      only from the switch on and never in a version that says rolled back. */
  lemma JournalFollowsGraph(plan: Plan, s0: State, acts: seq<Action>)
    requires Reachable(plan, s0, acts)
    ensures var s := Run(plan, s0, acts);
            && (forall i :: 0 < i < |s.log| ==> TxEdge(plan, s.log[i - 1], s.log[i]))
            && (forall v :: v in s.log && v.authority == Target ==> !Early(v.phase) && v.phase != RolledBack)
            && (s.w.src.Some? ==> s.log != [] && s.w.src.value == s.log[|s.log| - 1])
  {
    ReachableInv(plan, s0, acts);
  }

  /** Source-restart-pending and rolled-back stand only over a restored host, whose Catch unit
      is the source's. So the shortcut from the first to the second at startup is safe. */
  lemma AnnouncedMeansRestored(plan: Plan, s0: State, acts: seq<Action>)
    requires Reachable(plan, s0, acts)
    ensures var w := Run(plan, s0, acts).w;
            w.src.Some? && (w.src.value.phase == SourceRestartPending || w.src.value.phase == RolledBack) ==>
              w.services == plan.services && UnitsRestored(plan, w) && w.catchUnit == Source &&
              Matches(plan, w.running, Tracked(plan, w.src.value))
  {
    ReachableInv(plan, s0, acts);
    var w := Run(plan, s0, acts).w;
    if w.src.Some? {
      BookedTracks(plan, w.src.value);
    }
  }

  /** Until it says complete, the target journal is the source journal or an earlier version
      of it, also after the tree with the source journal is gone. */
  lemma TargetIsAVersion(plan: Plan, s0: State, acts: seq<Action>)
    requires Reachable(plan, s0, acts)
    ensures var s := Run(plan, s0, acts);
            s.w.tgt.Some? && (s.w.tgt.value.phase != Complete || s.w.tree != Gone) ==> s.w.tgt.value in s.log
  {
    ReachableInv(plan, s0, acts);
  }

  /** The old tree is touched only under a durable cleanup-pending in the target journal, and
      that journal says complete only once the tree is gone. */
  lemma CleanupIsOrdered(plan: Plan, s0: State, acts: seq<Action>)
    requires Reachable(plan, s0, acts)
    ensures var w := Run(plan, s0, acts).w;
            && (w.tree != Whole ==>
                  w.tgt.Some? && (w.tgt.value.phase == CleanupPending || w.tgt.value.phase == Complete))
            && (w.tgt.Some? && w.tgt.value.phase == Complete ==> w.tree == Gone)
            && (w.src.None? ==> w.tree != Whole || Run(plan, s0, acts).log == [])
  {
    ReachableInv(plan, s0, acts);
  }

  /** In every job that has a source journal to advance, the phase and the authority in memory
      are those of that journal, whatever the last write reported. A job that creates the
      journal has it in memory exactly, once it exists; one that cleans up has the target
      journal in memory, until the source journal is moved on for the last time. */
  lemma MemoryAgreesWithJournal(plan: Plan, s0: State, acts: seq<Action>)
    requires Reachable(plan, s0, acts)
    ensures var s := Run(plan, s0, acts);
            s.proc.Up? && s.proc.job.Some? ==>
              var job := s.proc.job.value;
              match job.mode
              case Creating => s.w.src.Some? ==> s.w.src.value == job.tx
              case Cleaning =>
                Persist(Advance(CleanupPending)) in job.code ==> s.w.tgt == Some(job.tx) && job.tx.phase == Validated
              case _ => s.w.src.Some? && SamePos(s.w.src.value, job.tx)
  {
    ReachableInv(plan, s0, acts);
  }

  // ----- an unfinished migration is never overlooked -----

  /** Catch is moved to the target only when the target holds a copy of the journal. */
  predicate Anchors(code: seq<Instr>, have: bool) {
    code == [] ||
    match code[0]
    case CopyData => Anchors(code[1..], true)
    case InstallCatch(side) => (side == Target ==> have) && Anchors(code[1..], have)
    case _ => Anchors(code[1..], have)
  }

  predicate Anchored(plan: Plan, s: State) {
    plan.hasTarget ==>
      && (s.w.catchUnit == Target ==> s.w.tgt.Some?)
      && (s.proc.Up? && s.proc.job.Some? ==> Anchors(s.proc.job.value.code, s.w.tgt.Some?))
  }

  lemma {:induction false} AnchorsGrow(code: seq<Instr>, have: bool)
    requires Anchors(code, have)
    ensures Anchors(code, true)
  {
    if code != [] {
      match code[0]
      case CopyData =>
      case InstallCatch(side) => AnchorsGrow(code[1..], have);
      case _ => AnchorsGrow(code[1..], have);
    }
  }

  lemma {:induction false} AnchorsAfter(a: seq<Instr>, b: seq<Instr>, have: bool)
    requires InstallCatch(Target) !in a && Anchors(b, have)
    ensures Anchors(a + b, have)
    decreases |a|
  {
    if a == [] {
      assert a + b == b;
    } else {
      assert (a + b)[1..] == a[1..] + b && InstallCatch(Target) !in a[1..];
      if a[0] == CopyData {
        AnchorsGrow(b, have);
        AnchorsAfter(a[1..], b, true);
      } else {
        AnchorsAfter(a[1..], b, have);
      }
    }
  }

  lemma NoInstall(code: seq<Instr>, have: bool)
    requires InstallCatch(Target) !in code
    ensures Anchors(code, have)
  {
    assert code + [] == code;
    AnchorsAfter(code, [], have);
  }

  lemma SwitchAnchors(plan: Plan)
    ensures Anchors(SwitchCode(plan), true)
  {
    var finish := [Persist(Advance(CatchSwitched)), CheckApply];
    NoInstall(finish, true);
    if plan.needsRestart {
      var b := [RestartTarget] + finish;
      assert b[1..] == finish;
      var c := [InstallCatch(Target)] + b;
      assert c[1..] == b;
      AnchorsAfter([Persist(AdvanceTo(CatchSwitching, Target))], c, true);
      assert SwitchCode(plan) == [Persist(AdvanceTo(CatchSwitching, Target))] + c;
    } else {
      assert SwitchCode(plan) == finish;
    }
  }

  lemma LateAnchors(plan: Plan)
    ensures Anchors(LateCode(plan), true)
  {
    SwitchAnchors(plan);
    StartAndRecordInstrs(plan, plan.previously);
    var starts := StartAndRecord(plan.previously);
    assert InstallCatch(Target) !in starts;
    AnchorsAfter(starts, SwitchCode(plan), true);
    AnchorsAfter([Persist(Advance(TargetReady))], starts + SwitchCode(plan), true);
  }

  lemma CopyAnchors(late: seq<Instr>, have: bool)
    requires Anchors(late, true)
    ensures Anchors([Persist(Advance(ServicesStopped))] + ([Mutate, CopyData, Mutate] + late), have)
  {
    AnchorsAfter([Mutate], late, true);
    var copy := [CopyData] + ([Mutate] + late);
    assert copy[1..] == [Mutate] + late;
    AnchorsAfter([Persist(Advance(ServicesStopped)), Mutate], copy, have);
    assert [Persist(Advance(ServicesStopped))] + ([Mutate, CopyData, Mutate] + late)
        == [Persist(Advance(ServicesStopped)), Mutate] + copy;
  }

  lemma StoppedAnchors(plan: Plan, have: bool)
    ensures Anchors(StoppedCode(plan), have)
  {
    LateAnchors(plan);
    CopyAnchors(LateCode(plan), have);
  }

  lemma FirstTwo<T>(code: seq<T>, early: seq<T>, late: seq<T>)
    requires |code| >= 2 && code[2..] == early + late
    ensures code == ([code[0], code[1]] + early) + late
  {
  }

  lemma ApplyAnchors(plan: Plan, have: bool)
    ensures Anchors(ApplyCode(plan), have)
  {
    StoppedAnchors(plan, have);
    StopAndRecordInstrs(plan, plan.previously);
    var early := [CreateTarget, Persist(Keep)] + StopAndRecord(plan.previously);
    ApplySplit(plan, early);
    assert |ApplyCode(plan)| >= 2;
    hide ApplyCode, StopAndRecord, StoppedCode, Anchors;
    assert InstallCatch(Target) !in [Create, Enter] + early;
    AnchorsAfter([Create, Enter] + early, StoppedCode(plan), have);
    FirstTwo(ApplyCode(plan), early, StoppedCode(plan));
  }

  lemma RollbackAnchors(plan: Plan, tx: Tx, have: bool)
    ensures Anchors(RollbackCode(plan, tx), have)
  {
    RollbackSplit(plan, tx);
    assert InstallCatch(Target) !in Collected(plan, tx);
    NoInstall(RollbackCode(plan, tx), have);
  }

  lemma FinalRollbackAnchors(plan: Plan, tx: Tx, runningAs: Side, have: bool)
    ensures Anchors(FinalRollbackJob(plan, tx, runningAs).code, have)
  {
    var before := Unexpected(UniqueSorted(tx.stopped + plan.planned));
    ListKinds(UniqueSorted(tx.stopped + plan.planned));
    RollbackAnchors(plan, tx, have);
    assert InstallCatch(Target) !in before;
    AnchorsAfter(before, RollbackCode(plan, tx), have);
  }

  /** The target journal is never removed, and one instruction moves Catch to the target. */
  lemma PerformAnchors(plan: Plan, i: Instr, w: World, tx: Tx, log: seq<Tx>, runningAs: Side, o: Outcome)
    ensures var e := Perform(plan, i, w, tx, log, runningAs, o);
            && (w.tgt.Some? ==> e.w.tgt.Some?)
            && (e.w.catchUnit == Target ==> w.catchUnit == Target || i == InstallCatch(Target))
            && (i == CopyData && e.control.Next? && w.src.Some? && plan.hasTarget ==> e.w.tgt.Some?)
  {
    LookUpAnchors(plan, w, log, o);
    hide LookUp, Updated, Matches;
    match i
    case Persist(_) =>
    case Stop(_) =>
    case Start(_) =>
    case StopUnexpected(_) =>
    case CheckRunning =>
    case RemoveTree =>
    case _ =>
  }

  lemma LookUpAnchors(plan: Plan, w: World, log: seq<Tx>, o: Outcome)
    ensures var (w', log') := LookUp(plan, w, log, o); (w.tgt.Some? ==> w'.tgt.Some?) && w'.catchUnit == w.catchUnit
  {
  }

  lemma PerformInserts(plan: Plan, i: Instr, w: World, tx: Tx, log: seq<Tx>, runningAs: Side, o: Outcome)
    ensures var e := Perform(plan, i, w, tx, log, runningAs, o);
            && (e.control.Next? ==> InstallCatch(Target) !in e.control.extra)
            && (e.control.Repeat? ==> i == Mutate || i == RemoveTree)
  {
    hide LookUp, WriteSource, Updated, Matches;
    if i == RestoreAuthority {
      AuthorityFacts(plan, w, tx, log, runningAs, o);
      assert !PlainInstr(InstallCatch(Target));
    }
  }

  lemma ContinueAnchors(plan: Plan, s: State, e: Effect)
    requires s.proc.Up? && s.proc.job.Some? && s.proc.job.value.code != [] && plan.hasTarget
    requires e.w.catchUnit == Target ==> e.w.tgt.Some?
    requires e.control.Next? || s.proc.job.value.mode == Joined ==> Anchors(s.proc.job.value.code[1..], e.w.tgt.Some?)
    requires e.control.Next? ==> InstallCatch(Target) !in e.control.extra
    requires e.control.Repeat? ==> Anchors(s.proc.job.value.code, e.w.tgt.Some?)
    ensures Anchored(plan, Continue(plan, s, e))
  {
    hide RollbackCode, FinalRollbackJob;
    var job := s.proc.job.value;
    match e.control
    case Next(extra) => AnchorsAfter(extra, job.code[1..], e.w.tgt.Some?);
    case Repeat =>
    case Fail =>
      RollbackAnchors(plan, e.tx, e.w.tgt.Some?);
      FinalRollbackAnchors(plan, e.tx, e.runningAs, e.w.tgt.Some?);
      NoInstall([Abandon], e.w.tgt.Some?);
  }

  lemma ExecAnchors(plan: Plan, s: State, o: Outcome)
    requires Anchored(plan, s) && plan.hasTarget
    requires s.proc.Up? && s.proc.job.Some? && s.proc.job.value.code != []
    requires s.proc.job.value.code[0] == CopyData ==> s.w.src.Some? && s.proc.job.value.mode == Applying
    ensures Anchored(plan, Run1(plan, s, o))
  {
    var job := s.proc.job.value;
    var i := job.code[0];
    var e := Perform(plan, i, s.w, job.tx, s.log, job.runningAs, o);
    PerformAnchors(plan, i, s.w, job.tx, s.log, job.runningAs, o);
    PerformInserts(plan, i, s.w, job.tx, s.log, job.runningAs, o);
    if e.w.tgt.Some? && s.w.tgt.None? {
      AnchorsGrow(job.code, false);
    }
    AnchoredGoes(plan, s, e);
  }

  lemma AnchoredGoes(plan: Plan, s: State, e: Effect)
    requires Anchored(plan, s) && plan.hasTarget
    requires s.proc.Up? && s.proc.job.Some? && s.proc.job.value.code != []
    requires Anchors(s.proc.job.value.code, e.w.tgt.Some?)
    requires s.w.tgt.Some? ==> e.w.tgt.Some?
    requires e.w.catchUnit == Target ==> s.w.catchUnit == Target || s.proc.job.value.code[0] == InstallCatch(Target)
    requires s.proc.job.value.code[0] == CopyData ==>
               s.proc.job.value.mode == Applying && !e.control.Repeat? && (e.control.Next? ==> e.w.tgt.Some?)
    requires e.control.Next? ==> InstallCatch(Target) !in e.control.extra
    ensures Anchored(plan, Continue(plan, s, e))
  {
    ContinueAnchors(plan, s, e);
  }

  lemma CopyHasJournal(plan: Plan, s: State)
    requires ValidPlan(plan) && Inv(plan, s) && s.proc.Up? && s.proc.job.Some? && s.proc.job.value.code != []
    requires s.proc.job.value.code[0] == CopyData
    ensures s.w.src.Some? && s.proc.job.value.mode == Applying
  {
    ApplyLegal(plan);
    assert s.proc.job.value.code[0] in s.proc.job.value.code;
  }

  lemma StepAnchors(plan: Plan, s: State, a: Action)
    requires ValidPlan(plan) && Inv(plan, s) && Anchored(plan, s)
    ensures Anchored(plan, Step(plan, s, a))
  {
    match a
    case Crash =>
    case Boot => NoInstall([Persist(AdvanceTo(RolledBack, Source))], s.w.tgt.Some?);
    case Invoke(call) =>
      if s.proc.Up? && s.proc.job.None? {
        match call {
          case Apply => ApplyAnchors(plan, s.w.tgt.Some?);
          case Recover =>
            if s.w.src.Some? {
              RollbackAnchors(plan, s.w.src.value, s.w.tgt.Some?);
            }
          case Finalize =>
            NoInstall([CheckFinal, Persist(Advance(FinalPhase(plan)))], s.w.tgt.Some?);
            NoInstall([CheckFinal], s.w.tgt.Some?);
          case Cleanup =>
            NoInstall([CheckFinal] + (if s.w.tree == Gone then [] else [RemoveTree]) + [RecordComplete], s.w.tgt.Some?);
            NoInstall([CheckFinal, Persist(Advance(CleanupPending)), RemoveTree, RecordComplete], s.w.tgt.Some?);
        }
      }
    case Exec(o) =>
      if s.proc.Up? && s.proc.job.Some? && s.proc.job.value.code != [] && plan.hasTarget {
        if s.proc.job.value.code[0] == CopyData {
          CopyHasJournal(plan, s);
        }
        ExecAnchors(plan, s, o);
      }
  }

  lemma {:induction false} RunAnchors(plan: Plan, s: State, acts: seq<Action>)
    requires ValidPlan(plan) && Inv(plan, s) && Anchored(plan, s) && NoReentry(plan, s, acts)
    ensures Anchored(plan, Run(plan, s, acts))
    decreases |acts|
  {
    if acts != [] {
      StepKeeps(plan, s, acts[0]);
      StepAnchors(plan, s, acts[0]);
      RunAnchors(plan, Step(plan, s, acts[0]), acts[1..]);
    }
  }

  /** Whatever happened before, a restarted Catch blocks changes exactly when the journal of
      the migration is unfinished, on whichever root Catch's unit makes it run. */
  lemma RestartSeesUnfinished(plan: Plan, s0: State, acts: seq<Action>)
    requires Reachable(plan, s0, acts)
    ensures var s := Run(plan, s0, acts);
            s.w.src.Some? ==>
              var t := Step(plan, Step(plan, s, Crash), Boot);
              && t.w == s.w && t.proc.Up?
              && (t.proc.blocked <==> !Terminal(s.w.src.value.phase))
  {
    ReachableInv(plan, s0, acts);
    InitialOk(plan, s0);
    RunAnchors(plan, s0, acts);
  }
}
