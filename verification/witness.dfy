/** Runs of one migration, from its very start, into the states for which the transaction
    falls short of what it is meant to do: so none of these families is empty. */
module Witnesses {
  import opened Artifacts
  import opened Ordering
  import opened Transaction
  import opened Safety
  import opened Guarantees
  import opened Recovery
  import opened Reentry
  import opened SourceCleanup
  import opened Applier

  /** The data dir moves; s was running, and the plan names s and t. */
  const MOVE := Plan(true, false, true, true, true, ["s"], ["s", "t"], "", "", map[], [])

  const BEFORE := State(
    World(None, None, false, "", "", map[], Source, {"s"}, Whole), Up(Source, false, StartingUp, None), [])

  /** Everything succeeds, and a mutation leaves these services running. */
  function Fine(running: set<string>): Outcome {
    Outcome(true, false, false, false, false, false, true, "", "", map[], running)
  }

  /** A restart of Catch that is only scheduled. */
  const SCHEDULED := Fine({}).(scheduled := true)

  ghost predicate Reached(s: State) {
    exists acts: seq<Action> :: Reaches(acts, s)
  }

  predicate Reaches(acts: seq<Action>, s: State) {
    NoReentry(MOVE, BEFORE, acts) && Run(MOVE, BEFORE, acts) == s
  }

  lemma {:induction false} NoReentryAppend(plan: Plan, s: State, acts: seq<Action>, a: Action)
    requires NoReentry(plan, s, acts) && !ReentersHandOver(Run(plan, s, acts), a)
    ensures NoReentry(plan, s, acts + [a])
    decreases |acts|
  {
    if acts == [] {
      assert acts + [a] == [a] && [a][1..] == [];
    } else {
      assert (acts + [a])[1..] == acts[1..] + [a];
      NoReentryAppend(plan, Step(plan, s, acts[0]), acts[1..], a);
    }
  }

  lemma BeforeIsInitial()
    ensures ValidPlan(MOVE) && Initial(MOVE, BEFORE) && Reached(BEFORE)
  {
    assert Reaches([], BEFORE);
  }

  lemma Onwards(s: State, a: Action)
    requires Reached(s) && !ReentersHandOver(s, a)
    ensures Reached(Step(MOVE, s, a))
  {
    var acts: seq<Action> :| Reaches(acts, s);
    NoReentryAppend(MOVE, BEFORE, acts, a);
    RunAppend(MOVE, BEFORE, acts, a);
    assert Reaches(acts + [a], Step(MOVE, s, a));
  }

  lemma ReachedIsReachable(s: State)
    requires Reached(s)
    ensures exists acts: seq<Action> :: Reachable(MOVE, BEFORE, acts) && Run(MOVE, BEFORE, acts) == s
    ensures ValidPlan(MOVE) && Inv(MOVE, s)
  {
    BeforeIsInitial();
    var acts: seq<Action> :| Reaches(acts, s);
    ReachableInv(MOVE, BEFORE, acts);
    assert Reachable(MOVE, BEFORE, acts);
  }

  // ----- one or two steps of a job -----

  /** A process with this much still to do. */
  ghost predicate Busy(s: State, proc: Proc, w: World, code: seq<Instr>, tx: Tx, mode: Mode, runningAs: Side) {
    && Reached(s) && proc.Up? && s.w == w && s.log != []
    && s.proc == proc.(job := Some(Job(code, tx, mode, false, runningAs)))
  }

  lemma LogStays(i: Instr, w: World, tx: Tx, log: seq<Tx>, runningAs: Side, o: Outcome)
    requires log != []
    ensures Perform(MOVE, i, w, tx, log, runningAs, o).log != []
  {
    hide Matches, Updated, AuthorityCode, RunsAs, TargetReadable;
  }

  lemma Does(s: State, proc: Proc, w: World, i: Instr, rest: seq<Instr>, tx: Tx, mode: Mode, runningAs: Side,
             o: Outcome)
    returns (t: State)
    requires Busy(s, proc, w, [i] + rest, tx, mode, runningAs) && i != Settle && i != Enter
    requires Perform(MOVE, i, w, tx, s.log, runningAs, o).control == Next([])
    ensures var e := Perform(MOVE, i, w, tx, s.log, runningAs, o);
            t == Step(MOVE, s, Exec(o)) && Busy(t, proc, e.w, rest, e.tx, mode, e.runningAs)
  {
    LogStays(i, w, tx, s.log, runningAs, o);
    hide Perform;
    assert ([i] + rest)[1..] == rest && [] + rest == rest;
    Onwards(s, Exec(o));
    t := Step(MOVE, s, Exec(o));
  }

  /** A world with this journal in both places. */
  function Both(w: World, tx: Tx): World {
    w.(src := Some(tx), tgt := Some(tx))
  }

  lemma Writes(s: State, proc: Proc, w: World, u: Update, rest: seq<Instr>, tx: Tx, mode: Mode, runningAs: Side)
    returns (t: State)
    requires Busy(s, proc, w, [Persist(u)] + rest, tx, mode, runningAs)
    ensures Busy(t, proc, Both(w, Updated(u, tx)), rest, Updated(u, tx), mode, runningAs)
  {
    var m := Step(MOVE, s, Exec(Fine({})));
    assert ([Persist(u)] + rest)[1..] == rest;
    Onwards(s, Exec(Fine({})));
    assert Busy(m, proc, w.(src := Some(Updated(u, tx))), [Mirror] + rest, Updated(u, tx), mode, runningAs);
    t := Does(m, proc, w.(src := Some(Updated(u, tx))), Mirror, rest, Updated(u, tx), mode, runningAs, Fine({}));
  }

  // ----- applying the plan -----

  const CONFIRMING := [Persist(Advance(CatchSwitched))] + [CheckApply]
  const SWITCHING := [Persist(AdvanceTo(CatchSwitching, Target))] +
      ([InstallCatch(Target)] + ([RestartTarget] + CONFIRMING))
  const RESTARTING := [Persist(Advance(TargetReady))] + ([Start("s")] + ([Persist(AddRestarted("s"))] + SWITCHING))
  const MOVING := [Mutate] + ([CopyData] + ([Mutate] + RESTARTING))
  const HALTING := [Stop("s")] + ([Persist(AddStopped("s"))] + ([Persist(Advance(ServicesStopped))] + MOVING))
  const PREPARING := [CreateTarget] + ([Persist(Keep)] + HALTING)

  lemma Unrolled<T>(a: T, b: T, c: T, d: T, stops: seq<T>, e: T, f: T, g: T, h: T, i: T, starts: seq<T>,
                    j: T, k: T, l: T, m: T, n: T)
    ensures [a, b, c, d] + stops + [e, f, g, h, i] + starts + [j, k, l] + [m, n] ==
            [a, b, c, d] + (stops + ([e, f, g, h, i] + (starts + ([j, k, l] + [m, n]))))
  {
  }

  lemma ApplyIs()
    ensures ApplyCode(MOVE) == [Create] + ([Enter] + PREPARING)
  {
    var stops, starts := [Stop("s"), Persist(AddStopped("s"))], [Start("s"), Persist(AddRestarted("s"))];
    assert ["s"][1..] == [];
    assert StopAndRecord(["s"]) == stops + [] == stops && StartAndRecord(["s"]) == starts + [] == starts;
    Unrolled(Create, Enter, CreateTarget, Persist(Keep), stops,
             Persist(Advance(ServicesStopped)), Mutate, CopyData, Mutate, Persist(Advance(TargetReady)), starts,
             Persist(AdvanceTo(CatchSwitching, Target)), InstallCatch(Target), RestartTarget,
             Persist(Advance(CatchSwitched)), CheckApply);
    assert [Persist(AdvanceTo(CatchSwitching, Target)), InstallCatch(Target), RestartTarget] +
           [Persist(Advance(CatchSwitched)), CheckApply] == SWITCHING;
    assert [Persist(Advance(ServicesStopped)), Mutate, CopyData, Mutate, Persist(Advance(TargetReady))] +
           (starts + SWITCHING)
        == [Persist(Advance(ServicesStopped))] + MOVING;
    assert [Create, Enter, CreateTarget, Persist(Keep)] + (stops + ([Persist(Advance(ServicesStopped))] + MOVING))
        == [Create] + ([Enter] + PREPARING);
  }

  const APPLYING := Up(Source, false, Serving(Apply), None)

  /** Both journals, and these services running. */
  function Moved(tx: Tx, unit: Side, root: bool, running: set<string>): World {
    World(Some(tx), Some(tx), root, "", "", map[], unit, running, Whole)
  }

  /** The journal is written, to the source and then to the target. */
  lemma Creates() returns (t: State)
    ensures Busy(t, APPLYING, Moved(FIRST, Source, false, {"s"}), [Enter] + PREPARING, FIRST, Creating, Source)
  {
    var o := Exec(Fine({}));
    var rest := [Enter] + PREPARING;
    BeforeIsInitial();
    Onwards(BEFORE, Invoke(Apply));
    ApplyIs();
    var s1 := Step(MOVE, BEFORE, Invoke(Apply));
    assert s1.proc.job.value.code == [Create] + rest && s1.proc.job.value.code[1..] == rest;
    hide ApplyCode;
    Onwards(s1, o);
    var s2 := Step(MOVE, s1, o);
    assert s2.proc.job.value.code == [MirrorPrepared] + rest;
    t := Does(s2, APPLYING, BEFORE.w.(src := Some(FIRST)), MirrorPrepared, rest, FIRST, Creating, Source, Fine({}));
  }

  lemma Begins() returns (t: State)
    ensures Busy(t, APPLYING, Moved(FIRST, Source, false, {"s"}), PREPARING, FIRST, Applying, Source)
  {
    var s := Creates();
    assert ([Enter] + PREPARING)[1..] == PREPARING && [] + PREPARING == PREPARING;
    Onwards(s, Exec(Fine({})));
    t := Step(MOVE, s, Exec(Fine({})));
  }

  lemma OneName()
    ensures UniqueSorted([] + ["s"]) == ["s"] && UniqueSorted(["s"]) == ["s"] && UniqueSorted(["s"] + ["s"]) == ["s"]
  {
    assert [] + ["s"] == ["s"] && ["s"][1..] == [] && (["s"] + ["s"])[1..] == ["s"];
  }

  const HALTED := Tx(ServicesStopped, Source, ["s"], [], false)
  const STARTED := Tx(TargetReady, Source, ["s"], ["s"], false)
  const SWITCHED := Tx(CatchSwitched, Target, ["s"], ["s"], false)

  lemma Halts() returns (t: State)
    ensures Busy(t, APPLYING, Moved(HALTED, Source, true, {}), MOVING, HALTED, Applying, Source)
  {
    hide Busy;
    OneName();
    var s := Begins();
    s := Does(s, APPLYING, Moved(FIRST, Source, false, {"s"}), CreateTarget, [Persist(Keep)] + HALTING, FIRST,
              Applying, Source, Fine({}));
    s := Writes(s, APPLYING, Moved(FIRST, Source, true, {"s"}), Keep, HALTING, FIRST, Applying, Source);
    var r3 := [Persist(Advance(ServicesStopped))] + MOVING;
    var r4 := [Persist(AddStopped("s"))] + r3;
    s := Does(s, APPLYING, Moved(FIRST, Source, true, {"s"}), Stop("s"), r4, FIRST, Applying, Source, Fine({}));
    assert {"s"} - {"s"} == {};
    s := Writes(s, APPLYING, Moved(FIRST, Source, true, {}), AddStopped("s"), r3, FIRST, Applying, Source);
    var tx := FIRST.(stopped := ["s"]);
    t := Writes(s, APPLYING, Moved(tx, Source, true, {}), Advance(ServicesStopped), MOVING, tx, Applying, Source);
  }

  lemma Moves() returns (t: State)
    ensures Busy(t, APPLYING, Moved(HALTED, Source, true, {}), RESTARTING, HALTED, Applying, Source)
  {
    hide Busy;
    var w := Moved(HALTED, Source, true, {});
    var s := Halts();
    s := Does(s, APPLYING, w, Mutate, [CopyData] + ([Mutate] + RESTARTING), HALTED, Applying, Source, Fine({}));
    s := Does(s, APPLYING, w, CopyData, [Mutate] + RESTARTING, HALTED, Applying, Source, Fine({}));
    t := Does(s, APPLYING, w, Mutate, RESTARTING, HALTED, Applying, Source, Fine({}));
  }

  lemma Restarts() returns (t: State)
    ensures Busy(t, APPLYING, Moved(STARTED, Source, true, {"s"}), SWITCHING, STARTED, Applying, Source)
  {
    hide Busy;
    OneName();
    var s := Moves();
    var tx := HALTED.(phase := TargetReady);
    var r2 := [Persist(AddRestarted("s"))] + SWITCHING;
    var r3 := [Start("s")] + r2;
    s := Writes(s, APPLYING, Moved(HALTED, Source, true, {}), Advance(TargetReady), r3, HALTED, Applying, Source);
    s := Does(s, APPLYING, Moved(tx, Source, true, {}), Start("s"), r2, tx, Applying, Source, Fine({}));
    assert {} + {"s"} == {"s"};
    t := Writes(s, APPLYING, Moved(tx, Source, true, {"s"}), AddRestarted("s"), SWITCHING, tx, Applying, Source);
  }

  lemma Switches() returns (t: State)
    ensures Busy(t, APPLYING, Moved(SWITCHED, Target, true, {"s"}), [], SWITCHED, Applying, Target)
  {
    hide Busy;
    var s := Restarts();
    var tx := STARTED.(phase := CatchSwitching, authority := Target);
    var r2 := [RestartTarget] + CONFIRMING;
    s := Writes(s, APPLYING, Moved(STARTED, Source, true, {"s"}), AdvanceTo(CatchSwitching, Target),
                [InstallCatch(Target)] + r2, STARTED, Applying, Source);
    s := Does(s, APPLYING, Moved(tx, Source, true, {"s"}), InstallCatch(Target), r2, tx, Applying, Source, Fine({}));
    s := Does(s, APPLYING, Moved(tx, Target, true, {"s"}), RestartTarget, CONFIRMING, tx, Applying, Source, Fine({}));
    s := Writes(s, APPLYING, Moved(tx, Target, true, {"s"}), Advance(CatchSwitched), [CheckApply], tx,
                Applying, Target);
    assert [CheckApply] == [CheckApply] + [];
    t := Does(s, APPLYING, Moved(SWITCHED, Target, true, {"s"}), CheckApply, [], SWITCHED, Applying, Target, Fine({}));
  }

  /** A state after a restart of Catch. */
  ghost predicate Restarted(s: State, w: World, config: Side) {
    Reached(s) && s.w == w && s.log != [] && s.proc == Up(config, true, StartingUp, None)
  }

  lemma Boots(s: State, tx: Tx, unit: Side, running: set<string>) returns (t: State)
    requires Reached(s) && s.w == Moved(tx, unit, true, running) && s.log != []
    requires !Terminal(tx.phase) && tx.phase != SourceRestartPending
    ensures Restarted(t, Moved(tx, unit, true, running), unit)
  {
    Onwards(s, Crash);
    var down := Step(MOVE, s, Crash);
    Onwards(down, Boot);
    t := Step(MOVE, down, Boot);
  }

  // ----- the families -----

  /** A finished switch, before anybody has validated it: final validation passes there, and
      a cut finalization strands it (`SourceCleanup.CutFinalizationStrands`). */
  lemma PassingIsReached() returns (t: State)
    ensures Reached(t) && Passing(MOVE, t) && MOVE.cleanupAllowed && t.proc.blocked
    ensures t.w.src == t.w.tgt == Some(SWITCHED)
    ensures Restarted(t, Moved(SWITCHED, Target, true, {"s"}), Target)
  {
    var s := Switches();
    t := Boots(s, SWITCHED, Target, {"s"});
    ReachedIsReachable(t);
    assert Matches(MOVE, {"s"}, Tracked(MOVE, FIRST)) by {
      assert "s" in MOVE.previously && forall n :: n in MOVE.previously ==> n == "s";
    }
  }

  /** A mutation left t running, which is of the plan and was not running before: a rollback
      from here cannot land (`Recovery.RecoverLandsIffClear`). */
  lemma UnclearIsReached() returns (t: State)
    ensures Reached(t) && Recovering(MOVE, t) && !Clear(MOVE, t.w.running)
  {
    var s := Halts();
    var rest := [CopyData] + ([Mutate] + RESTARTING);
    var m := Does(s, APPLYING, Moved(HALTED, Source, true, {}), Mutate, rest, HALTED, Applying, Source, Fine({"t"}));
    t := Boots(m, HALTED, Source, {"t"});
    ReachedIsReachable(t);
    assert "t" in MOVE.planned && "t" !in MOVE.previously;
  }

  // ----- a hand-over that waits for its restart -----

  const CHECKING := [CheckRunning] + ([Settle] + ROLLBACK_TAIL)
  const RESTORING := [RestoreDatabase] + ([Reload] + ([Start("s")] + CHECKING))
  const UNDOING := [Persist(Cause)] + ([CancelRestarts] + ([Stop("s")] + RESTORING))
  const ENDING := [Persist(Advance(RolledBack))]
  const HANDING := [Persist(AdvanceTo(SourceRestartPending, Target))] +
      ([RestartSource] + ([Persist(Authority(Source))] + ENDING))

  lemma RollbackIs()
    ensures RollbackCode(MOVE, SWITCHED) == UNDOING
  {
    hide RollbackCode;
    RollbackNested(MOVE, SWITCHED);
    OneName();
    OfOne();
  }

  lemma OfOne()
    ensures Stops(["s"]) + RESTORING == [Stop("s")] + RESTORING
    ensures Starts(["s"]) + CHECKING == [Start("s")] + CHECKING
    ensures RestoreUnits([]) + RESTORING == RESTORING
  {
    assert ["s"][1..] == [] && Stops(["s"]) == [Stop("s")] && Starts(["s"]) == [Start("s")];
  }

  const RECOVERING := Up(Target, true, Serving(Recover), None)
  const CAUSED := SWITCHED.(cause := true)
  const PENDING := CAUSED.(phase := SourceRestartPending)

  lemma Recovers() returns (t: State)
    ensures Busy(t, RECOVERING, Moved(SWITCHED, Target, true, {"s"}), UNDOING, SWITCHED, Joined, Target)
  {
    RollbackIs();
    var s := PassingIsReached();
    hide RollbackCode;
    Onwards(s, Invoke(Recover));
    t := Step(MOVE, s, Invoke(Recover));
  }

  lemma AllRunning(tx: Tx)
    requires tx.stopped == tx.restarted == ["s"]
    ensures Matches(MOVE, {"s"}, Tracked(MOVE, tx))
  {
    assert "s" in MOVE.previously && forall n :: n in MOVE.previously ==> n == "s";
  }

  lemma HaltsAgain() returns (t: State)
    ensures Busy(t, RECOVERING, Moved(CAUSED, Target, true, {}), RESTORING, CAUSED, Joined, Target)
  {
    hide Busy;
    var s := Recovers();
    s := Writes(s, RECOVERING, Moved(SWITCHED, Target, true, {"s"}), Cause,
                [CancelRestarts] + ([Stop("s")] + RESTORING), SWITCHED, Joined, Target);
    var up := Moved(CAUSED, Target, true, {"s"});
    s := Does(s, RECOVERING, up, CancelRestarts, [Stop("s")] + RESTORING, CAUSED, Joined, Target, Fine({}));
    assert {"s"} - {"s"} == {};
    t := Does(s, RECOVERING, up, Stop("s"), RESTORING, CAUSED, Joined, Target, Fine({}));
  }

  lemma Restores() returns (t: State)
    ensures Busy(t, RECOVERING, Moved(CAUSED, Target, true, {"s"}), CHECKING, CAUSED, Joined, Target)
  {
    hide Busy;
    var s := HaltsAgain();
    var idle := Moved(CAUSED, Target, true, {});
    s := Does(s, RECOVERING, idle, RestoreDatabase, [Reload] + ([Start("s")] + CHECKING), CAUSED, Joined,
              Target, Fine({}));
    s := Does(s, RECOVERING, idle, Reload, [Start("s")] + CHECKING, CAUSED, Joined, Target, Fine({}));
    assert {} + {"s"} == {"s"};
    t := Does(s, RECOVERING, idle, Start("s"), CHECKING, CAUSED, Joined, Target, Fine({}));
  }

  lemma Checks() returns (t: State)
    ensures Busy(t, RECOVERING, Moved(CAUSED, Target, true, {"s"}), [Settle] + ROLLBACK_TAIL, CAUSED, Joined, Target)
  {
    hide Busy;
    var s := Restores();
    AllRunning(CAUSED);
    hide Matches;
    t := Does(s, RECOVERING, Moved(CAUSED, Target, true, {"s"}), CheckRunning, [Settle] + ROLLBACK_TAIL, CAUSED, Joined,
              Target, Fine({}));
  }

  /** The joined part is over. */
  lemma Settles() returns (t: State)
    ensures Busy(t, RECOVERING, Moved(CAUSED, Target, true, {"s"}), [RestoreAuthority] + ENDING, CAUSED, Plain, Target)
  {
    var s := Checks();
    assert ([Settle] + ROLLBACK_TAIL)[1..] == ROLLBACK_TAIL && [] + ROLLBACK_TAIL == ROLLBACK_TAIL;
    assert ROLLBACK_TAIL == [RestoreAuthority] + ENDING;
    Onwards(s, Exec(Fine({})));
    t := Step(MOVE, s, Exec(Fine({})));
  }

  /** The tail begins to bring back the source Catch. */
  lemma BringsBack() returns (t: State)
    ensures Busy(t, RECOVERING, Moved(CAUSED, Target, true, {"s"}),
                 [InstallCatch(Source)] + HANDING, CAUSED, Plain, Target)
  {
    var s := Settles();
    assert ([RestoreAuthority] + ENDING)[1..] == ENDING;
    Chained4(InstallCatch(Source), Persist(AdvanceTo(SourceRestartPending, Target)), RestartSource,
             Persist(Authority(Source)), ENDING);
    Onwards(s, Exec(Fine({})));
    t := Step(MOVE, s, Exec(Fine({})));
  }

  lemma HandsOver() returns (t: State)
    ensures Busy(t, RECOVERING, Moved(PENDING, Source, true, {"s"}),
                 [RestartSource] + ([Persist(Authority(Source))] + ENDING), PENDING, Plain, Target)
  {
    hide Busy;
    var s := BringsBack();
    s := Does(s, RECOVERING, Moved(CAUSED, Target, true, {"s"}), InstallCatch(Source), HANDING, CAUSED, Plain, Target,
              Fine({}));
    t := Writes(s, RECOVERING, Moved(CAUSED, Source, true, {"s"}), AdvanceTo(SourceRestartPending, Target),
                [RestartSource] + ([Persist(Authority(Source))] + ENDING), CAUSED, Plain, Target);
  }

  /** The restart of the source Catch was only scheduled, and the process that runs as the
      target still takes calls: recovery can be asked for again (`Reentry.Hazard`). */
  lemma HazardIsReached() returns (t: State)
    ensures Reached(t) && Hazard(MOVE, t)
  {
    var s := HandsOver();
    Onwards(s, Exec(SCHEDULED));
    t := Step(MOVE, s, Exec(SCHEDULED));
  }

  /** So a run of a real plan ends in a journal that says rolled-back while the service that
      was running before is stopped. */
  lemma HarmIsReached() returns (s: State)
    ensures Reached(s) && Hazard(MOVE, s)
    ensures var w := Run(MOVE, Step(MOVE, s, Invoke(Recover)), HARM).w; !Truthful(MOVE, w)
  {
    s := HazardIsReached();
    ReachedIsReachable(s);
    ReentryHarms(MOVE, s);
  }

  /** And one ends in a migration that nobody can clean up any more. */
  lemma StrandedIsReached() returns (s: State)
    ensures Reached(s) && Stranded(MOVE, Run(MOVE, s, [Invoke(Finalize), Exec(FINE), Exec(FINE), Crash, Crash]))
  {
    s := PassingIsReached();
    CutFinalizationStrands(MOVE, s, Crash);
  }
}
