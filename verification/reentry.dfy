/** Recovery may be asked for again while the journal already announces its end: the restart
    of the source Catch failed or was only scheduled and the process that runs as the target
    is still up, or start-up has written rolled-back to one copy only. The second rollback
    stops services again, while a restart at any moment takes the journal at its word. */
module Reentry {
  import opened Artifacts
  import opened Ordering
  import opened Transaction
  import opened Safety
  import opened Recovery

  /** Every continuation of this state announces a finished rollback truthfully. */
  ghost predicate StaysTruthful(plan: Plan, s: State) {
    forall acts: seq<Action> :: NoReentry(plan, s, acts) ==> Truthful(plan, Run(plan, s, acts).w)
  }

  predicate Hazard(plan: Plan, s: State) {
    ReentersHandOver(s, Invoke(Recover)) && plan.previously != []
  }

  // ----- the unsafe continuation -----

  const FINE := Outcome(true, false, false, false, false, false, false, "", "", map[], {})

  /** The rollback records its cause and stops its first service; then Catch restarts. */
  const HARM: seq<Action> := [Exec(FINE), Exec(FINE), Exec(FINE), Exec(FINE), Crash, Boot, Exec(FINE)]

  lemma HarmIsNoReentry(plan: Plan, s: State)
    requires s.proc.Up? && s.proc.job.Some?
    ensures NoReentry(plan, s, HARM)
  {
    NoReentryWithout(plan, s, HARM);
  }

  lemma {:induction false} NoReentryWithout(plan: Plan, s: State, acts: seq<Action>)
    requires Invoke(Recover) !in acts
    ensures NoReentry(plan, s, acts)
    decreases |acts|
  {
    if acts != [] {
      assert acts[0] in acts && Invoke(Recover) !in acts[1..];
      NoReentryWithout(plan, Step(plan, s, acts[0]), acts[1..]);
    }
  }

  /** A process with this joined job next, under a journal that announces the end. */
  predicate Doing(s: State, code: seq<Instr>) {
    && s.proc.Up? && s.proc.job.Some? && s.proc.job.value.mode == Joined && s.proc.job.value.code == code
    && s.w.src.Some? && Announced(s.w.src.value.phase) && Announced(s.proc.job.value.tx.phase)
    && s.w.catchUnit == Source
  }

  lemma DoesPersist(plan: Plan, s: State, rest: seq<Instr>)
    requires Doing(s, [Persist(Cause)] + rest)
    ensures Doing(Step(plan, s, Exec(FINE)), [Mirror] + rest)
  {
    assert ([Persist(Cause)] + rest)[1..] == rest;
  }

  lemma DoesMirror(plan: Plan, s: State, rest: seq<Instr>)
    requires Doing(s, [Mirror] + rest)
    ensures Doing(Step(plan, s, Exec(FINE)), rest)
  {
    assert ([Mirror] + rest)[1..] == rest && [] + rest == rest;
  }

  lemma DoesCancel(plan: Plan, s: State, rest: seq<Instr>)
    requires Doing(s, [CancelRestarts] + rest)
    ensures Doing(Step(plan, s, Exec(FINE)), rest)
  {
    assert ([CancelRestarts] + rest)[1..] == rest && [] + rest == rest;
  }

  lemma DoesStop(plan: Plan, s: State, name: string, rest: seq<Instr>)
    requires Doing(s, [Stop(name)] + rest)
    ensures Doing(Step(plan, s, Exec(FINE)), rest) && name !in Step(plan, s, Exec(FINE)).w.running
  {
    assert ([Stop(name)] + rest)[1..] == rest && [] + rest == rest;
  }

  lemma RestartAnnounces(plan: Plan, s: State)
    requires s.w.src.Some? && Announced(s.w.src.value.phase) && s.w.catchUnit == Source
    ensures var t := Step(plan, Step(plan, Step(plan, s, Crash), Boot), Exec(FINE));
            t.w.src.Some? && t.w.src.value.phase == RolledBack && t.w.running == s.w.running
  {
  }

  lemma HarmStarts(plan: Plan, s: State) returns (name: string, rest: seq<Instr>)
    requires ValidPlan(plan) && Inv(plan, s) && Hazard(plan, s)
    ensures name in plan.previously
    ensures Doing(Started(plan, s, Recover), [Persist(Cause)] + ([CancelRestarts] + ([Stop(name)] + rest)))
  {
    assert s.w.src.value in s.log;
    name, rest := FirstStop(plan, s.w.src.value);
  }

  lemma FirstStop(plan: Plan, tx: Tx) returns (name: string, rest: seq<Instr>)
    requires Booked(plan, tx) && plan.previously != []
    ensures name in plan.previously
    ensures RollbackCode(plan, tx) == [Persist(Cause)] + ([CancelRestarts] + ([Stop(name)] + rest))
  {
    var names := UniqueSorted(tx.restarted + plan.previously);
    assert plan.previously[0] in names;
    name := names[0];
    assert name in names;
    RollbackPieces(plan, tx);
    var middle := RestoreUnits(plan.unitOrder) + [RestoreDatabase, Reload];
    var starts := Starts(UniqueSorted(plan.previously));
    rest := Stops(names[1..]) + middle + starts + CHECKED;
    HarmCode(names, middle, starts);
  }

  lemma HarmCode(names: seq<string>, middle: seq<Instr>, starts: seq<Instr>)
    requires names != []
    ensures [Persist(Cause), CancelRestarts] + Stops(names) + middle + starts + CHECKED
         == [Persist(Cause)] + ([CancelRestarts] + ([Stop(names[0])] + (Stops(names[1..]) + middle + starts + CHECKED)))
  {
  }

  lemma HarmDone(plan: Plan, t: State, name: string, rest: seq<Instr>)
    requires Doing(t, [Persist(Cause)] + ([CancelRestarts] + ([Stop(name)] + rest)))
    ensures var w := Run(plan, t, HARM).w;
            w.src.Some? && w.src.value.phase == RolledBack && name !in w.running
  {
    HarmRuns(plan, t);
    DoesPersist(plan, t, [CancelRestarts] + ([Stop(name)] + rest));
    var t1 := Step(plan, t, Exec(FINE));
    DoesMirror(plan, t1, [CancelRestarts] + ([Stop(name)] + rest));
    var t2 := Step(plan, t1, Exec(FINE));
    DoesCancel(plan, t2, [Stop(name)] + rest);
    var t3 := Step(plan, t2, Exec(FINE));
    DoesStop(plan, t3, name, rest);
    RestartAnnounces(plan, Step(plan, t3, Exec(FINE)));
  }

  lemma ReentryHarms(plan: Plan, s: State)
    requires ValidPlan(plan) && Inv(plan, s) && Hazard(plan, s)
    ensures var t := Started(plan, s, Recover);
            NoReentry(plan, t, HARM) && !Truthful(plan, Run(plan, t, HARM).w)
  {
    var name, rest := HarmStarts(plan, s);
    var t := Started(plan, s, Recover);
    HarmDone(plan, t, name, rest);
    HarmIsNoReentry(plan, t);
    assert name in Tracked(plan, FIRST);
  }

  lemma HarmRuns(plan: Plan, s: State)
    ensures Run(plan, s, HARM) ==
            Step(plan, Step(plan, Step(plan,
              Step(plan, Step(plan, Step(plan, Step(plan, s, Exec(FINE)), Exec(FINE)), Exec(FINE)), Exec(FINE)),
              Crash), Boot), Exec(FINE))
  {
    var x := Exec(FINE);
    RunOne(plan, s, HARM, [x, x, x, Crash, Boot, x]);
    var s1 := Step(plan, s, x);
    RunOne(plan, s1, [x, x, x, Crash, Boot, x], [x, x, Crash, Boot, x]);
    var s2 := Step(plan, s1, x);
    RunOne(plan, s2, [x, x, Crash, Boot, x], [x, Crash, Boot, x]);
    var s3 := Step(plan, s2, x);
    RunOne(plan, s3, [x, Crash, Boot, x], [Crash, Boot, x]);
    var s4 := Step(plan, s3, x);
    RunOne(plan, s4, [Crash, Boot, x], [Boot, x]);
    var s5 := Step(plan, s4, Crash);
    RunOne(plan, s5, [Boot, x], [x]);
    RunOne(plan, Step(plan, s5, Boot), [x], []);
  }

  lemma RunOne(plan: Plan, s: State, acts: seq<Action>, rest: seq<Action>)
    requires acts != [] && acts[1..] == rest
    ensures Run(plan, s, acts) == Run(plan, Step(plan, s, acts[0]), rest)
  {
  }

  // ----- without services to stop, taking up the rollback again is harmless -----

  predicate QuietInstr(i: Instr) {
    || i == Mirror || i == CancelRestarts || i.Stop? || i.RestoreUnit? || i == RestoreDatabase || i == Reload
    || i == CheckRunning || i == Settle || i == RestoreAuthority || i == InstallCatch(Source) || i == RestartSource
    || i == Persist(Cause) || i == Persist(Authority(Source)) || i == Persist(Advance(RolledBack))
    || i == Persist(AdvanceTo(RolledBack, Source)) || i == Persist(AdvanceTo(SourceRestartPending, Target))
  }

  predicate QuietJob(job: Job) {
    && Announced(job.tx.phase)
    && (job.mode == Joined || job.mode == Plain)
    && forall i :: i in job.code ==> QuietInstr(i)
  }

  predicate QuietWorld(plan: Plan, w: World) {
    Restored(plan, w) && w.catchUnit == Source && w.src.Some? && Announced(w.src.value.phase)
  }

  predicate Quiet(plan: Plan, s: State) {
    && plan.previously == [] && QuietWorld(plan, s.w) && s.log != []
    && (s.proc.Up? && s.proc.job.Some? ==>
          QuietJob(s.proc.job.value) ||
          (plan.hasTarget && s.proc.job.value.mode == Cleaning && s.proc.job.value.code != [] &&
           s.proc.job.value.code[0] == CheckFinal))
  }

  predicate QuietEffect(plan: Plan, e: Effect) {
    && QuietWorld(plan, e.w) && Announced(e.tx.phase) && e.log != [] && !e.control.Repeat?
    && (e.control.Next? ==> forall j :: j in e.control.extra ==> QuietInstr(j))
  }

  lemma QuietPersist(plan: Plan, u: Update, w: World, tx: Tx, log: seq<Tx>, runningAs: Side, o: Outcome)
    requires QuietWorld(plan, w) && QuietInstr(Persist(u)) && Announced(tx.phase) && log != []
    ensures QuietEffect(plan, Perform(plan, Persist(u), w, tx, log, runningAs, o))
  {
  }

  lemma QuietLookUp(plan: Plan, w: World, log: seq<Tx>, o: Outcome)
    requires QuietWorld(plan, w) && log != []
    ensures var (w', log') := LookUp(plan, w, log, o); QuietWorld(plan, w') && log' != []
  {
  }

  lemma QuietLook(plan: Plan, i: Instr, w: World, tx: Tx, log: seq<Tx>, runningAs: Side, o: Outcome)
    requires QuietWorld(plan, w) && (i.Stop? || i == CheckRunning) && Announced(tx.phase) && log != []
    requires plan.previously == []
    ensures QuietEffect(plan, Perform(plan, i, w, tx, log, runningAs, o))
  {
    QuietLookUp(plan, w, log, o);
  }

  lemma QuietPerform(plan: Plan, i: Instr, w: World, tx: Tx, log: seq<Tx>, runningAs: Side, o: Outcome)
    requires QuietWorld(plan, w) && QuietInstr(i) && Announced(tx.phase) && log != [] && plan.previously == []
    ensures QuietEffect(plan, Perform(plan, i, w, tx, log, runningAs, o))
  {
    hide QuietWorld;
    if i == RestoreAuthority {
      QuietAuthority(plan, runningAs);
    } else if i.Persist? {
      QuietPersist(plan, i.u, w, tx, log, runningAs, o);
    } else if i.Stop? || i == CheckRunning {
      QuietLook(plan, i, w, tx, log, runningAs, o);
    } else {
      QuietHost(plan, i, w, tx, log, runningAs, o);
    }
  }

  /** Changes nothing, or sets a part of the host to what it was before the migration. */
  predicate PutsBack(plan: Plan, w: World, w': World) {
    && w'.src == w.src && w'.running == w.running
    && (w'.catchUnit == w.catchUnit || w'.catchUnit == Source)
    && (w'.services == w.services || w'.services == plan.services)
    && (w'.units == w.units || exists p :: p in plan.units && w'.units == w.units[p := plan.units[p]])
  }

  lemma PutsBackQuietly(plan: Plan, w: World, w': World)
    requires QuietWorld(plan, w) && PutsBack(plan, w, w')
    ensures QuietWorld(plan, w')
  {
  }

  lemma HostPutsBack(plan: Plan, i: Instr, w: World, tx: Tx, log: seq<Tx>, runningAs: Side, o: Outcome)
    requires QuietInstr(i) && i != RestoreAuthority && !i.Persist? && !i.Stop? && i != CheckRunning
    ensures var e := Perform(plan, i, w, tx, log, runningAs, o);
            && PutsBack(plan, w, e.w) && e.tx == tx && e.log == log && !e.control.Repeat?
            && (e.control.Next? ==> e.control.extra == [])
  {
    if i.RestoreUnit? {
      hide PutsBack, Perform;
      UnitPutsBack(plan, i.path, w, tx, log, runningAs, o);
    } else if i == Mirror {
    } else if i == RestoreDatabase {
    } else if i == InstallCatch(Source) {
    } else if i == RestartSource {
    } else {
      assert i == CancelRestarts || i == Reload || i == Settle;
    }
  }

  lemma UnitPutsBack(plan: Plan, p: string, w: World, tx: Tx, log: seq<Tx>, runningAs: Side, o: Outcome)
    ensures var e := Perform(plan, RestoreUnit(p), w, tx, log, runningAs, o);
            && PutsBack(plan, w, e.w) && e.tx == tx && e.log == log && !e.control.Repeat?
            && (e.control.Next? ==> e.control.extra == [])
  {
  }

  /** The rest restores what is restored already. */
  lemma QuietHost(plan: Plan, i: Instr, w: World, tx: Tx, log: seq<Tx>, runningAs: Side, o: Outcome)
    requires QuietWorld(plan, w) && QuietInstr(i) && Announced(tx.phase) && log != []
    requires i != RestoreAuthority && !i.Persist? && !i.Stop? && i != CheckRunning
    ensures QuietEffect(plan, Perform(plan, i, w, tx, log, runningAs, o))
  {
    hide Perform, PutsBack, QuietWorld;
    HostPutsBack(plan, i, w, tx, log, runningAs, o);
    PutsBackQuietly(plan, w, Perform(plan, i, w, tx, log, runningAs, o).w);
  }

  lemma QuietAuthority(plan: Plan, runningAs: Side)
    ensures forall j :: j in AuthorityCode(plan, runningAs) ==> QuietInstr(j)
  {
    var middle := if RunsAs(plan, runningAs, Source) then []
      else [Persist(AdvanceTo(SourceRestartPending, Target)), RestartSource];
    assert AuthorityCode(plan, runningAs) == [InstallCatch(Source)] + middle + [Persist(Authority(Source))];
  }

  lemma QuietContinues(plan: Plan, s: State, e: Effect)
    requires plan.previously == [] && s.proc.Up? && s.proc.job.Some? && QuietJob(s.proc.job.value)
    requires s.proc.job.value.code != []
    requires QuietEffect(plan, e)
    ensures Quiet(plan, Continue(plan, s, e))
  {
    var code := s.proc.job.value.code;
    assert code[0] in code && forall j :: j in code[1..] ==> j in code;
  }

  lemma QuietRollback(plan: Plan, tx: Tx)
    requires plan.previously == []
    ensures forall i :: i in RollbackCode(plan, tx) ==> QuietInstr(i)
  {
    RollbackSplit(plan, tx);
    ListKinds(UniqueSorted(tx.restarted + plan.previously));
    ListKinds(plan.unitOrder);
    ListKinds(UniqueSorted(plan.previously));
    assert forall i :: i !in Starts(UniqueSorted(plan.previously));
    forall i | i in Collected(plan, tx) ensures QuietInstr(i) {
      CollectedParts(plan, tx, i);
    }
    assert forall i :: i in CHECKED ==> QuietInstr(i);
  }

  lemma QuietStep(plan: Plan, s: State, a: Action)
    requires ValidPlan(plan) && Quiet(plan, s)
    ensures Quiet(plan, Step(plan, s, a))
  {
    match a
    case Crash =>
    case Boot =>
    case Invoke(call) =>
      if s.proc.Up? && s.proc.job.None? {
        QuietRollback(plan, s.w.src.value);
      }
    case Exec(o) =>
      if s.proc.Up? && s.proc.job.Some? && s.proc.job.value.code != [] {
        QuietExec(plan, s, o);
      }
  }

  lemma QuietExec(plan: Plan, s: State, o: Outcome)
    requires Quiet(plan, s) && s.proc.Up? && s.proc.job.Some? && s.proc.job.value.code != []
    ensures Quiet(plan, Run1(plan, s, o))
  {
    var job := s.proc.job.value;
    if QuietJob(job) {
      assert job.code[0] in job.code;
      QuietPerform(plan, job.code[0], s.w, job.tx, s.log, job.runningAs, o);
      QuietContinues(plan, s, Perform(plan, job.code[0], s.w, job.tx, s.log, job.runningAs, o));
    }
  }

  lemma {:induction false} QuietRuns(plan: Plan, s: State, acts: seq<Action>)
    requires ValidPlan(plan) && Quiet(plan, s)
    ensures Quiet(plan, Run(plan, s, acts))
    decreases |acts|
  {
    if acts != [] {
      QuietStep(plan, s, acts[0]);
      QuietRuns(plan, Step(plan, s, acts[0]), acts[1..]);
    }
  }

  // ----- exactly when recovery is safe -----

  /** Asking for recovery is safe exactly when the journal does not announce the end of the
      rollback already, or no service was running before the migration. */
  lemma RecoverySafeIffNoHazard(plan: Plan, s: State)
    requires ValidPlan(plan) && Inv(plan, s)
    ensures StaysTruthful(plan, Step(plan, s, Invoke(Recover))) <==> !Hazard(plan, s)
  {
    var t := Step(plan, s, Invoke(Recover));
    if Hazard(plan, s) {
      ReentryHarms(plan, s);
    } else {
      forall acts: seq<Action> | NoReentry(plan, t, acts) ensures Truthful(plan, Run(plan, t, acts).w) {
        if ReentersHandOver(s, Invoke(Recover)) {
          QuietRollback(plan, s.w.src.value);
          QuietRuns(plan, t, acts);
        } else {
          StepKeeps(plan, s, Invoke(Recover));
          RunKeeps(plan, t, acts);
        }
      }
    }
  }
}
