/** What every run of the migration machine keeps: the transition graph of the journal,
    agreement of the two journals, the order of cleanup, and that a journal announces a
    finished rollback only over a restored host. */
module Safety {
  import opened Artifacts
  import opened Ordering
  import opened Transaction

  // ----- the transition graph -----

  /** Phases in which a rollback may still be asked for, except the hand-over itself. */
  predicate Open(p: Phase) {
    p == Prepared || p == ServicesStopped || p == TargetReady ||
    p == CatchSwitching || p == CatchSwitched || p == Validated
  }

  predicate Early(p: Phase) {
    p == Prepared || p == ServicesStopped || p == TargetReady
  }

  /** Phases that announce a restored host. */
  predicate Announced(p: Phase) {
    p == SourceRestartPending || p == RolledBack
  }

  /** Until the switch, and after a rollback, the source Catch is in authority. */
  predicate ValidPos(plan: Plan, p: Phase, a: Side) {
    && (Early(p) || p == RolledBack ==> a == Source)
    && (p == Validated || p == CleanupPending ==> plan.hasTarget)
    && (p == CleanupPending ==> a == Target)
    && (p == Complete ==> !plan.hasTarget)
  }

  /** One durable transition of phase and authority. */
  predicate Edge(plan: Plan, p: Phase, a: Side, q: Phase, b: Side) {
    || (p == q && a == b)
    || (a == Source && b == Source &&
        ((p == Prepared && q == ServicesStopped) ||
         (p == ServicesStopped && q == TargetReady) ||
         (p == TargetReady && q == CatchSwitched && !plan.needsRestart) ||
         (p == CatchSwitched && q == Complete && !plan.hasTarget) ||
         ((Open(p) || p == SourceRestartPending) && q == RolledBack)))
    || (a == Source && b == Target && p == TargetReady && q == CatchSwitching)
    || (a == Target && b == Target &&
        ((p == CatchSwitching && q == CatchSwitched) ||
         (p == CatchSwitched && q == Complete && !plan.hasTarget) ||
         (p == CatchSwitched && q == CleanupPending && plan.hasTarget && plan.cleanupAllowed) ||
         (p == CatchSwitched && q == Validated && plan.hasTarget && !plan.cleanupAllowed) ||
         (p == Validated && q == CleanupPending) ||
         (Open(p) && q == SourceRestartPending)))
    || (a == Target && b == Source && p == q && (Open(p) || p == SourceRestartPending))
    || (a == Target && b == Source && p == SourceRestartPending && q == RolledBack)
  }

  predicate TxEdge(plan: Plan, x: Tx, y: Tx) {
    Edge(plan, x.phase, x.authority, y.phase, y.authority)
  }

  predicate SamePos(x: Tx, y: Tx) {
    x.phase == y.phase && x.authority == y.authority
  }

  lemma EdgeValid(plan: Plan, p: Phase, a: Side, q: Phase, b: Side)
    requires ValidPlan(plan) && ValidPos(plan, p, a) && Edge(plan, p, a, q, b)
    ensures ValidPos(plan, q, b)
  {
  }

  /** What stays true of all later versions, once a version has been validated or is
      waiting for cleanup. */
  predicate Follows(x: Tx, y: Tx) {
    && (x.phase == Validated ==>
          (y.phase == Validated || Announced(y.phase) || y.phase == CleanupPending) &&
          (x.authority == Source ==> y.authority == Source && y.phase != CleanupPending))
    && (x.phase == CleanupPending ==> y.phase == CleanupPending)
  }

  lemma FollowsEdge(plan: Plan, x: Tx, y: Tx, z: Tx)
    requires ValidPos(plan, y.phase, y.authority)
    requires Follows(x, y) && TxEdge(plan, y, z)
    ensures Follows(x, z)
  {
  }

  predicate Chain(plan: Plan, log: seq<Tx>) {
    forall i :: 0 < i < |log| ==> TxEdge(plan, log[i - 1], log[i])
  }

  predicate Booked(plan: Plan, tx: Tx) {
    && (forall n :: n in tx.stopped ==> n in plan.previously)
    && (forall n :: n in tx.restarted ==> n in plan.previously)
  }

  lemma BookedTracks(plan: Plan, tx: Tx)
    requires Booked(plan, tx)
    ensures Tracked(plan, tx) == Tracked(plan, FIRST)
  {
  }

  // ----- invariant of the durable world -----

  predicate History(plan: Plan, w: World, log: seq<Tx>) {
    && Chain(plan, log)
    && (forall v :: v in log ==> ValidPos(plan, v.phase, v.authority) && Booked(plan, v))
    && (w.src.Some? ==> log != [] && w.src.value == log[|log| - 1])
    && (w.src.None? ==> log == [] || w.tree != Whole)
    && (w.src.Some? ==> forall v :: v in log ==> Follows(v, w.src.value))
  }

  /** The target journal is a version the source journal has had, unless cleanup is over. */
  predicate Agreement(plan: Plan, w: World, log: seq<Tx>) {
    w.tgt.Some? ==>
      && TargetReadable(plan, w)
      && (w.tgt.value in log || (w.tgt.value.phase == Complete && w.tree == Gone))
  }

  /** The old tree is touched only when the target journal durably says so, and the target
      journal says complete only when the tree is gone. */
  predicate CleanupOrder(plan: Plan, w: World) {
    && (w.tree != Whole ==> w.tgt.Some? && (w.tgt.value.phase == CleanupPending || w.tgt.value.phase == Complete))
    && (w.tgt.Some? && w.tgt.value.phase == Complete ==> w.tree == Gone)
    && (w.tree == Gone ==> w.src.None?)
    && (w.tree == Partial && w.src.Some? ==> w.src.value.phase == CleanupPending)
  }

  /** With the source in authority, or the hand-over recorded, Catch's unit is the source's. */
  predicate UnitOfAuthority(w: World) {
    w.src.Some? && (w.src.value.authority == Source || w.src.value.phase == SourceRestartPending) ==>
      w.catchUnit == Source
  }

  /** A journal that announces a finished rollback tells the truth. */
  predicate Truthful(plan: Plan, w: World) {
    w.src.Some? && Announced(w.src.value.phase) ==> Restored(plan, w)
  }

  predicate Untouched(plan: Plan, w: World, log: seq<Tx>) {
    log == [] ==> Restored(plan, w) && w.catchUnit == Source && w.tree == Whole && w.tgt.None?
  }

  predicate WorldOk(plan: Plan, w: World, log: seq<Tx>) {
    && History(plan, w, log)
    && Agreement(plan, w, log)
    && CleanupOrder(plan, w)
    && UnitOfAuthority(w)
    && Truthful(plan, w)
    && Untouched(plan, w, log)
  }

  // ----- invariant of a running job -----

  /** Executing code from this position writes only edges of the graph, and gives authority
      to the source only once its unit is back. */
  predicate Legal(plan: Plan, code: seq<Instr>, p: Phase, a: Side, unit: bool) {
    code == [] ||
    match code[0]
    case Persist(u) =>
      var next := Updated(u, Tx(p, a, [], [], false));
      && Edge(plan, p, a, next.phase, next.authority)
      && (next.authority == Source || next.phase == SourceRestartPending ==> unit)
      && Legal(plan, code[1..], next.phase, next.authority, unit)
    case Abandon => p == Prepared && a == Source && unit && code[1..] == []
    case InstallCatch(side) =>
      && (side == Target ==> a == Target && p != SourceRestartPending)
      && Legal(plan, code[1..], p, a, side == Source)
    case CheckFinal => (plan.hasTarget && unit) || Legal(plan, code[1..], p, a, unit)
    case RestoreAuthority =>
      if a == Source then Legal(plan, code[1..], p, a, unit)
      else
        && Open(p)
        && Legal(plan, code[1..], p, Source, true)
        && Legal(plan, code[1..], SourceRestartPending, Source, true)
    case _ => Legal(plan, code[1..], p, a, unit)
  }

  predicate ApplyInstr(plan: Plan, i: Instr) {
    match i
    case CreateTarget => true
    case Mutate => true
    case CopyData => true
    case RestartTarget => true
    case CheckApply => true
    case InstallCatch(side) => side == Target
    case Stop(n) => n in plan.previously
    case Start(n) => n in plan.previously
    case Persist(u) =>
      (match u
       case Keep => true
       case AddStopped(n) => n in plan.previously
       case AddRestarted(n) => n in plan.previously
       case Advance(p) => Open(p)
       case AdvanceTo(p, a) => Open(p)
       case _ => false)
    case _ => false
  }

  /** An instruction of the joined part before the check of the running set. */
  predicate BodyInstr(i: Instr) {
    i == Persist(Cause) || i == Mirror || i.CancelRestarts? || i.Stop? || i.Start? || i.StopUnexpected? ||
    i.RestoreUnit? || i.RestoreDatabase? || i.Reload?
  }

  /** The joined part ends in the check of the running set, then settles, then the tail. */
  predicate Body(code: seq<Instr>) {
    code != [] &&
    if code[0] == Settle then code[1..] == ROLLBACK_TAIL
    else if code[0] == CheckRunning then code[1..] == [Settle] + ROLLBACK_TAIL
    else BodyInstr(code[0]) && |code| > 1 && code[1] != Settle && Body(code[1..])
  }

  /** What is not restored yet is still to be done. */
  predicate Progress(plan: Plan, w: World, code: seq<Instr>) {
    code != [] ==>
      && (forall p :: p in plan.units ==>
            RestoreUnit(p) in code || (p in w.units && w.units[p] == plan.units[p]))
      && (RestoreDatabase in code || w.services == plan.services)
      && (code[0] == Settle ==> Matches(plan, w.running, Tracked(plan, FIRST)))
  }

  predicate PlainInstr(i: Instr) {
    i == Abandon || i == Mirror || i == InstallCatch(Source) || i == RestoreAuthority || i == RestartSource ||
    i == Persist(Advance(RolledBack)) || i == Persist(AdvanceTo(RolledBack, Source)) ||
    i == Persist(AdvanceTo(SourceRestartPending, Target)) || i == Persist(Authority(Source))
  }

  predicate Announces(i: Instr) {
    i == Abandon || i == RestoreAuthority || i == Persist(Advance(RolledBack)) ||
    i == Persist(AdvanceTo(RolledBack, Source)) || i == Persist(AdvanceTo(SourceRestartPending, Target))
  }

  predicate ModeOk(plan: Plan, w: World, job: Job) {
    match job.mode
    case Applying => Open(job.tx.phase) && forall i :: i in job.code ==> i == Mirror || ApplyInstr(plan, i)
    case Joined =>
      && Open(job.tx.phase)
      && (if job.code == [] then job.failed else Body(job.code))
      && (!job.failed ==> Progress(plan, w, job.code))
    case Finalizing =>
      && !Announced(job.tx.phase)
      && (|| job.code == [] || (job.code == [Mirror] && w.tree == Whole) || job.code == [CheckFinal]
          || (job.tx.phase == CatchSwitched &&
              (job.code == [CheckFinal, Persist(Advance(FinalPhase(plan)))] ||
               job.code == [Persist(Advance(FinalPhase(plan)))])))
    case Plain =>
      && (forall i :: i in job.code ==> PlainInstr(i))
      && (Promises(job.tx, job.code) ==> Restored(plan, w))
      && (job.code != [] ==> w.tree == Whole)
    case _ => true
  }

  predicate CleaningOk(plan: Plan, w: World, job: Job) {
    var p := Persist(Advance(CleanupPending));
    && plan.hasTarget && w.tgt.Some?
    && (|| (job.code == [CheckFinal, p, RemoveTree, RecordComplete] &&
            w.tgt.value == job.tx && job.tx.phase == Validated && w.tree == Whole)
        || (job.code == [p, RemoveTree, RecordComplete] &&
            w.tgt.value == job.tx && job.tx.phase == Validated && w.tree == Whole && w.catchUnit == Target)
        || (job.code == [Mirror, RemoveTree, RecordComplete] &&
            w.src == Some(job.tx) && job.tx.phase == CleanupPending && w.tree == Whole)
        || (job.code == [CheckFinal, RemoveTree, RecordComplete] && w.tgt.value.phase == CleanupPending &&
            w.tree != Gone)
        || (job.code == [RemoveTree, RecordComplete] && w.tgt.value.phase == CleanupPending && w.tree != Gone)
        || (job.code == [CheckFinal, RecordComplete] && w.tgt.value.phase == CleanupPending && w.tree == Gone)
        || (job.code == [RecordComplete] && w.tgt.value.phase == CleanupPending && w.tree == Gone)
        || job.code == [])
  }

  predicate CreatingOk(plan: Plan, w: World, log: seq<Tx>, job: Job) {
    var rest := ApplyCode(plan)[1..];
    && job.tx == FIRST && Restored(plan, w) && w.catchUnit == Source && w.tree == Whole
    && (|| (job.code == [Create] + rest && log == [])
        || (job.code == [MirrorPrepared] + rest && w.src == Some(FIRST))
        || (job.code == rest && w.src == Some(FIRST)))
  }

  /** A pending mirror write is always the next step, and the source journal holds what it
      will write. */
  predicate MirrorNext(w: World, code: seq<Instr>, tx: Tx) {
    code != [] ==> Mirror !in code[1..] && (code[0] == Mirror ==> w.src == Some(tx))
  }

  predicate JobOk(plan: Plan, w: World, log: seq<Tx>, job: Job) {
    if job.mode == Creating then CreatingOk(plan, w, log, job)
    else if job.mode == Cleaning then CleaningOk(plan, w, job)
    else
      && w.src.Some? && SamePos(w.src.value, job.tx) && Booked(plan, job.tx)
      && MirrorNext(w, job.code, job.tx)
      && (w.tree == Whole || job.tx.phase == CleanupPending)
      && Legal(plan, job.code, job.tx.phase, job.tx.authority, w.catchUnit == Source)
      && ModeOk(plan, w, job)
  }

  predicate Inv(plan: Plan, s: State) {
    && WorldOk(plan, s.w, s.log)
    && (s.proc.Up? && s.proc.job.Some? ==> JobOk(plan, s.w, s.log, s.proc.job.value))
  }

  // ----- effects on the world -----

  lemma WriteKeeps(plan: Plan, w: World, log: seq<Tx>, tx: Tx)
    requires ValidPlan(plan) && WorldOk(plan, w, log) && w.tree == Whole
    requires w.src.Some? && TxEdge(plan, w.src.value, tx) && Booked(plan, tx)
    requires tx.authority == Source || tx.phase == SourceRestartPending ==> w.catchUnit == Source
    requires Announced(tx.phase) ==> Restored(plan, w)
    ensures WorldOk(plan, w.(src := Some(tx)), log + [tx])
  {
    var last := w.src.value;
    assert last in log;
    EdgeValid(plan, last.phase, last.authority, tx.phase, tx.authority);
    forall v | v in log + [tx] ensures Follows(v, tx) {
      if v in log {
        FollowsEdge(plan, v, last, tx);
      }
    }
  }

  /** Changing what is no journal and no tree. */
  lemma FrameKeeps(plan: Plan, w: World, w': World, log: seq<Tx>)
    requires WorldOk(plan, w, log) && log != []
    requires w'.src == w.src && w'.tgt == w.tgt && w'.tree == w.tree && (w.targetRoot ==> w'.targetRoot)
    requires UnitOfAuthority(w') && Truthful(plan, w')
    ensures WorldOk(plan, w', log)
  {
  }

  lemma MirrorKeeps(plan: Plan, w: World, log: seq<Tx>, tx: Tx)
    requires WorldOk(plan, w, log) && tx in log && TargetReadable(plan, w) && w.tree == Whole
    ensures WorldOk(plan, w.(tgt := Some(tx)), log)
  {
  }

  // ----- legality of the programs -----

  /** Instructions that neither write the journal nor move Catch. */
  predicate Inert(i: Instr) {
    !i.Persist? && !i.Abandon? && !i.InstallCatch? && !i.CheckFinal? && !i.RestoreAuthority?
  }

  lemma {:induction false} LegalAfter(plan: Plan, a: seq<Instr>, b: seq<Instr>, p: Phase, x: Side, unit: bool)
    requires forall i :: i in a ==>
               Inert(i) || (i.Persist? && (i.u.Keep? || i.u.Cause? || i.u.AddStopped? || i.u.AddRestarted?))
    requires x == Source || p == SourceRestartPending ==> unit
    requires Legal(plan, b, p, x, unit)
    ensures Legal(plan, a + b, p, x, unit)
    decreases |a|
  {
    hide Legal;
    if a == [] {
      assert a + b == b;
    } else {
      assert a[0] in a && forall i :: i in a[1..] ==> i in a;
      assert a + b == [a[0]] + (a[1..] + b);
      LegalAfter(plan, a[1..], b, p, x, unit);
      LegalKeeping(plan, a[0], a[1..] + b, p, x, unit);
    }
  }

  /** An instruction that leaves the position may come first. */
  lemma LegalKeeping(plan: Plan, i: Instr, rest: seq<Instr>, p: Phase, x: Side, unit: bool)
    requires Inert(i) || (i.Persist? && (i.u.Keep? || i.u.Cause? || i.u.AddStopped? || i.u.AddRestarted?))
    requires x == Source || p == SourceRestartPending ==> unit
    requires Legal(plan, rest, p, x, unit)
    ensures Legal(plan, [i] + rest, p, x, unit)
  {
    assert ([i] + rest)[1..] == rest;
  }

  lemma TailLegal(plan: Plan, p: Phase, x: Side, unit: bool)
    requires Open(p) && (x == Source ==> unit)
    ensures Legal(plan, ROLLBACK_TAIL, p, x, unit)
  {
    var last := [Persist(Advance(RolledBack))];
    assert ROLLBACK_TAIL[1..] == last && last[1..] == [];
    assert Legal(plan, last, p, Source, true) && Legal(plan, last, SourceRestartPending, Source, true);
  }

  lemma RollbackLegal(plan: Plan, tx: Tx, unit: bool)
    requires Open(tx.phase) && (tx.authority == Source ==> unit)
    ensures Legal(plan, RollbackCode(plan, tx), tx.phase, tx.authority, unit)
  {
    hide Legal, UniqueSorted;
    TailLegal(plan, tx.phase, tx.authority, unit);
    var a := [Persist(Cause), CancelRestarts]
      + Stops(UniqueSorted(tx.restarted + plan.previously))
      + RestoreUnits(plan.unitOrder)
      + [RestoreDatabase, Reload]
      + Starts(UniqueSorted(plan.previously))
      + [CheckRunning, Settle];
    assert RollbackCode(plan, tx) == a + ROLLBACK_TAIL;
    LegalAfter(plan, a, ROLLBACK_TAIL, tx.phase, tx.authority, unit);
  }

  lemma LegalPersist(plan: Plan, u: Update, rest: seq<Instr>, p: Phase, a: Side, unit: bool)
    requires var next := Updated(u, Tx(p, a, [], [], false));
             && Edge(plan, p, a, next.phase, next.authority)
             && (next.authority == Source || next.phase == SourceRestartPending ==> unit)
             && Legal(plan, rest, next.phase, next.authority, unit)
    ensures Legal(plan, [Persist(u)] + rest, p, a, unit)
  {
    assert ([Persist(u)] + rest)[1..] == rest;
  }

  lemma LegalInert(plan: Plan, i: Instr, rest: seq<Instr>, p: Phase, a: Side, unit: bool)
    requires Inert(i) && Legal(plan, rest, p, a, unit)
    ensures Legal(plan, [i] + rest, p, a, unit)
  {
    assert ([i] + rest)[1..] == rest;
  }

  lemma LegalInstall(plan: Plan, side: Side, rest: seq<Instr>, p: Phase, a: Side, unit: bool)
    requires side == Target ==> a == Target && p != SourceRestartPending
    requires Legal(plan, rest, p, a, side == Source)
    ensures Legal(plan, [InstallCatch(side)] + rest, p, a, unit)
  {
    assert ([InstallCatch(side)] + rest)[1..] == rest;
  }

  lemma Chained2<T>(a: T, b: T, rest: seq<T>)
    ensures [a] + [] + [b] + rest == [a] + ([b] + rest)
  {
  }

  lemma Chained4<T>(a: T, b: T, c: T, d: T, rest: seq<T>)
    ensures [a] + [b, c] + [d] + rest == [a] + ([b] + ([c] + ([d] + rest)))
  {
  }

  lemma Chained5<T>(a: T, b: T, c: T, d: T, e: T)
    ensures [a, b, c] + [d, e] == [a] + ([b] + ([c] + ([d] + [e])))
  {
  }

  lemma AuthorityLegal(plan: Plan, rest: seq<Instr>, p: Phase, runningAs: Side, unit: bool)
    requires Open(p) && Legal(plan, rest, p, Source, true) && Legal(plan, rest, SourceRestartPending, Source, true)
    ensures Legal(plan, AuthorityCode(plan, runningAs) + rest, p, Target, unit)
  {
    hide Legal;
    var back := Persist(Authority(Source));
    var last := [back] + rest;
    if RunsAs(plan, runningAs, Source) {
      LegalPersist(plan, Authority(Source), rest, p, Target, true);
      LegalInstall(plan, Source, last, p, Target, unit);
      Chained2(InstallCatch(Source), back, rest);
    } else {
      var over := Persist(AdvanceTo(SourceRestartPending, Target));
      LegalPersist(plan, Authority(Source), rest, SourceRestartPending, Target, true);
      LegalInert(plan, RestartSource, last, SourceRestartPending, Target, true);
      var r := [RestartSource] + last;
      LegalPersist(plan, AdvanceTo(SourceRestartPending, Target), r, p, Target, true);
      LegalInstall(plan, Source, [over] + r, p, Target, unit);
      Chained4(InstallCatch(Source), over, RestartSource, back, rest);
    }
  }

  lemma {:induction false} StopAndRecordInstrs(plan: Plan, names: seq<string>)
    requires forall n :: n in names ==> n in plan.previously
    ensures forall i :: i in StopAndRecord(names) ==>
              ApplyInstr(plan, i) && (i.Stop? || (i.Persist? && i.u.AddStopped?))
  {
    if names != [] {
      assert names[0] in names && forall n :: n in names[1..] ==> n in names;
      StopAndRecordInstrs(plan, names[1..]);
    }
  }

  lemma {:induction false} StartAndRecordInstrs(plan: Plan, names: seq<string>)
    requires forall n :: n in names ==> n in plan.previously
    ensures forall i :: i in StartAndRecord(names) ==>
              ApplyInstr(plan, i) && (i.Start? || (i.Persist? && i.u.AddRestarted?))
  {
    if names != [] {
      assert names[0] in names && forall n :: n in names[1..] ==> n in names;
      StartAndRecordInstrs(plan, names[1..]);
    }
  }

  function LateCode(plan: Plan): seq<Instr> {
    [Persist(Advance(TargetReady))] + (StartAndRecord(plan.previously) + SwitchCode(plan))
  }

  lemma LateLegal(plan: Plan)
    ensures Legal(plan, LateCode(plan), ServicesStopped, Source, true)
    ensures forall i :: i in LateCode(plan) ==> ApplyInstr(plan, i)
  {
    SwitchLegal(plan);
    SwitchInstrs(plan);
    StartAndRecordInstrs(plan, plan.previously);
    LegalAfter(plan, StartAndRecord(plan.previously), SwitchCode(plan), TargetReady, Source, true);
    var starting := StartAndRecord(plan.previously) + SwitchCode(plan);
    LegalPersist(plan, Advance(TargetReady), starting, ServicesStopped, Source, true);
  }

  function StoppedCode(plan: Plan): seq<Instr> {
    [Persist(Advance(ServicesStopped))] + ([Mutate, CopyData, Mutate] + LateCode(plan))
  }

  lemma StoppedLegal(plan: Plan)
    ensures Legal(plan, StoppedCode(plan), Prepared, Source, true)
    ensures forall i :: i in StoppedCode(plan) ==> ApplyInstr(plan, i)
  {
    LateLegal(plan);
    LegalAfter(plan, [Mutate, CopyData, Mutate], LateCode(plan), ServicesStopped, Source, true);
    LegalPersist(plan, Advance(ServicesStopped), [Mutate, CopyData, Mutate] + LateCode(plan), Prepared, Source, true);
  }

  /** The program of Apply, after it has been entered, keeps to the graph. */
  lemma ApplyLegal(plan: Plan)
    ensures |ApplyCode(plan)| >= 2
    ensures ApplyCode(plan)[0] == Create && ApplyCode(plan)[1] == Enter
    ensures Legal(plan, ApplyCode(plan)[2..], Prepared, Source, true)
    ensures forall i :: i in ApplyCode(plan)[2..] ==> ApplyInstr(plan, i)
  {
    StoppedLegal(plan);
    StopAndRecordInstrs(plan, plan.previously);
    var early := [CreateTarget, Persist(Keep)] + StopAndRecord(plan.previously);
    LegalAfter(plan, early, StoppedCode(plan), Prepared, Source, true);
    ApplySplit(plan, early);
  }

  function SwitchCode(plan: Plan): seq<Instr> {
    (if plan.needsRestart
     then [Persist(AdvanceTo(CatchSwitching, Target)), InstallCatch(Target), RestartTarget]
     else [])
    + [Persist(Advance(CatchSwitched)), CheckApply]
  }

  lemma SwitchLegal(plan: Plan)
    ensures Legal(plan, SwitchCode(plan), TargetReady, Source, true)
  {
    hide Legal;
    var done := Persist(Advance(CatchSwitched));
    var finish := [done] + [CheckApply];
    if plan.needsRestart {
      FinishLegal(plan, CatchSwitching, Target, false);
      LegalInert(plan, RestartTarget, finish, CatchSwitching, Target, false);
      var b := [RestartTarget] + finish;
      LegalInstall(plan, Target, b, CatchSwitching, Target, true);
      var over := Persist(AdvanceTo(CatchSwitching, Target));
      LegalPersist(plan, AdvanceTo(CatchSwitching, Target), [InstallCatch(Target)] + b, TargetReady, Source, true);
      Chained5(over, InstallCatch(Target), RestartTarget, done, CheckApply);
    } else {
      FinishLegal(plan, TargetReady, Source, true);
      assert SwitchCode(plan) == finish;
    }
  }

  lemma SwitchInstrs(plan: Plan)
    ensures forall i :: i in SwitchCode(plan) ==> ApplyInstr(plan, i)
  {
    var switch := if plan.needsRestart
      then [Persist(AdvanceTo(CatchSwitching, Target)), InstallCatch(Target), RestartTarget] else [];
    var finish := [Persist(Advance(CatchSwitched)), CheckApply];
    assert forall i :: i in switch ==> ApplyInstr(plan, i);
    assert forall i :: i in finish ==> ApplyInstr(plan, i);
    hide ApplyInstr;
    assert SwitchCode(plan) == switch + finish;
  }

  lemma FinishLegal(plan: Plan, p: Phase, a: Side, unit: bool)
    requires (p == CatchSwitching && a == Target) || (p == TargetReady && a == Source && unit && !plan.needsRestart)
    ensures Legal(plan, [Persist(Advance(CatchSwitched))] + [CheckApply], p, a, unit)
  {
    assert [CheckApply][1..] == [];
    LegalPersist(plan, Advance(CatchSwitched), [CheckApply], p, a, unit);
  }

  lemma ApplySplit(plan: Plan, early: seq<Instr>)
    requires early == [CreateTarget, Persist(Keep)] + StopAndRecord(plan.previously)
    ensures ApplyCode(plan)[0] == Create && ApplyCode(plan)[1] == Enter
    ensures ApplyCode(plan)[2..] == early + StoppedCode(plan)
  {
    hide StopAndRecord, StartAndRecord;
    assert ApplyCode(plan) == [Create, Enter] + (early + StoppedCode(plan));
  }

  // ----- a rollback starts well -----

  const CHECKED: seq<Instr> := [CheckRunning, Settle] + ROLLBACK_TAIL

  lemma {:induction false} BodyPrefix(a: seq<Instr>)
    requires forall i :: i in a ==> BodyInstr(i)
    ensures Body(a + CHECKED)
    decreases |a|
  {
    if a == [] {
      assert a + CHECKED == CHECKED;
      assert CHECKED[1..] == [Settle] + ROLLBACK_TAIL;
    } else {
      assert a[0] in a && forall i :: i in a[1..] ==> i in a;
      assert (a + CHECKED)[1..] == a[1..] + CHECKED;
      assert |a| > 1 ==> a[1] in a;
      BodyPrefix(a[1..]);
    }
  }

  function Collected(plan: Plan, tx: Tx): seq<Instr> {
    [Persist(Cause), CancelRestarts]
    + Stops(UniqueSorted(tx.restarted + plan.previously))
    + RestoreUnits(plan.unitOrder)
    + [RestoreDatabase, Reload]
    + Starts(UniqueSorted(plan.previously))
  }

  lemma ListKinds(names: seq<string>)
    ensures forall i :: i in Stops(names) ==> i.Stop? && i.name in names
    ensures forall i :: i in Starts(names) ==> i.Start? && i.name in names
    ensures forall i :: i in RestoreUnits(names) ==> i.RestoreUnit?
    ensures forall p :: p in names ==> RestoreUnit(p) in RestoreUnits(names)
    ensures forall p :: p in names ==> Stop(p) in Stops(names) && Start(p) in Starts(names)
    ensures forall i :: i in Unexpected(names) ==> i.StopUnexpected?
  {
    forall p | p in names
      ensures RestoreUnit(p) in RestoreUnits(names) && Stop(p) in Stops(names) && Start(p) in Starts(names)
    {
      var k :| 0 <= k < |names| && names[k] == p;
      assert RestoreUnits(names)[k] == RestoreUnit(p) && Stops(names)[k] == Stop(p) && Starts(names)[k] == Start(p);
    }
  }

  lemma CollectedParts(plan: Plan, tx: Tx, i: Instr)
    ensures i in Collected(plan, tx) <==>
            || i == Persist(Cause) || i == CancelRestarts || i == RestoreDatabase || i == Reload
            || i in Stops(UniqueSorted(tx.restarted + plan.previously))
            || i in RestoreUnits(plan.unitOrder)
            || i in Starts(UniqueSorted(plan.previously))
  {
    var a := [Persist(Cause), CancelRestarts];
    var b := Stops(UniqueSorted(tx.restarted + plan.previously));
    var c := RestoreUnits(plan.unitOrder);
    var d := [RestoreDatabase, Reload];
    var e := Starts(UniqueSorted(plan.previously));
    assert i in a <==> i == Persist(Cause) || i == CancelRestarts;
    assert i in d <==> i == RestoreDatabase || i == Reload;
    assert i in a + b + c + d + e <==> i in a || i in b || i in c || i in d || i in e;
  }

  lemma RollbackSplit(plan: Plan, tx: Tx)
    ensures RollbackCode(plan, tx) == Collected(plan, tx) + CHECKED
    ensures forall i :: i in Collected(plan, tx) ==> BodyInstr(i) && i != Mirror
    ensures RestoreDatabase in Collected(plan, tx)
    ensures forall p :: p in plan.unitOrder ==> RestoreUnit(p) in Collected(plan, tx)
  {
    hide UniqueSorted, Stops, Starts, RestoreUnits;
    ListKinds(UniqueSorted(tx.restarted + plan.previously));
    ListKinds(plan.unitOrder);
    ListKinds(UniqueSorted(plan.previously));
    assert RollbackCode(plan, tx) == Collected(plan, tx) + CHECKED;
    hide RollbackCode, Collected;
    forall i ensures i in Collected(plan, tx) ==> BodyInstr(i) && i != Mirror {
      CollectedParts(plan, tx, i);
    }
    CollectedParts(plan, tx, RestoreDatabase);
    forall p | p in plan.unitOrder ensures RestoreUnit(p) in Collected(plan, tx) {
      CollectedParts(plan, tx, RestoreUnit(p));
    }
  }

  lemma RollbackReady(plan: Plan, w: World, tx: Tx, before: seq<Instr>)
    requires ValidPlan(plan) && forall i :: i in before ==> i.StopUnexpected?
    ensures Body(before + RollbackCode(plan, tx)) && Progress(plan, w, before + RollbackCode(plan, tx))
    ensures Mirror !in before + RollbackCode(plan, tx)
  {
    hide RollbackCode;
    RollbackSplit(plan, tx);
    var a := before + Collected(plan, tx);
    BodyPrefix(a);
    assert before + RollbackCode(plan, tx) == a + CHECKED;
    assert RestoreDatabase in a;
    forall p | p in plan.units ensures RestoreUnit(p) in a {
      assert p in plan.unitOrder && RestoreUnit(p) in Collected(plan, tx);
    }
    assert a[0] == if before == [] then Persist(Cause) else before[0];
    assert before != [] ==> before[0] in before;
    assert Mirror !in before && Mirror !in Collected(plan, tx) && Mirror !in CHECKED;
  }

  lemma RollbackJobOk(plan: Plan, w: World, log: seq<Tx>, tx: Tx, before: seq<Instr>, runningAs: Side)
    requires ValidPlan(plan) && WorldOk(plan, w, log) && w.tree == Whole
    requires w.src.Some? && SamePos(w.src.value, tx) && Booked(plan, tx) && Open(tx.phase)
    requires forall i :: i in before ==> i.StopUnexpected?
    ensures JobOk(plan, w, log, Job(before + RollbackCode(plan, tx), tx, Joined, false, runningAs))
  {
    RollbackReady(plan, w, tx, before);
    RollbackLegal(plan, tx, w.catchUnit == Source);
    LegalAfter(plan, before, RollbackCode(plan, tx), tx.phase, tx.authority, w.catchUnit == Source);
    JoinedFrom(plan, w, log, before + RollbackCode(plan, tx), tx, runningAs);
  }

  lemma JoinedFrom(plan: Plan, w: World, log: seq<Tx>, code: seq<Instr>, tx: Tx, runningAs: Side)
    requires Steady(plan, w, log, tx) && Open(tx.phase) && w.tree == Whole
    requires Body(code) && Progress(plan, w, code) && Mirror !in code
    requires Legal(plan, code, tx.phase, tx.authority, w.catchUnit == Source)
    ensures JobOk(plan, w, log, Job(code, tx, Joined, false, runningAs))
  {
  }

  // ----- one instruction, mode by mode -----

  /** The common part of a job invariant outside creation and cleaning. */
  predicate Steady(plan: Plan, w: World, log: seq<Tx>, tx: Tx) {
    WorldOk(plan, w, log) && w.src.Some? && SamePos(w.src.value, tx) && Booked(plan, tx)
  }

  lemma BookedUpdate(plan: Plan, u: Update, tx: Tx)
    requires Booked(plan, tx)
    requires u.AddStopped? || u.AddRestarted? ==> u.name in plan.previously
    ensures Booked(plan, Updated(u, tx))
  {
  }

  lemma PersistEffect(plan: Plan, u: Update, w: World, tx: Tx, log: seq<Tx>, runningAs: Side, o: Outcome,
                      rest: seq<Instr>)
    requires ValidPlan(plan) && Steady(plan, w, log, tx) && w.tree == Whole
    requires Legal(plan, [Persist(u)] + rest, tx.phase, tx.authority, w.catchUnit == Source)
    requires u.AddStopped? || u.AddRestarted? ==> u.name in plan.previously
    requires Announced(Updated(u, tx).phase) ==> Restored(plan, w)
    ensures var e := Perform(plan, Persist(u), w, tx, log, runningAs, o);
            && Steady(plan, e.w, e.log, e.tx)
            && e.w == w.(src := e.w.src) && !e.control.Repeat?
            && (e.control.Next? ==>
                  e.control == Next([Mirror]) && e.tx == Updated(u, tx) && e.w.src.value == e.tx &&
                  Legal(plan, [Mirror] + rest, e.tx.phase, e.tx.authority, w.catchUnit == Source))
            && (e.tx.phase == tx.phase || e.tx.phase == Updated(u, tx).phase)
            && (!Reloads(u) ==> Legal(plan, rest, e.tx.phase, e.tx.authority, w.catchUnit == Source))
  {
    var next := Updated(u, tx);
    assert ([Persist(u)] + rest)[1..] == rest;
    BookedUpdate(plan, u, tx);
    WriteKeepsFrom(plan, w, log, tx, u);
    if next.phase == Updated(u, Tx(tx.phase, tx.authority, [], [], false)).phase {
      LegalInert(plan, Mirror, rest, next.phase, next.authority, w.catchUnit == Source);
    }
  }

  lemma WriteKeepsFrom(plan: Plan, w: World, log: seq<Tx>, tx: Tx, u: Update)
    requires ValidPlan(plan) && Steady(plan, w, log, tx) && w.tree == Whole
    requires Booked(plan, Updated(u, tx))
    requires var next := Updated(u, Tx(tx.phase, tx.authority, [], [], false));
             && Edge(plan, tx.phase, tx.authority, next.phase, next.authority)
             && (next.authority == Source || next.phase == SourceRestartPending ==> w.catchUnit == Source)
    requires Announced(Updated(u, tx).phase) ==> Restored(plan, w)
    ensures WorldOk(plan, w.(src := Some(Updated(u, tx))), log + [Updated(u, tx)])
    ensures w.src.value in log
  {
    WriteKeeps(plan, w, log, Updated(u, tx));
  }

  lemma MirrorEffect(plan: Plan, w: World, tx: Tx, log: seq<Tx>, runningAs: Side, o: Outcome)
    requires Steady(plan, w, log, tx) && w.tree == Whole && w.src.value == tx
    ensures var e := Perform(plan, Mirror, w, tx, log, runningAs, o);
            && Steady(plan, e.w, e.log, e.tx) && e.tx == tx && e.w == w.(tgt := e.w.tgt) && !e.control.Repeat?
            && (e.control.Next? ==> e.control == Next([]))
            && (e.control.Next? && TargetReadable(plan, w) ==> e.w.tgt == Some(tx))
  {
    assert tx in log;
    if TargetReadable(plan, w) {
      MirrorKeeps(plan, w, log, tx);
    }
  }

  /** What one instruction of a job outside creation and cleaning leaves behind. */
  predicate Kept(plan: Plan, rest: seq<Instr>, e: Effect) {
    && Steady(plan, e.w, e.log, e.tx)
    && (e.control.Next? ==>
          && (e.control.extra != [] && e.control.extra[0] == Mirror ==> e.w.src.value == e.tx)
          && Legal(plan, e.control.extra + rest, e.tx.phase, e.tx.authority, e.w.catchUnit == Source))
  }

  lemma PersistKept(plan: Plan, u: Update, w: World, tx: Tx, log: seq<Tx>, runningAs: Side, o: Outcome,
                    rest: seq<Instr>)
    requires ValidPlan(plan) && Steady(plan, w, log, tx) && w.tree == Whole
    requires Legal(plan, [Persist(u)] + rest, tx.phase, tx.authority, w.catchUnit == Source)
    requires u.AddStopped? || u.AddRestarted? ==> u.name in plan.previously
    requires Announced(Updated(u, tx).phase) ==> Restored(plan, w)
    ensures Kept(plan, rest, Perform(plan, Persist(u), w, tx, log, runningAs, o))
  {
    PersistEffect(plan, u, w, tx, log, runningAs, o, rest);
  }

  lemma MirrorKept(plan: Plan, w: World, tx: Tx, log: seq<Tx>, runningAs: Side, o: Outcome, rest: seq<Instr>)
    requires Steady(plan, w, log, tx) && w.tree == Whole && w.src.value == tx
    requires Legal(plan, [Mirror] + rest, tx.phase, tx.authority, w.catchUnit == Source)
    ensures Kept(plan, rest, Perform(plan, Mirror, w, tx, log, runningAs, o))
  {
    assert ([Mirror] + rest)[1..] == rest && [] + rest == rest;
    MirrorEffect(plan, w, tx, log, runningAs, o);
  }

  /** An effect that leaves both journals, the tree and what they vouch for alone. */
  predicate Framed(w: World, w': World, tx: Tx) {
    && w'.src == w.src && w'.tgt == w.tgt && w'.tree == w.tree && (w.targetRoot ==> w'.targetRoot)
    && (w'.catchUnit == w.catchUnit || w'.catchUnit == Source ||
        (tx.authority == Target && tx.phase != SourceRestartPending))
  }

  predicate SameHost(w: World, w': World) {
    w'.services == w.services && w'.units == w.units && w'.running == w.running
  }

  lemma FramedSteady(plan: Plan, w: World, w': World, tx: Tx, log: seq<Tx>)
    requires Steady(plan, w, log, tx) && Framed(w, w', tx)
    requires SameHost(w, w') || !Announced(tx.phase)
    ensures Steady(plan, w', log, tx)
  {
    FrameKeeps(plan, w, w', log);
  }

  lemma FramedKept(plan: Plan, i: Instr, rest: seq<Instr>, w: World, tx: Tx, log: seq<Tx>, e: Effect)
    requires Steady(plan, w, log, tx) && Framed(w, e.w, tx) && e.tx == tx && e.log == log
    requires SameHost(w, e.w) || !Announced(tx.phase)
    requires Legal(plan, [i] + rest, tx.phase, tx.authority, w.catchUnit == Source)
    requires Inert(i) && e.w.catchUnit == w.catchUnit
    requires e.control.Next? ==> e.control.extra == []
    ensures Kept(plan, rest, e)
  {
    assert ([i] + rest)[1..] == rest && [] + rest == rest;
    FramedSteady(plan, w, e.w, tx, log);
  }

  lemma LookUpIdle(plan: Plan, w: World, log: seq<Tx>, o: Outcome)
    requires w.src.Some? ==> w.src.value.phase != SourceRestartPending
    ensures LookUp(plan, w, log, o) == (w, log)
  {
  }

  // ----- applying -----

  lemma ApplyingFrame(plan: Plan, i: Instr, w: World, tx: Tx, log: seq<Tx>, runningAs: Side, o: Outcome)
    requires ApplyInstr(plan, i) && !i.Persist? && i != CopyData && !i.InstallCatch?
    requires w.src.Some? && w.src.value.phase != SourceRestartPending
    ensures var e := Perform(plan, i, w, tx, log, runningAs, o);
            && Framed(w, e.w, tx) && e.tx == tx && e.log == log && e.w.catchUnit == w.catchUnit && Inert(i)
            && (e.control.Next? ==> e.control.extra == [])
            && (e.control.Repeat? ==> i == Mutate)
  {
    LookUpIdle(plan, w, log, o);
  }

  lemma ApplyingKept(plan: Plan, i: Instr, rest: seq<Instr>, w: World, tx: Tx, log: seq<Tx>, runningAs: Side,
                     o: Outcome)
    requires ValidPlan(plan) && Steady(plan, w, log, tx) && w.tree == Whole && Open(tx.phase)
    requires if i == Mirror then w.src.value == tx else ApplyInstr(plan, i)
    requires Legal(plan, [i] + rest, tx.phase, tx.authority, w.catchUnit == Source)
    ensures Kept(plan, rest, Perform(plan, i, w, tx, log, runningAs, o))
  {
    if i == Mirror {
      MirrorKept(plan, w, tx, log, runningAs, o, rest);
    } else if i.Persist? {
      PersistKept(plan, i.u, w, tx, log, runningAs, o, rest);
    } else if i == CopyData {
      CopyKept(plan, w, tx, log, runningAs, o, rest);
    } else if i.InstallCatch? {
      InstallKept(plan, i.side, w, tx, log, runningAs, o, rest);
    } else {
      ApplyingFrame(plan, i, w, tx, log, runningAs, o);
      FramedKept(plan, i, rest, w, tx, log, Perform(plan, i, w, tx, log, runningAs, o));
    }
  }

  lemma CopyKept(plan: Plan, w: World, tx: Tx, log: seq<Tx>, runningAs: Side, o: Outcome, rest: seq<Instr>)
    requires Steady(plan, w, log, tx) && w.tree == Whole
    requires Legal(plan, [CopyData] + rest, tx.phase, tx.authority, w.catchUnit == Source)
    ensures Kept(plan, rest, Perform(plan, CopyData, w, tx, log, runningAs, o))
  {
    assert ([CopyData] + rest)[1..] == rest && [] + rest == rest;
    if plan.hasTarget {
      var w' := w.(targetRoot := true);
      FramedSteady(plan, w, w', tx, log);
      assert w.src.value in log;
      MirrorKeeps(plan, w', log, w.src.value);
      assert w.(tgt := w.src, targetRoot := true) == w'.(tgt := Some(w.src.value));
    }
  }

  lemma InstallKept(plan: Plan, side: Side, w: World, tx: Tx, log: seq<Tx>, runningAs: Side, o: Outcome,
                    rest: seq<Instr>)
    requires Steady(plan, w, log, tx)
    requires Legal(plan, [InstallCatch(side)] + rest, tx.phase, tx.authority, w.catchUnit == Source)
    ensures Kept(plan, rest, Perform(plan, InstallCatch(side), w, tx, log, runningAs, o))
  {
    assert ([InstallCatch(side)] + rest)[1..] == rest && [] + rest == rest;
    FramedSteady(plan, w, w.(catchUnit := side, record := o.record), tx, log);
  }

  lemma ApplyingFacts(plan: Plan, i: Instr, w: World, tx: Tx, log: seq<Tx>, runningAs: Side, o: Outcome)
    requires (i == Mirror || ApplyInstr(plan, i)) && Open(tx.phase) && w.src.Some? && Open(w.src.value.phase)
    ensures var e := Perform(plan, i, w, tx, log, runningAs, o);
            && e.w.tree == w.tree && Open(e.tx.phase)
            && (e.control.Next? ==> e.control.extra == [] || e.control.extra == [Mirror])
            && (e.control.Repeat? ==> i == Mutate && e.tx == tx && e.w.catchUnit == w.catchUnit && e.w.src == w.src)
  {
    LookUpIdle(plan, w, log, o);
  }

  lemma ApplyingContinues(plan: Plan, s: State, e: Effect)
    requires ValidPlan(plan) && Inv(plan, s) && s.proc.Up? && s.proc.job.Some?
    requires s.proc.job.value.mode == Applying && s.proc.job.value.code != []
    requires Kept(plan, s.proc.job.value.code[1..], e) && e.w.tree == Whole && Open(e.tx.phase)
    requires e.control.Next? ==> e.control.extra == [] || e.control.extra == [Mirror]
    requires e.control.Repeat? ==>
               s.proc.job.value.code[0] == Mutate && e.tx == s.proc.job.value.tx &&
               e.w.catchUnit == s.w.catchUnit && e.w.src == s.w.src
    ensures Inv(plan, Continue(plan, s, e))
  {
    var job := s.proc.job.value;
    assert forall j :: j in job.code ==> j == Mirror || ApplyInstr(plan, j);
    assert MirrorNext(s.w, job.code, job.tx) &&
           Legal(plan, job.code, job.tx.phase, job.tx.authority, s.w.catchUnit == Source);
    assert job.code[0] in job.code && job.code[0] != Settle && job.code[0] != Enter;
    hide Inv, WorldOk, RollbackCode, Legal, JobOk, ApplyInstr;
    var rest := job.code[1..];
    assert forall j :: j in rest ==> j in job.code;
    var s' := s.(w := e.w, log := e.log);
    match e.control
    case Fail =>
      RollbackJobOk(plan, e.w, e.log, e.tx, [], e.runningAs);
      assert [] + RollbackCode(plan, e.tx) == RollbackCode(plan, e.tx);
      JobStarts(plan, s', RollbackJob(plan, e.tx, e.runningAs));
    case Next(extra) =>
      Followed(extra, rest, e.w, e.tx);
      ApplyingFrom(plan, e.w, e.log, extra + rest, e.tx, job.failed, e.runningAs);
      GoesOn(plan, s, e);
      JobStarts(plan, s', Job(extra + rest, e.tx, Applying, job.failed, e.runningAs));
    case Repeat =>
      ApplyingFrom(plan, e.w, e.log, job.code, e.tx, job.failed, e.runningAs);
      JobStarts(plan, s', Job(job.code, e.tx, Applying, job.failed, e.runningAs));
  }

  lemma Followed(extra: seq<Instr>, rest: seq<Instr>, w: World, tx: Tx)
    requires extra == [] || (extra == [Mirror] && w.src == Some(tx))
    requires Mirror !in rest
    ensures MirrorNext(w, extra + rest, tx)
    ensures forall j :: j in extra + rest ==> j == Mirror || j in rest
  {
    if extra == [] {
      assert extra + rest == rest;
      assert rest != [] ==> forall j :: j in rest[1..] ==> j in rest;
    } else {
      assert (extra + rest)[1..] == rest;
    }
  }

  lemma ApplyingFrom(plan: Plan, w: World, log: seq<Tx>, code: seq<Instr>, tx: Tx, failed: bool, runningAs: Side)
    requires Steady(plan, w, log, tx) && Open(tx.phase) && w.tree == Whole
    requires MirrorNext(w, code, tx) && forall i :: i in code ==> i == Mirror || ApplyInstr(plan, i)
    requires Legal(plan, code, tx.phase, tx.authority, w.catchUnit == Source)
    ensures JobOk(plan, w, log, Job(code, tx, Applying, failed, runningAs))
  {
  }

  lemma ApplyingStep(plan: Plan, s: State, o: Outcome)
    requires ValidPlan(plan) && Inv(plan, s) && s.proc.Up? && s.proc.job.Some?
    requires s.proc.job.value.mode == Applying && s.proc.job.value.code != []
    ensures Inv(plan, Run1(plan, s, o))
  {
    var job := s.proc.job.value;
    var i, rest := job.code[0], job.code[1..];
    assert job.code == [i] + rest && i in job.code;
    ApplyingKept(plan, i, rest, s.w, job.tx, s.log, job.runningAs, o);
    ApplyingFacts(plan, i, s.w, job.tx, s.log, job.runningAs, o);
    ApplyingContinues(plan, s, Perform(plan, i, s.w, job.tx, s.log, job.runningAs, o));
  }

  // ----- the joined part of a rollback -----

  predicate JoinedInstr(i: Instr) {
    BodyInstr(i) || i == CheckRunning || i == Settle
  }

  lemma JoinedFrame(plan: Plan, i: Instr, w: World, tx: Tx, log: seq<Tx>, runningAs: Side, o: Outcome)
    requires JoinedInstr(i) && !i.Persist? && i != Mirror
    requires w.src.Some? && w.src.value.phase != SourceRestartPending
    ensures var e := Perform(plan, i, w, tx, log, runningAs, o);
            && Framed(w, e.w, tx) && e.tx == tx && e.log == log && e.w.catchUnit == w.catchUnit && Inert(i)
            && (e.control.Next? ==> e.control.extra == []) && !e.control.Repeat?
  {
    LookUpIdle(plan, w, log, o);
  }

  lemma JoinedKept(plan: Plan, i: Instr, rest: seq<Instr>, w: World, tx: Tx, log: seq<Tx>, runningAs: Side, o: Outcome)
    requires ValidPlan(plan) && Steady(plan, w, log, tx) && w.tree == Whole && Open(tx.phase)
    requires JoinedInstr(i) && (i == Mirror ==> w.src.value == tx)
    requires Legal(plan, [i] + rest, tx.phase, tx.authority, w.catchUnit == Source)
    ensures Kept(plan, rest, Perform(plan, i, w, tx, log, runningAs, o))
  {
    if i.Persist? {
      PersistKept(plan, i.u, w, tx, log, runningAs, o, rest);
    } else if i == Mirror {
      MirrorKept(plan, w, tx, log, runningAs, o, rest);
    } else {
      JoinedFrame(plan, i, w, tx, log, runningAs, o);
      FramedKept(plan, i, rest, w, tx, log, Perform(plan, i, w, tx, log, runningAs, o));
    }
  }

  lemma JoinedFacts(plan: Plan, i: Instr, rest: seq<Instr>, w: World, tx: Tx, log: seq<Tx>, runningAs: Side, o: Outcome)
    requires ValidPlan(plan) && Steady(plan, w, log, tx) && w.tree == Whole && Open(tx.phase)
    requires JoinedInstr(i) && (i == Mirror ==> w.src.value == tx)
    requires Legal(plan, [i] + rest, tx.phase, tx.authority, w.catchUnit == Source)
    ensures var e := Perform(plan, i, w, tx, log, runningAs, o);
            && e.w.tree == w.tree && e.tx.phase == tx.phase && !e.control.Repeat?
            && (e.control.Next? ==> e.control.extra == [] || (e.control.extra == [Mirror] && i.Persist?))
            && Legal(plan, rest, e.tx.phase, e.tx.authority, e.w.catchUnit == Source)
  {
    hide Perform, WorldOk, Booked, Restored;
    assert ([i] + rest)[1..] == rest;
    if i.Persist? {
      PersistEffect(plan, i.u, w, tx, log, runningAs, o, rest);
      assert i.u == Cause;
    } else if i == Mirror {
      MirrorEffect(plan, w, tx, log, runningAs, o);
    } else {
      JoinedFrame(plan, i, w, tx, log, runningAs, o);
    }
  }

  /** Whether this part of the host is as it was before the migration. */
  predicate UnitBack(plan: Plan, w: World, p: string) {
    p in plan.units ==> p in w.units && w.units[p] == plan.units[p]
  }

  lemma JoinedWrites(plan: Plan, i: Instr, w: World, tx: Tx, log: seq<Tx>, runningAs: Side, o: Outcome)
    requires JoinedInstr(i) && w.src.Some? && w.src.value.phase != SourceRestartPending
    requires Perform(plan, i, w, tx, log, runningAs, o).control.Next?
    ensures var w' := Perform(plan, i, w, tx, log, runningAs, o).w;
            && w'.units == (if i.RestoreUnit? && i.path in plan.units then w.units[i.path := plan.units[i.path]]
                            else w.units)
            && w'.services == (if i == RestoreDatabase then plan.services else w.services)
  {
    LookUpIdle(plan, w, log, o);
    hide LookUp, Matches, Updated, Tracked, TargetReadable;
    match i
    case Persist(_) =>
    case Stop(_) =>
    case Start(_) =>
    case StopUnexpected(_) =>
    case RestoreUnit(_) =>
    case _ =>
  }

  /** No instruction of the joined part undoes what another one has restored. */
  lemma JoinedRestores(plan: Plan, i: Instr, w: World, w': World)
    requires w'.units == if i.RestoreUnit? && i.path in plan.units then w.units[i.path := plan.units[i.path]]
                         else w.units
    ensures forall p :: i == RestoreUnit(p) || UnitBack(plan, w, p) ==> UnitBack(plan, w', p)
  {
  }

  lemma CheckedRunning(plan: Plan, w: World, tx: Tx, log: seq<Tx>, runningAs: Side, o: Outcome)
    requires Booked(plan, tx) && w.src.Some? && w.src.value.phase != SourceRestartPending
    requires Perform(plan, CheckRunning, w, tx, log, runningAs, o).control.Next?
    ensures Matches(plan, Perform(plan, CheckRunning, w, tx, log, runningAs, o).w.running, Tracked(plan, FIRST))
  {
    LookUpIdle(plan, w, log, o);
    BookedTracks(plan, tx);
    hide LookUp, Matches, Booked, Tracked;
  }

  /** Work that an instruction completes need not be done again. */
  lemma JoinedProgress(plan: Plan, i: Instr, rest: seq<Instr>, extra: seq<Instr>,
                       w: World, tx: Tx, log: seq<Tx>, runningAs: Side, o: Outcome)
    requires Body([i] + rest) && i != Settle && Progress(plan, w, [i] + rest) && Booked(plan, tx)
    requires w.src.Some? && w.src.value.phase != SourceRestartPending
    requires Perform(plan, i, w, tx, log, runningAs, o).control == Next(extra)
    requires extra == [] || extra == [Mirror]
    ensures Progress(plan, Perform(plan, i, w, tx, log, runningAs, o).w, extra + rest)
  {
    hide Perform, Booked, Matches, Tracked;
    var w' := Perform(plan, i, w, tx, log, runningAs, o).w;
    assert ([i] + rest)[1..] == rest;
    JoinedWrites(plan, i, w, tx, log, runningAs, o);
    JoinedRestores(plan, i, w, w');
    if i == CheckRunning {
      CheckedRunning(plan, w, tx, log, runningAs, o);
    }
    forall p | p in plan.units
      ensures RestoreUnit(p) in extra + rest || (p in w'.units && w'.units[p] == plan.units[p])
    {
      assert RestoreUnit(p) in [i] + rest ==> i == RestoreUnit(p) || RestoreUnit(p) in rest;
      assert UnitBack(plan, w', p) || RestoreUnit(p) in rest;
    }
    assert RestoreDatabase in [i] + rest ==> i == RestoreDatabase || RestoreDatabase in rest;
    assert extra == [] ==> extra + rest == rest;
  }

  lemma SettleContinues(plan: Plan, s: State, e: Effect)
    requires ValidPlan(plan) && Inv(plan, s) && s.proc.Up? && s.proc.job.Some?
    requires var job := s.proc.job.value; job.mode == Joined && job.code != [] && job.code[0] == Settle
    requires e == Effect(s.w, s.proc.job.value.tx, s.log, Next([]), s.proc.job.value.runningAs)
    ensures Inv(plan, Continue(plan, s, e))
  {
    var job := s.proc.job.value;
    SettledFacts(plan, s);
    hide Inv, JobOk, WorldOk, Legal;
    assert job.code[1..] == ROLLBACK_TAIL && [] + ROLLBACK_TAIL == ROLLBACK_TAIL;
    if job.failed {
      JoinedOver(plan, s.w, s.log, job.tx, job.runningAs);
      JobStarts(plan, s, Job([], job.tx, Joined, true, job.runningAs));
    } else {
      PlainFrom(plan, s.w, s.log, ROLLBACK_TAIL, job.tx, false, job.runningAs);
      JobStarts(plan, s, Job(ROLLBACK_TAIL, job.tx, Plain, false, job.runningAs));
    }
  }

  /** What is known when the joined part is over. */
  lemma SettledFacts(plan: Plan, s: State)
    requires Inv(plan, s) && s.proc.Up? && s.proc.job.Some?
    requires var job := s.proc.job.value; job.mode == Joined && job.code != [] && job.code[0] == Settle
    ensures var job := s.proc.job.value;
            && job.code == [Settle] + ROLLBACK_TAIL
            && Steady(plan, s.w, s.log, job.tx) && Open(job.tx.phase) && s.w.tree == Whole
            && MirrorNext(s.w, ROLLBACK_TAIL, job.tx) && (forall i :: i in ROLLBACK_TAIL ==> PlainInstr(i))
            && Legal(plan, ROLLBACK_TAIL, job.tx.phase, job.tx.authority, s.w.catchUnit == Source)
            && (!job.failed ==> Restored(plan, s.w))
  {
    hide WorldOk, Legal, Restored, UnitsRestored;
    var job := s.proc.job.value;
    assert job.code == [Settle] + ROLLBACK_TAIL;
    assert job.code[1..] == ROLLBACK_TAIL;
    TailAllowed(plan, job.tx.phase, job.tx.authority, s.w.catchUnit == Source);
    SettledRestores(plan, s.w, job.code);
  }

  lemma TailAllowed(plan: Plan, p: Phase, x: Side, unit: bool)
    requires Legal(plan, [Settle] + ROLLBACK_TAIL, p, x, unit)
    ensures Legal(plan, ROLLBACK_TAIL, p, x, unit)
  {
    assert ([Settle] + ROLLBACK_TAIL)[1..] == ROLLBACK_TAIL;
  }

  lemma SettledRestores(plan: Plan, w: World, code: seq<Instr>)
    requires code == [Settle] + ROLLBACK_TAIL
    ensures Progress(plan, w, code) ==> Restored(plan, w)
  {
    assert (forall p :: RestoreUnit(p) !in code) && RestoreDatabase !in code;
  }

  /** A joined part that is over because something in it failed. */
  lemma JoinedOver(plan: Plan, w: World, log: seq<Tx>, tx: Tx, runningAs: Side)
    requires Steady(plan, w, log, tx) && Open(tx.phase) && w.tree == Whole
    ensures JobOk(plan, w, log, Job([], tx, Joined, true, runningAs))
  {
    hide WorldOk;
  }

  predicate Promises(tx: Tx, code: seq<Instr>) {
    Announced(tx.phase) || exists i :: i in code && Announces(i)
  }

  lemma PlainFrom(plan: Plan, w: World, log: seq<Tx>, code: seq<Instr>, tx: Tx, failed: bool, runningAs: Side)
    requires Steady(plan, w, log, tx) && w.tree == Whole && (Promises(tx, code) ==> Restored(plan, w))
    requires MirrorNext(w, code, tx) && forall i :: i in code ==> PlainInstr(i)
    requires Legal(plan, code, tx.phase, tx.authority, w.catchUnit == Source)
    ensures JobOk(plan, w, log, Job(code, tx, Plain, failed, runningAs))
  {
  }

  lemma JoinedAgain(plan: Plan, w: World, log: seq<Tx>, code: seq<Instr>, tx: Tx, failed: bool, runningAs: Side)
    requires Steady(plan, w, log, tx) && Open(tx.phase) && w.tree == Whole
    requires Body(code) && (!failed ==> Progress(plan, w, code)) && MirrorNext(w, code, tx)
    requires Legal(plan, code, tx.phase, tx.authority, w.catchUnit == Source)
    ensures JobOk(plan, w, log, Job(code, tx, Joined, failed, runningAs))
  {
  }

  lemma BodyTail(code: seq<Instr>)
    requires Body(code) && code[0] != Settle
    ensures Body(code[1..]) && (code[0].Persist? ==> Body([Mirror] + code[1..]))
  {
    assert ([Mirror] + code[1..])[1..] == code[1..];
    if code[0] == CheckRunning {
      assert code[1..][1..] == ROLLBACK_TAIL;
    } else {
      assert code[0].Persist? ==> |[Mirror] + code[1..]| > 1 && ([Mirror] + code[1..])[1] == code[1];
    }
  }

  lemma JoinedFails(plan: Plan, s: State, e: Effect)
    requires s.proc.Up? && s.proc.job.Some? && s.proc.job.value.mode == Joined
    requires var job := s.proc.job.value; Body(job.code) && job.code[0] != Settle && Mirror !in job.code[1..]
    requires Steady(plan, e.w, e.log, e.tx) && e.w.tree == Whole && Open(e.tx.phase) && e.control.Fail?
    requires Legal(plan, s.proc.job.value.code[1..], e.tx.phase, e.tx.authority, e.w.catchUnit == Source)
    ensures Inv(plan, Continue(plan, s, e))
  {
    var rest := s.proc.job.value.code[1..];
    BodyTail(s.proc.job.value.code);
    Followed([], rest, e.w, e.tx);
    assert [] + rest == rest;
    JoinedAgain(plan, e.w, e.log, rest, e.tx, true, e.runningAs);
  }

  lemma JoinedGoes(plan: Plan, s: State, e: Effect)
    requires s.proc.Up? && s.proc.job.Some? && s.proc.job.value.mode == Joined
    requires var job := s.proc.job.value; Body(job.code) && job.code[0] != Settle && Mirror !in job.code[1..]
    requires Kept(plan, s.proc.job.value.code[1..], e) && e.w.tree == Whole && Open(e.tx.phase) && e.control.Next?
    requires e.control.extra == [] || (e.control.extra == [Mirror] && s.proc.job.value.code[0].Persist?)
    requires !s.proc.job.value.failed ==> Progress(plan, e.w, e.control.extra + s.proc.job.value.code[1..])
    ensures Inv(plan, Continue(plan, s, e))
  {
    var job := s.proc.job.value;
    var rest, extra := job.code[1..], e.control.extra;
    BodyTail(job.code);
    Followed(extra, rest, e.w, e.tx);
    assert extra == [] ==> extra + rest == rest;
    JoinedAgain(plan, e.w, e.log, extra + rest, e.tx, job.failed, e.runningAs);
  }

  lemma JoinedStep(plan: Plan, s: State, o: Outcome)
    requires ValidPlan(plan) && Inv(plan, s) && s.proc.Up? && s.proc.job.Some?
    requires s.proc.job.value.mode == Joined && s.proc.job.value.code != []
    ensures Inv(plan, Run1(plan, s, o))
  {
    var job := s.proc.job.value;
    var i, rest := job.code[0], job.code[1..];
    assert job.code == [i] + rest;
    var e := Perform(plan, i, s.w, job.tx, s.log, job.runningAs, o);
    if i == Settle {
      SettleContinues(plan, s, e);
    } else {
      JoinedKept(plan, i, rest, s.w, job.tx, s.log, job.runningAs, o);
      JoinedFacts(plan, i, rest, s.w, job.tx, s.log, job.runningAs, o);
      if e.control.Fail? {
        JoinedFails(plan, s, e);
      } else {
        if !job.failed {
          JoinedProgress(plan, i, rest, e.control.extra, s.w, job.tx, s.log, job.runningAs, o);
        }
        JoinedGoes(plan, s, e);
      }
    }
  }

  // ----- the tail of a rollback, and the completion of a hand-over -----

  lemma PlainKept(plan: Plan, i: Instr, rest: seq<Instr>, w: World, tx: Tx, log: seq<Tx>, runningAs: Side, o: Outcome)
    requires ValidPlan(plan) && Steady(plan, w, log, tx) && w.tree == Whole
    requires PlainInstr(i) && i != Abandon && (i == Mirror ==> w.src.value == tx)
    requires Promises(tx, [i] + rest) ==> Restored(plan, w)
    requires Legal(plan, [i] + rest, tx.phase, tx.authority, w.catchUnit == Source)
    ensures Kept(plan, rest, Perform(plan, i, w, tx, log, runningAs, o))
  {
    assert ([i] + rest)[1..] == rest && [] + rest == rest;
    if i.Persist? {
      assert i in [i] + rest;
      PersistKept(plan, i.u, w, tx, log, runningAs, o, rest);
    } else if i == Mirror {
      MirrorKept(plan, w, tx, log, runningAs, o, rest);
    } else if i.InstallCatch? {
      InstallKept(plan, i.side, w, tx, log, runningAs, o, rest);
    } else if i == RestoreAuthority {
      if tx.authority == Target {
        AuthorityLegal(plan, rest, tx.phase, runningAs, w.catchUnit == Source);
      }
    } else {
      FramedKept(plan, i, rest, w, tx, log, Perform(plan, i, w, tx, log, runningAs, o));
    }
  }

  lemma PlainFacts(plan: Plan, i: Instr, w: World, tx: Tx, log: seq<Tx>, runningAs: Side, o: Outcome)
    requires PlainInstr(i) && i != Abandon && i != RestoreAuthority
    ensures var e := Perform(plan, i, w, tx, log, runningAs, o);
            && e.w.tree == w.tree && SameHost(w, e.w) && !e.control.Repeat?
            && (e.control.Next? ==> e.control.extra == if i.Persist? then [Mirror] else [])
            && (e.control.Next? && Announced(e.tx.phase) ==> Announced(tx.phase) || Announces(i))
  {
  }

  lemma AuthorityFacts(plan: Plan, w: World, tx: Tx, log: seq<Tx>, runningAs: Side, o: Outcome)
    ensures var e := Perform(plan, RestoreAuthority, w, tx, log, runningAs, o);
            && e.w == w && e.tx == tx && e.control.Next? && Mirror !in e.control.extra
            && (forall j :: j in e.control.extra ==> PlainInstr(j))
  {
    var code := AuthorityCode(plan, runningAs);
    var middle := if RunsAs(plan, runningAs, Source) then []
      else [Persist(AdvanceTo(SourceRestartPending, Target)), RestartSource];
    assert forall j :: j in middle ==> PlainInstr(j) && j != Mirror;
    assert code == [InstallCatch(Source)] + middle + [Persist(Authority(Source))];
  }

  lemma PlainMembers(extra: seq<Instr>, rest: seq<Instr>)
    requires forall j :: j in extra ==> PlainInstr(j)
    requires forall j :: j in rest ==> PlainInstr(j)
    requires extra == [Mirror] || Mirror !in extra
    requires Mirror !in rest
    ensures forall j :: j in extra + rest ==> PlainInstr(j)
    ensures extra + rest != [] ==> Mirror !in (extra + rest)[1..]
    ensures extra + rest != [] && (extra + rest)[0] == Mirror ==> extra == [Mirror]
  {
    var code := extra + rest;
    if extra == [Mirror] {
      assert code[1..] == rest;
    } else if code != [] {
      assert forall j :: j in code[1..] ==> j in code;
      assert forall j :: j in code ==> j in extra || j in rest;
    }
  }

  lemma PlainGoes(plan: Plan, s: State, e: Effect)
    requires s.proc.Up? && s.proc.job.Some? && s.proc.job.value.mode == Plain && s.proc.job.value.code != []
    requires s.proc.job.value.code[0] != Settle && s.proc.job.value.code[0] != Enter
    requires Mirror !in s.proc.job.value.code[1..] && forall j :: j in s.proc.job.value.code[1..] ==> PlainInstr(j)
    requires Kept(plan, s.proc.job.value.code[1..], e) && e.w.tree == Whole && e.control.Next?
    requires forall j :: j in e.control.extra ==> PlainInstr(j)
    requires e.control.extra == [Mirror] || Mirror !in e.control.extra
    requires Promises(e.tx, e.control.extra + s.proc.job.value.code[1..]) ==> Restored(plan, e.w)
    ensures Inv(plan, Continue(plan, s, e))
  {
    var job := s.proc.job.value;
    var rest, extra := job.code[1..], e.control.extra;
    PlainMembers(extra, rest);
    PlainFrom(plan, e.w, e.log, extra + rest, e.tx, job.failed, e.runningAs);
  }

  lemma AbandonStep(plan: Plan, w: World, tx: Tx, log: seq<Tx>, runningAs: Side, o: Outcome)
    requires ValidPlan(plan) && Steady(plan, w, log, tx) && w.tree == Whole && Restored(plan, w)
    requires tx.phase == Prepared && tx.authority == Source && w.catchUnit == Source
    ensures var e := Perform(plan, Abandon, w, tx, log, runningAs, o);
            && WorldOk(plan, e.w, e.log) && !e.control.Repeat? && SameHost(w, e.w) && e.w.tree == w.tree
            && (e.control.Next? ==> e.control.extra == [] && Steady(plan, e.w, e.log, e.tx))
  {
    WriteKeeps(plan, w, log, tx.(phase := RolledBack, cause := true));
  }

  lemma EndKeeps(plan: Plan, s: State, tx: Tx, success: bool)
    requires s.proc.Up? && s.proc.job.Some? && WorldOk(plan, s.w, s.log)
    ensures Inv(plan, EndJob(s, tx, success))
  {
  }

  /** What the invariant says of a job in the tail. */
  lemma PlainKnown(plan: Plan, s: State)
    requires Inv(plan, s) && s.proc.Up? && s.proc.job.Some?
    requires s.proc.job.value.mode == Plain && s.proc.job.value.code != []
    ensures var job := s.proc.job.value;
            && Steady(plan, s.w, s.log, job.tx) && s.w.tree == Whole
            && (forall j :: j in job.code ==> PlainInstr(j)) && MirrorNext(s.w, job.code, job.tx)
            && (Promises(job.tx, job.code) ==> Restored(plan, s.w))
            && Legal(plan, job.code, job.tx.phase, job.tx.authority, s.w.catchUnit == Source)
            && (job.code[0] == Abandon ==>
                  job.tx.phase == Prepared && job.tx.authority == Source && s.w.catchUnit == Source &&
                      job.code[1..] == [])
  {
    hide WorldOk, Restored;
  }

  lemma PlainEnds(plan: Plan, s: State, e: Effect)
    requires s.proc.Up? && s.proc.job.Some? && s.proc.job.value.mode == Plain && s.proc.job.value.code != []
    requires WorldOk(plan, e.w, e.log) && e.control.Fail?
    ensures Inv(plan, Continue(plan, s, e))
  {
    hide WorldOk;
    EndKeeps(plan, s.(w := e.w, log := e.log), e.tx, false);
  }

  lemma AbandonGoes(plan: Plan, s: State, e: Effect)
    requires s.proc.Up? && s.proc.job.Some?
    requires var job := s.proc.job.value; job.mode == Plain && job.code == [Abandon]
    requires e.control == Next([]) && Steady(plan, e.w, e.log, e.tx) && e.w.tree == Whole && Restored(plan, e.w)
    ensures Inv(plan, Continue(plan, s, e))
  {
    hide WorldOk, Restored;
    var job := s.proc.job.value;
    assert [] + job.code[1..] == [];
    PlainFrom(plan, e.w, e.log, [], e.tx, job.failed, e.runningAs);
    JobStarts(plan, s.(w := e.w, log := e.log), Job([], e.tx, Plain, job.failed, e.runningAs));
  }

  lemma PlainStep(plan: Plan, s: State, o: Outcome)
    requires ValidPlan(plan) && Inv(plan, s) && s.proc.Up? && s.proc.job.Some?
    requires s.proc.job.value.mode == Plain && s.proc.job.value.code != []
    ensures Inv(plan, Run1(plan, s, o))
  {
    PlainKnown(plan, s);
    hide Perform, WorldOk, Inv, Continue, Legal, Restored;
    var job := s.proc.job.value;
    var i, rest := job.code[0], job.code[1..];
    assert job.code == [i] + rest && i in job.code;
    assert forall j :: j in rest ==> j in job.code;
    var e := Perform(plan, i, s.w, job.tx, s.log, job.runningAs, o);
    if i == Abandon {
      assert Announces(i);
      AbandonStep(plan, s.w, job.tx, s.log, job.runningAs, o);
      if e.control.Next? {
        HostKeeps(plan, s.w, e.w);
        AbandonGoes(plan, s, e);
      } else {
        PlainEnds(plan, s, e);
      }
    } else {
      PlainKept(plan, i, rest, s.w, job.tx, s.log, job.runningAs, o);
      PlainMoves(plan, s, i, rest, o);
    }
  }

  lemma HostKeeps(plan: Plan, w: World, w': World)
    requires Restored(plan, w) && SameHost(w, w')
    ensures Restored(plan, w')
  {
  }

  lemma PlainMoves(plan: Plan, s: State, i: Instr, rest: seq<Instr>, o: Outcome)
    requires s.proc.Up? && s.proc.job.Some? && s.proc.job.value.mode == Plain
    requires s.proc.job.value.code == [i] + rest && PlainInstr(i) && i != Abandon
    requires Mirror !in rest && (forall j :: j in rest ==> PlainInstr(j)) && s.w.tree == Whole
    requires Promises(s.proc.job.value.tx, [i] + rest) ==> Restored(plan, s.w)
    requires var job := s.proc.job.value;
             Kept(plan, rest, Perform(plan, i, s.w, job.tx, s.log, job.runningAs, o))
    ensures Inv(plan, Run1(plan, s, o))
  {
    hide Perform, WorldOk, Inv, Continue, Legal, Restored;
    var job := s.proc.job.value;
    var e := Perform(plan, i, s.w, job.tx, s.log, job.runningAs, o);
    assert job.code[1..] == rest && i in [i] + rest;
    if i == RestoreAuthority {
      AuthorityFacts(plan, s.w, job.tx, s.log, job.runningAs, o);
      assert Announces(i);
      PlainGoes(plan, s, e);
    } else {
      PlainFacts(plan, i, s.w, job.tx, s.log, job.runningAs, o);
      if e.control.Next? {
        PromiseKept(i, rest, job.tx, e.tx, e.control.extra);
        if Restored(plan, s.w) {
          HostKeeps(plan, s.w, e.w);
        }
        PlainGoes(plan, s, e);
      } else {
        PlainEnds(plan, s, e);
      }
    }
  }

  lemma PromiseKept(i: Instr, rest: seq<Instr>, tx: Tx, tx': Tx, extra: seq<Instr>)
    requires extra == [] || extra == [Mirror]
    requires Announced(tx'.phase) ==> Announced(tx.phase) || Announces(i)
    ensures Promises(tx', extra + rest) ==> Promises(tx, [i] + rest)
  {
    assert i in [i] + rest;
    if Promises(tx', extra + rest) && !Announced(tx'.phase) {
      var j :| j in extra + rest && Announces(j);
      assert j in rest;
      assert j in [i] + rest;
    }
  }

  // ----- finalizing -----

  lemma CheckEffect(plan: Plan, w: World, tx: Tx, log: seq<Tx>, runningAs: Side, o: Outcome)
    ensures var e := Perform(plan, CheckFinal, w, tx, log, runningAs, o);
            && e == Effect(w, tx, log, e.control, runningAs) && (e.control == Next([]) || e.control == Fail)
            && (e.control.Next? && plan.hasTarget ==> w.catchUnit == Target)
  {
  }

  /** What the invariant says of a job that finalizes. */
  lemma FinalFacts(plan: Plan, s: State)
    requires Inv(plan, s) && s.proc.Up? && s.proc.job.Some? && s.proc.job.value.mode == Finalizing
    ensures var job := s.proc.job.value;
            && Steady(plan, s.w, s.log, job.tx) && !Announced(job.tx.phase)
            && (s.w.tree == Whole || job.tx.phase == CleanupPending)
            && Legal(plan, job.code, job.tx.phase, job.tx.authority, s.w.catchUnit == Source)
            && (job.code == [] || job.code == [CheckFinal] ||
                (job.code == [Mirror] && s.w.tree == Whole && s.w.src == Some(job.tx)) ||
                (job.tx.phase == CatchSwitched &&
                 (job.code == [CheckFinal, Persist(Advance(FinalPhase(plan)))] ||
                  job.code == [Persist(Advance(FinalPhase(plan)))])))
  {
  }

  lemma GoesOn(plan: Plan, s: State, e: Effect)
    requires s.proc.Up? && s.proc.job.Some? && s.proc.job.value.code != [] && e.control.Next?
    requires s.proc.job.value.code[0] != Settle && s.proc.job.value.code[0] != Enter
    ensures var job := s.proc.job.value;
            Continue(plan, s, e) ==
            StartJob(s.(w := e.w, log := e.log),
                     Job(e.control.extra + job.code[1..], e.tx, job.mode, job.failed, e.runningAs))
  {
  }

  lemma JobStarts(plan: Plan, s: State, job: Job)
    requires s.proc.Up? && WorldOk(plan, s.w, s.log) && JobOk(plan, s.w, s.log, job)
    ensures Inv(plan, StartJob(s, job))
  {
    hide WorldOk, JobOk;
  }

  /** A finalizing step that succeeds, once it is known what it leaves. */
  lemma FinalGoesOn(plan: Plan, s: State, e: Effect)
    requires s.proc.Up? && s.proc.job.Some? && s.proc.job.value.mode == Finalizing && s.proc.job.value.code != []
    requires s.proc.job.value.code[0] != Settle && s.proc.job.value.code[0] != Enter && e.control.Next?
    requires Steady(plan, e.w, e.log, e.tx) && !Announced(e.tx.phase)
    requires e.w.tree == Whole || e.tx.phase == CleanupPending
    requires Legal(plan, e.control.extra + s.proc.job.value.code[1..], e.tx.phase, e.tx.authority,
                   e.w.catchUnit == Source)
    requires var code := e.control.extra + s.proc.job.value.code[1..];
             || code == []
             || (code == [Mirror] && e.w.src == Some(e.tx) && e.w.tree == Whole)
             || (code == [Persist(Advance(FinalPhase(plan)))] && e.tx.phase == CatchSwitched)
    ensures Inv(plan, Continue(plan, s, e))
  {
    hide WorldOk, Legal;
    var code := e.control.extra + s.proc.job.value.code[1..];
    GoesOn(plan, s, e);
    FinalFrom(plan, e.w, e.log, code, e.tx, s.proc.job.value.failed, e.runningAs);
    JobStarts(plan, s.(w := e.w, log := e.log), Job(code, e.tx, Finalizing, s.proc.job.value.failed, e.runningAs));
  }

  lemma FinalStops(plan: Plan, s: State, e: Effect)
    requires s.proc.Up? && s.proc.job.Some? && s.proc.job.value.mode == Finalizing && s.proc.job.value.code != []
    requires WorldOk(plan, e.w, e.log) && e.control.Fail?
    requires s.proc.job.value.code[0] != CheckFinal || e.tx.phase != CatchSwitched
    ensures Inv(plan, Continue(plan, s, e))
  {
    hide WorldOk;
    EndKeeps(plan, s.(w := e.w, log := e.log), e.tx, false);
  }

  lemma FinalRollsBack(plan: Plan, s: State, e: Effect)
    requires ValidPlan(plan)
    requires s.proc.Up? && s.proc.job.Some? && s.proc.job.value.mode == Finalizing && s.proc.job.value.code != []
    requires s.proc.job.value.code[0] == CheckFinal && e.tx.phase == CatchSwitched && e.control.Fail?
    requires Steady(plan, e.w, e.log, e.tx) && e.w.tree == Whole
    ensures Inv(plan, Continue(plan, s, e))
  {
    hide WorldOk, RollbackCode;
    var before := Unexpected(UniqueSorted(e.tx.stopped + plan.planned));
    ListKinds(UniqueSorted(e.tx.stopped + plan.planned));
    RollbackJobOk(plan, e.w, e.log, e.tx, before, e.runningAs);
    JobStarts(plan, s.(w := e.w, log := e.log), FinalRollbackJob(plan, e.tx, e.runningAs));
  }

  lemma FinalCheck(plan: Plan, s: State, o: Outcome)
    requires ValidPlan(plan) && Inv(plan, s) && s.proc.Up? && s.proc.job.Some?
    requires var job := s.proc.job.value; job.mode == Finalizing && job.code != [] && job.code[0] == CheckFinal
    ensures Inv(plan, Run1(plan, s, o))
  {
    FinalFacts(plan, s);
    hide Perform, WorldOk, Inv, Continue;
    var job := s.proc.job.value;
    CheckEffect(plan, s.w, job.tx, s.log, job.runningAs, o);
    var e := Perform(plan, CheckFinal, s.w, job.tx, s.log, job.runningAs, o);
    var rest := job.code[1..];
    if e.control.Next? {
      assert [] + rest == rest;
      FinalGoesOn(plan, s, e);
    } else if job.tx.phase == CatchSwitched {
      FinalRollsBack(plan, s, e);
    } else {
      FinalStops(plan, s, e);
    }
  }

  lemma FinalWrite(plan: Plan, s: State, o: Outcome)
    requires ValidPlan(plan) && Inv(plan, s) && s.proc.Up? && s.proc.job.Some?
    requires var job := s.proc.job.value; job.mode == Finalizing && job.code != [] && job.code[0] != CheckFinal
    ensures Inv(plan, Run1(plan, s, o))
  {
    FinalFacts(plan, s);
    hide Perform, WorldOk, Inv, Continue;
    var job := s.proc.job.value;
    var i, rest := job.code[0], job.code[1..];
    assert job.code == [i] + rest && rest == [];
    var e := Perform(plan, i, s.w, job.tx, s.log, job.runningAs, o);
    if i == Mirror {
      MirrorEffect(plan, s.w, job.tx, s.log, job.runningAs, o);
    } else {
      PersistEffect(plan, i.u, s.w, job.tx, s.log, job.runningAs, o, rest);
    }
    if e.control.Next? {
      assert e.control.extra + rest == e.control.extra;
      FinalGoesOn(plan, s, e);
    } else {
      FinalStops(plan, s, e);
    }
  }

  lemma FinalFrom(plan: Plan, w: World, log: seq<Tx>, code: seq<Instr>, tx: Tx, failed: bool, runningAs: Side)
    requires Steady(plan, w, log, tx) && !Announced(tx.phase)
    requires w.tree == Whole || tx.phase == CleanupPending
    requires Legal(plan, code, tx.phase, tx.authority, w.catchUnit == Source)
    requires || code == []
             || (code == [Mirror] && w.src == Some(tx) && w.tree == Whole)
             || (code == [Persist(Advance(FinalPhase(plan)))] && tx.phase == CatchSwitched)
    ensures JobOk(plan, w, log, Job(code, tx, Finalizing, failed, runningAs))
  {
  }

  lemma FinalizingStep(plan: Plan, s: State, o: Outcome)
    requires ValidPlan(plan) && Inv(plan, s) && s.proc.Up? && s.proc.job.Some?
    requires s.proc.job.value.mode == Finalizing && s.proc.job.value.code != []
    ensures Inv(plan, Run1(plan, s, o))
  {
    if s.proc.job.value.code[0] == CheckFinal {
      FinalCheck(plan, s, o);
    } else {
      FinalWrite(plan, s, o);
    }
  }

  // ----- creating -----

  lemma FirstWrite(plan: Plan, w: World)
    requires WorldOk(plan, w, []) && w.src.None?
    ensures WorldOk(plan, w.(src := Some(FIRST)), [FIRST])
  {
  }

  lemma CreateStep(plan: Plan, s: State, o: Outcome)
    requires ValidPlan(plan) && WorldOk(plan, s.w, s.log) && s.log == []
    requires s.proc.Up? && s.proc.job.Some?
    requires var job := s.proc.job.value;
             job.mode == Creating && job.tx == FIRST && job.code == [Create] + ApplyCode(plan)[1..]
    ensures Inv(plan, Run1(plan, s, o))
  {
    var job := s.proc.job.value;
    var later := ApplyCode(plan)[1..];
    assert job.code[1..] == later;
    var e := Perform(plan, Create, s.w, FIRST, s.log, job.runningAs, o);
    assert s.w.src.None? && s.log + [FIRST] == [FIRST];
    FirstWrite(plan, s.w);
    if e.control.Fail? {
      EndKeeps(plan, s.(w := e.w, log := e.log), e.tx, false);
    }
  }

  lemma MirrorPreparedStep(plan: Plan, s: State, o: Outcome)
    requires ValidPlan(plan) && WorldOk(plan, s.w, s.log) && s.w.src == Some(FIRST)
    requires Restored(plan, s.w) && s.w.catchUnit == Source && s.w.tree == Whole
    requires s.proc.Up? && s.proc.job.Some?
    requires var job := s.proc.job.value;
             job.mode == Creating && job.tx == FIRST && job.code == [MirrorPrepared] + ApplyCode(plan)[1..]
    ensures Inv(plan, Run1(plan, s, o))
  {
    var job := s.proc.job.value;
    var later := ApplyCode(plan)[1..];
    assert job.code[1..] == later && [] + later == later;
    var e := Perform(plan, MirrorPrepared, s.w, FIRST, s.log, job.runningAs, o);
    assert FIRST in s.log;
    if plan.hasTarget && !plan.zfs {
      MirrorKeeps(plan, s.w, s.log, FIRST);
    }
    if e.control.Fail? {
      assert Steady(plan, e.w, e.log, FIRST) && [Abandon][1..] == [];
      PlainFrom(plan, e.w, e.log, [Abandon], FIRST, false, e.runningAs);
    }
  }

  lemma EnterStep(plan: Plan, s: State, o: Outcome)
    requires ValidPlan(plan) && WorldOk(plan, s.w, s.log) && s.w.src == Some(FIRST)
    requires s.w.catchUnit == Source && s.w.tree == Whole
    requires s.proc.Up? && s.proc.job.Some?
    requires var job := s.proc.job.value; job.tx == FIRST && job.code == ApplyCode(plan)[1..]
    ensures |ApplyCode(plan)| >= 2
    ensures Inv(plan, Run1(plan, s, o))
  {
    hide WorldOk, Legal, ApplyCode;
    var job := s.proc.job.value;
    ApplyLegal(plan);
    var code := ApplyCode(plan)[2..];
    assert ApplyCode(plan)[1..][0] == Enter && ApplyCode(plan)[1..][1..] == code && [] + code == code;
    assert Mirror !in code && (code != [] ==> forall j :: j in code[1..] ==> j in code);
    assert Steady(plan, s.w, s.log, FIRST);
    ApplyingFrom(plan, s.w, s.log, code, FIRST, job.failed, job.runningAs);
  }

  lemma CreatingStep(plan: Plan, s: State, o: Outcome)
    requires ValidPlan(plan) && Inv(plan, s) && s.proc.Up? && s.proc.job.Some?
    requires s.proc.job.value.mode == Creating && s.proc.job.value.code != []
    ensures Inv(plan, Run1(plan, s, o))
  {
    var code, later := s.proc.job.value.code, ApplyCode(plan)[1..];
    if code == [Create] + later && s.log == [] {
      CreateStep(plan, s, o);
    } else if code == [MirrorPrepared] + later {
      MirrorPreparedStep(plan, s, o);
    } else {
      EnterStep(plan, s, o);
    }
  }

  // ----- cleaning -----

  lemma CleaningWrite(plan: Plan, w: World, log: seq<Tx>, tx: Tx)
    requires ValidPlan(plan) && WorldOk(plan, w, log) && plan.hasTarget
    requires w.tgt == Some(tx) && tx.phase == Validated && w.tree == Whole && w.catchUnit == Target
    ensures WorldOk(plan, w.(src := Some(tx.(phase := CleanupPending))), log + [tx.(phase := CleanupPending)])
    ensures w.src.Some?
  {
    assert tx in log && w.src.Some?;
    assert Follows(tx, w.src.value);
    assert w.src.value in log;
    WriteKeeps(plan, w, log, tx.(phase := CleanupPending));
  }

  lemma TreeShrinks(plan: Plan, w: World, log: seq<Tx>, w': World)
    requires WorldOk(plan, w, log) && w.tgt.Some? && w.tgt.value.phase == CleanupPending && w.tree != Gone
    requires w' == w.(src := w'.src, tree := w'.tree) && (w'.src.None? || w'.src == w.src)
    requires w'.tree == Partial || (w'.tree == Gone && w'.src.None?)
    ensures WorldOk(plan, w', log)
  {
    assert w.tgt.value in log;
  }

  lemma CleaningEnds(plan: Plan, s: State, e: Effect)
    requires s.proc.Up? && s.proc.job.Some? && s.proc.job.value.mode == Cleaning && s.proc.job.value.code != []
    requires WorldOk(plan, e.w, e.log) && e.control.Fail?
    ensures Inv(plan, Continue(plan, s, e))
  {
    EndKeeps(plan, s.(w := e.w, log := e.log), e.tx, false);
  }

  lemma CleaningGoes(plan: Plan, s: State, e: Effect, code: seq<Instr>)
    requires s.proc.Up? && s.proc.job.Some? && s.proc.job.value.mode == Cleaning && s.proc.job.value.code != []
    requires s.proc.job.value.code[0] != Settle && s.proc.job.value.code[0] != Enter
    requires WorldOk(plan, e.w, e.log) && !e.control.Fail?
    requires code == if e.control.Repeat? then s.proc.job.value.code else e.control.extra + s.proc.job.value.code[1..]
    requires CleaningOk(plan, e.w, Job(code, e.tx, Cleaning, s.proc.job.value.failed, e.runningAs))
    ensures Inv(plan, Continue(plan, s, e))
  {
  }

  lemma CleaningCheckStep(plan: Plan, s: State, o: Outcome)
    requires Inv(plan, s) && s.proc.Up? && s.proc.job.Some? && s.proc.job.value.mode == Cleaning
    requires s.proc.job.value.code != [] && s.proc.job.value.code[0] == CheckFinal
    ensures Inv(plan, Run1(plan, s, o))
  {
    var job := s.proc.job.value;
    var e := Perform(plan, CheckFinal, s.w, job.tx, s.log, job.runningAs, o);
    if e.control.Fail? {
      CleaningEnds(plan, s, e);
    } else {
      assert [] + job.code[1..] == job.code[1..];
      CleaningGoes(plan, s, e, job.code[1..]);
    }
  }

  lemma CleaningWriteStep(plan: Plan, s: State, o: Outcome)
    requires ValidPlan(plan) && Inv(plan, s) && s.proc.Up? && s.proc.job.Some? && s.proc.job.value.mode == Cleaning
    requires s.proc.job.value.code != [] && s.proc.job.value.code[0].Persist?
    ensures Inv(plan, Run1(plan, s, o))
  {
    var job := s.proc.job.value;
    var rest := [RemoveTree, RecordComplete];
    assert job.code[1..] == rest && [Mirror] + rest == [Mirror, RemoveTree, RecordComplete];
    CleaningWrite(plan, s.w, s.log, job.tx);
    var e := Perform(plan, job.code[0], s.w, job.tx, s.log, job.runningAs, o);
    if e.control.Fail? {
      CleaningEnds(plan, s, e);
    } else {
      CleaningGoes(plan, s, e, [Mirror] + rest);
    }
  }

  lemma CleaningMirrorStep(plan: Plan, s: State, o: Outcome)
    requires Inv(plan, s) && s.proc.Up? && s.proc.job.Some? && s.proc.job.value.mode == Cleaning
    requires s.proc.job.value.code != [] && s.proc.job.value.code[0] == Mirror
    ensures Inv(plan, Run1(plan, s, o))
  {
    var job := s.proc.job.value;
    var rest := [RemoveTree, RecordComplete];
    assert job.code[1..] == rest && [] + rest == rest;
    assert job.tx in s.log;
    MirrorKeeps(plan, s.w, s.log, job.tx);
    var e := Perform(plan, Mirror, s.w, job.tx, s.log, job.runningAs, o);
    if e.control.Fail? {
      CleaningEnds(plan, s, e);
    } else {
      CleaningGoes(plan, s, e, rest);
    }
  }

  lemma CleaningRemoveStep(plan: Plan, s: State, o: Outcome)
    requires Inv(plan, s) && s.proc.Up? && s.proc.job.Some? && s.proc.job.value.mode == Cleaning
    requires s.proc.job.value.code != [] && s.proc.job.value.code[0] == RemoveTree
    ensures Inv(plan, Run1(plan, s, o))
  {
    var job := s.proc.job.value;
    assert job.code[1..] == [RecordComplete] && [] + [RecordComplete] == [RecordComplete];
    var e := Perform(plan, RemoveTree, s.w, job.tx, s.log, job.runningAs, o);
    if e.w != s.w {
      TreeShrinks(plan, s.w, s.log, e.w);
    }
    if e.control.Fail? {
      CleaningEnds(plan, s, e);
    } else {
      CleaningGoes(plan, s, e, if e.control.Repeat? then job.code else [RecordComplete]);
    }
  }

  lemma CleaningRecordStep(plan: Plan, s: State, o: Outcome)
    requires Inv(plan, s) && s.proc.Up? && s.proc.job.Some? && s.proc.job.value.mode == Cleaning
    requires s.proc.job.value.code != [] && s.proc.job.value.code[0] == RecordComplete
    ensures Inv(plan, Run1(plan, s, o))
  {
    var job := s.proc.job.value;
    assert job.code[1..] == [] && [] + job.code[1..] == [];
    var e := Perform(plan, RecordComplete, s.w, job.tx, s.log, job.runningAs, o);
    assert WorldOk(plan, e.w, e.log);
    if e.control.Fail? {
      CleaningEnds(plan, s, e);
    } else {
      CleaningGoes(plan, s, e, []);
    }
  }

  lemma CleaningStep(plan: Plan, s: State, o: Outcome)
    requires ValidPlan(plan) && Inv(plan, s) && s.proc.Up? && s.proc.job.Some?
    requires s.proc.job.value.mode == Cleaning && s.proc.job.value.code != []
    ensures Inv(plan, Run1(plan, s, o))
  {
    var i := s.proc.job.value.code[0];
    if i == CheckFinal {
      CleaningCheckStep(plan, s, o);
    } else if i == Mirror {
      CleaningMirrorStep(plan, s, o);
    } else if i == RemoveTree {
      CleaningRemoveStep(plan, s, o);
    } else if i == RecordComplete {
      CleaningRecordStep(plan, s, o);
    } else {
      CleaningWriteStep(plan, s, o);
    }
  }

  // ----- starting jobs and processes -----

  /** Taking up a rollback again while the journal announces that it is over: the hand-over
      is recorded, or the write that records the end was reported as failed. */
  predicate ReentersHandOver(s: State, a: Action) {
    a == Invoke(Recover) && s.proc.Up? && s.proc.job.None? && s.proc.blocked &&
    s.w.src.Some? && Announced(s.w.src.value.phase)
  }

  lemma JobServed(plan: Plan, s: State, call: Call, job: Job)
    requires s.proc.Up? && WorldOk(plan, s.w, s.log) && JobOk(plan, s.w, s.log, job)
    ensures Inv(plan, Serve(s, call, job))
  {
    hide WorldOk, JobOk;
  }

  lemma RecoverStarts(plan: Plan, s: State)
    requires ValidPlan(plan) && Inv(plan, s) && s.proc.Up? && s.proc.job.None?
    requires !ReentersHandOver(s, Invoke(Recover))
    ensures Inv(plan, Started(plan, s, Recover))
  {
    if s.proc.blocked && s.w.src.Some? && Recoverable(s.w.src.value.phase) {
      var tx := s.w.src.value;
      assert tx in s.log;
      assert s.w.tree == Whole && Booked(plan, tx);
      hide Inv, WorldOk, RollbackCode, Booked, JobOk;
      RollbackJobOk(plan, s.w, s.log, tx, [], s.proc.config);
      assert [] + RollbackCode(plan, tx) == RollbackCode(plan, tx);
      JobServed(plan, s, Recover, RollbackJob(plan, tx, s.proc.config));
    }
  }

  lemma ApplyStarts(plan: Plan, s: State)
    requires ValidPlan(plan) && Inv(plan, s) && s.proc.Up? && s.proc.job.None?
    ensures Inv(plan, Started(plan, s, Apply))
  {
    ApplyLegal(plan);
    assert ApplyCode(plan) == [Create] + ApplyCode(plan)[1..];
  }

  lemma FinalizeStarts(plan: Plan, s: State)
    requires ValidPlan(plan) && Inv(plan, s) && s.proc.Up? && s.proc.job.None?
    ensures Inv(plan, Started(plan, s, Finalize))
  {
    if s.w.src.Some? {
      var tx := s.w.src.value;
      assert tx in s.log;
      assert [CheckFinal][1..] == [] && Legal(plan, [CheckFinal], tx.phase, tx.authority, s.w.catchUnit == Source);
      if tx.phase == CatchSwitched {
        var last := [Persist(Advance(FinalPhase(plan)))];
        assert last[1..] == [] && [CheckFinal, last[0]][1..] == last;
        assert (plan.hasTarget && s.w.catchUnit == Source) ||
               Legal(plan, last, tx.phase, tx.authority, s.w.catchUnit == Source);
      }
    }
  }

  lemma CleanupStarts(plan: Plan, s: State)
    requires ValidPlan(plan) && Inv(plan, s) && s.proc.Up? && s.proc.job.None?
    ensures Inv(plan, Started(plan, s, Cleanup))
  {
  }

  lemma BootKeeps(plan: Plan, s: State)
    requires ValidPlan(plan) && Inv(plan, s) && s.proc.Down?
    ensures Inv(plan, BootUp(plan, s))
  {
    if s.w.src.Some? && s.w.src.value.phase == SourceRestartPending {
      var tx, code := s.w.src.value, [Persist(AdvanceTo(RolledBack, Source))];
      assert tx in s.log && code[1..] == [];
      assert Steady(plan, s.w, s.log, tx);
      assert Legal(plan, code, tx.phase, tx.authority, s.w.catchUnit == Source);
      PlainFrom(plan, s.w, s.log, code, tx, false, s.w.catchUnit);
    }
  }

  lemma StepKeeps(plan: Plan, s: State, a: Action)
    requires ValidPlan(plan) && Inv(plan, s) && !ReentersHandOver(s, a)
    ensures Inv(plan, Step(plan, s, a))
  {
    match a
    case Crash =>
    case Boot =>
      if s.proc.Down? {
        BootKeeps(plan, s);
      }
    case Invoke(call) =>
      if s.proc.Up? && s.proc.job.None? {
        match call
        case Apply => ApplyStarts(plan, s);
        case Finalize => FinalizeStarts(plan, s);
        case Cleanup => CleanupStarts(plan, s);
        case Recover => RecoverStarts(plan, s);
      }
    case Exec(o) =>
      if s.proc.Up? && s.proc.job.Some? {
        if s.proc.job.value.code == [] {
          EndKeeps(plan, s, s.proc.job.value.tx, true);
        } else {
          match s.proc.job.value.mode
          case Creating => CreatingStep(plan, s, o);
          case Applying => ApplyingStep(plan, s, o);
          case Joined => JoinedStep(plan, s, o);
          case Finalizing => FinalizingStep(plan, s, o);
          case Cleaning => CleaningStep(plan, s, o);
          case Plain => PlainStep(plan, s, o);
        }
      }
  }

  // ----- every run -----

  /** No action of the run takes up a rollback again under a journal that announces its end. */
  predicate NoReentry(plan: Plan, s: State, acts: seq<Action>)
    decreases |acts|
  {
    acts == [] || (!ReentersHandOver(s, acts[0]) && NoReentry(plan, Step(plan, s, acts[0]), acts[1..]))
  }

  lemma InitialOk(plan: Plan, s: State)
    requires Initial(plan, s)
    ensures Inv(plan, s)
  {
  }

  lemma {:induction false} RunKeeps(plan: Plan, s: State, acts: seq<Action>)
    requires ValidPlan(plan) && Inv(plan, s) && NoReentry(plan, s, acts)
    ensures Inv(plan, Run(plan, s, acts))
    decreases |acts|
  {
    if acts != [] {
      StepKeeps(plan, s, acts[0]);
      RunKeeps(plan, Step(plan, s, acts[0]), acts[1..]);
    }
  }
}
