/** The host-storage migration transaction as a machine whose steps are single durable
    effects. A process may crash between any two steps, and every effect may succeed, fail
    without happening, or happen and still be reported as failed. */
module Transaction {
  import opened Artifacts
  import opened Ordering

  datatype Phase =
    | Prepared | ServicesStopped | TargetReady | CatchSwitching | SourceRestartPending
    | CatchSwitched | Validated | CleanupPending | Complete | RolledBack

  datatype Side = Source | Target

  /** The part of a journal that changes; the plan, the paths and the backups never do. */
  datatype Tx = Tx(phase: Phase, authority: Side, stopped: seq<string>, restarted: seq<string>, cause: bool)

  const FIRST := Tx(Prepared, Source, [], [], false)

  /** The constant part of a transaction. */
  datatype Plan = Plan(
    hasTarget: bool,            // the data dir moves, so there is a target journal
    zfs: bool,                  // the target data dir is a dataset still to be created
    distinct: bool,             // the source and the target configuration differ
    needsRestart: bool,         // Catch itself has to be switched over
    cleanupAllowed: bool,       // the old tree may be removed without a further request
    previously: seq<string>,    // tracked services that were running
    planned: seq<string>,       // services named by the plan, Catch's own excluded
    services: string,           // backup of the database outside Catch's own record
    record: string,             // backup of Catch's own record
    units: map<string, Option<string>>,  // backups of captured units; None: was absent
    unitOrder: seq<string>)     // the captured unit paths, sorted

  predicate ValidPlan(plan: Plan) {
    && (plan.hasTarget ==> plan.distinct)
    && (plan.distinct ==> plan.needsRestart)
    && (forall p :: p in plan.unitOrder ==> p in plan.units)
    && (forall p :: p in plan.units ==> p in plan.unitOrder)
  }

  datatype Tree = Whole | Partial | Gone

  /** What survives a crash. */
  datatype World = World(
    src: Option<Tx>, tgt: Option<Tx>, targetRoot: bool,
    services: string, record: string, units: map<string, Option<string>>,
    catchUnit: Side, running: set<string>, tree: Tree)

  datatype Update =
    | Keep | Cause | AddStopped(name: string) | AddRestarted(name: string)
    | Advance(phase: Phase) | AdvanceTo(phase: Phase, authority: Side) | Authority(authority: Side)

  function Updated(u: Update, tx: Tx): Tx {
    match u
    case Keep => tx
    case Cause => tx.(cause := true)
    case AddStopped(n) => tx.(stopped := UniqueSorted(tx.stopped + [n]))
    case AddRestarted(n) => tx.(restarted := UniqueSorted(tx.restarted + [n]))
    case Advance(p) => tx.(phase := p)
    case AdvanceTo(p, a) => tx.(phase := p, authority := a)
    case Authority(a) => tx.(authority := a)
  }

  /** Advancing reloads the readable source journal when its write reports an error; plain
      persisting keeps the value in memory. */
  predicate Reloads(u: Update) {
    u.Advance? || u.AdvanceTo? || u.Authority?
  }

  datatype Instr =
    | Create | MirrorPrepared | Abandon | Enter | CreateTarget
    | Persist(u: Update) | Mirror
    | Stop(name: string) | Start(name: string)
    | Mutate | CopyData
    | InstallCatch(side: Side) | RestartTarget | CheckApply
    | CheckFinal | StopUnexpected(name: string)
    | CancelRestarts | RestoreUnit(path: string) | RestoreDatabase | Reload
    | CheckRunning | Settle | RestoreAuthority | RestartSource
    | RemoveTree | RecordComplete

  /** How a failing instruction is handled. Joined is the six-step part of a rollback, whose
      errors are collected while later steps still run. */
  datatype Mode = Creating | Applying | Joined | Finalizing | Cleaning | Plain

  datatype Job = Job(code: seq<Instr>, tx: Tx, mode: Mode, failed: bool, runningAs: Side)

  datatype Call = Apply | Finalize | Cleanup | Recover

  /** What the running job, or else the last one, was started for. */
  datatype Duty = StartingUp | Serving(call: Call)

  /** blocked: the process found an unfinished migration when it started, and so refuses
      every change but its recovery. */
  datatype Proc = Down | Up(config: Side, blocked: bool, duty: Duty, job: Option<Job>)


  /** log is the history of source journal versions; it is not stored anywhere. */
  datatype State = State(w: World, proc: Proc, log: seq<Tx>)

  /** How the environment answers one instruction. effect: a failing instruction happened
      all the same. again: the instruction has more to do. handoff and mirrored: a hand-over
      completed on the way reaches the source, and then the target journal. The rest is read
      by single instructions only. */
  datatype Outcome = Outcome(
    ok: bool, effect: bool, again: bool, scheduled: bool, lost: bool, handoff: bool, mirrored: bool,
    services: string, record: string, units: map<string, Option<string>>, running: set<string>)

  datatype Action = Exec(o: Outcome) | Crash | Boot | Invoke(call: Call)

  /** A process configured as one side also runs as the other when the two do not differ. */
  predicate RunsAs(plan: Plan, config: Side, side: Side) {
    config == side || !plan.distinct
  }

  // ----- programs -----

  function Stops(names: seq<string>): (r: seq<Instr>)
    ensures |r| == |names| && forall i :: 0 <= i < |r| ==> r[i] == Stop(names[i])
  {
    if names == [] then [] else [Stop(names[0])] + Stops(names[1..])
  }

  function Starts(names: seq<string>): (r: seq<Instr>)
    ensures |r| == |names| && forall i :: 0 <= i < |r| ==> r[i] == Start(names[i])
  {
    if names == [] then [] else [Start(names[0])] + Starts(names[1..])
  }

  function Unexpected(names: seq<string>): (r: seq<Instr>)
    ensures |r| == |names| && forall i :: 0 <= i < |r| ==> r[i] == StopUnexpected(names[i])
  {
    if names == [] then [] else [StopUnexpected(names[0])] + Unexpected(names[1..])
  }

  function RestoreUnits(paths: seq<string>): (r: seq<Instr>)
    ensures |r| == |paths| && forall i :: 0 <= i < |r| ==> r[i] == RestoreUnit(paths[i])
  {
    if paths == [] then [] else [RestoreUnit(paths[0])] + RestoreUnits(paths[1..])
  }

  function StopAndRecord(names: seq<string>): seq<Instr> {
    if names == [] then [] else [Stop(names[0]), Persist(AddStopped(names[0]))] + StopAndRecord(names[1..])
  }

  function StartAndRecord(names: seq<string>): seq<Instr> {
    if names == [] then [] else [Start(names[0]), Persist(AddRestarted(names[0]))] + StartAndRecord(names[1..])
  }

  function ApplyCode(plan: Plan): seq<Instr> {
    [Create, Enter, CreateTarget, Persist(Keep)]
    + StopAndRecord(plan.previously)
    + [Persist(Advance(ServicesStopped)), Mutate, CopyData, Mutate, Persist(Advance(TargetReady))]
    + StartAndRecord(plan.previously)
    + (if plan.needsRestart
       then [Persist(AdvanceTo(CatchSwitching, Target)), InstallCatch(Target), RestartTarget]
       else [])
    + [Persist(Advance(CatchSwitched)), CheckApply]
  }

  /** The tail of a rollback, reached only when all six joined steps succeeded. */
  const ROLLBACK_TAIL: seq<Instr> := [RestoreAuthority, Persist(Advance(RolledBack))]

  function RollbackCode(plan: Plan, tx: Tx): seq<Instr> {
    [Persist(Cause), CancelRestarts]
    + Stops(UniqueSorted(tx.restarted + plan.previously))
    + RestoreUnits(plan.unitOrder)
    + [RestoreDatabase, Reload]
    + Starts(UniqueSorted(plan.previously))
    + [CheckRunning, Settle]
    + ROLLBACK_TAIL
  }

  /** Bringing back the source Catch. A process that already runs as the source needs no
      restart; any other records the hand-over first and then schedules the restart. */
  function AuthorityCode(plan: Plan, runningAs: Side): seq<Instr> {
    [InstallCatch(Source)]
    + (if RunsAs(plan, runningAs, Source) then []
       else [Persist(AdvanceTo(SourceRestartPending, Target)), RestartSource])
    + [Persist(Authority(Source))]
  }

  function FinalPhase(plan: Plan): Phase {
    if !plan.hasTarget then Complete
    else if plan.cleanupAllowed then CleanupPending
    else Validated
  }

  // ----- facts about a world -----

  function Tracked(plan: Plan, tx: Tx): set<string> {
    set n | n in tx.stopped + tx.restarted + plan.previously + plan.planned
  }

  /** Exactly the previously running ones of the given services are running. */
  predicate Matches(plan: Plan, running: set<string>, names: set<string>) {
    forall n :: n in names ==> (n in running <==> n in plan.previously)
  }

  predicate UnitsRestored(plan: Plan, w: World) {
    forall p :: p in plan.units ==> p in w.units && w.units[p] == plan.units[p]
  }

  /** Database, captured units and running set are as they were before the migration. */
  predicate Restored(plan: Plan, w: World) {
    && w.services == plan.services
    && UnitsRestored(plan, w)
    && Matches(plan, w.running, Tracked(plan, FIRST))
  }

  predicate Terminal(p: Phase) {
    p == CleanupPending || p == Complete || p == RolledBack
  }

  predicate TargetReadable(plan: Plan, w: World) {
    plan.hasTarget && (!plan.zfs || w.targetRoot)
  }

  /** The journal a process of the given configuration finds in its own data dir. */
  predicate Visible(plan: Plan, w: World, config: Side) {
    if config == Source || !plan.hasTarget then w.src.Some? else w.tgt.Some?
  }

  // ----- one instruction -----

  /** What an instruction leaves: the new world, journal in memory and history, and whether
      control goes on (after some inserted instructions), repeats, or fails. */
  datatype Control = Next(extra: seq<Instr>) | Repeat | Fail

  datatype Effect = Effect(w: World, tx: Tx, log: seq<Tx>, control: Control, runningAs: Side)

  function WriteSource(w: World, log: seq<Tx>, tx: Tx): (World, seq<Tx>) {
    (w.(src := Some(tx)), log + [tx])
  }

  /** Looking up a service constructs an unstarted server for the source configuration, and
      that completes a pending hand-over, if there is one. */
  function LookUp(plan: Plan, w: World, log: seq<Tx>, o: Outcome): (World, seq<Tx>) {
    if w.src.Some? && w.src.value.phase == SourceRestartPending && o.handoff then
      var tx := Updated(AdvanceTo(RolledBack, Source), w.src.value);
      var (w', log') := WriteSource(w, log, tx);
      (if o.mirrored && TargetReadable(plan, w') then w'.(tgt := Some(tx)) else w', log')
    else (w, log)
  }

  function Perform(plan: Plan, i: Instr, w: World, tx: Tx, log: seq<Tx>, runningAs: Side, o: Outcome): Effect {
    var done := o.ok || o.effect;
    var go := if o.ok then Next([]) else Fail;
    match i
    case Create =>
      if !done then Effect(w, tx, log, Fail, runningAs)
      else
        var (w', log') := WriteSource(w, log, tx);
        Effect(w', tx, log', if o.ok then Next([MirrorPrepared]) else Fail, runningAs)
    case MirrorPrepared =>
      if !plan.hasTarget || plan.zfs then Effect(w, tx, log, Next([]), runningAs)
      else Effect(if done then w.(tgt := Some(tx)) else w, tx, log, go, runningAs)
    case Abandon =>
      var tx' := tx.(phase := RolledBack, cause := true);
      if !done then Effect(w, tx', log, Fail, runningAs)
      else
        var (w', log') := WriteSource(w, log, tx');
        Effect(w', tx', log', go, runningAs)
    case Enter => Effect(w, tx, log, Next([]), runningAs)
    case CreateTarget =>
      Effect(if done then w.(targetRoot := true) else w, tx, log, go, runningAs)
    case Persist(u) =>
      var tx' := Updated(u, tx);
      if done then
        var (w', log') := WriteSource(w, log, tx');
        Effect(w', tx', log', if o.ok then Next([Mirror]) else Fail, runningAs)
      else
        Effect(w, if Reloads(u) then (if w.src.Some? then w.src.value else tx) else tx', log, Fail, runningAs)
    case Mirror =>
      if !TargetReadable(plan, w) then Effect(w, tx, log, Next([]), runningAs)
      else Effect(if done then w.(tgt := Some(tx)) else w, tx, log, go, runningAs)
    case Stop(n) =>
      var (w', log') := LookUp(plan, w, log, o);
      Effect(if done then w'.(running := w'.running - {n}) else w', tx, log', go, runningAs)
    case Start(n) =>
      var (w', log') := LookUp(plan, w, log, o);
      Effect(if done then w'.(running := w'.running + {n}) else w', tx, log', go, runningAs)
    case Mutate =>
      Effect(w.(services := o.services, record := o.record, units := o.units, running := o.running), tx, log,
             if o.ok && o.again then Repeat else go, runningAs)
    case CopyData =>
      Effect(if plan.hasTarget && done && w.src.Some? then w.(tgt := w.src, targetRoot := true) else w,
             tx, log, go, runningAs)
    case InstallCatch(side) =>
      Effect(if done then w.(catchUnit := side, record := o.record) else w, tx, log, go, runningAs)
    case RestartTarget =>
      Effect(w, tx, log, go, if o.ok && !o.scheduled then Target else runningAs)
    case CheckApply => Effect(w, tx, log, go, runningAs)
    case CheckFinal =>
      // The configuration, Catch's own unit (it names the data dir) and the running set are
      // really looked at; every other check may pass or not.
      Effect(w, tx, log,
             if o.ok && RunsAs(plan, runningAs, Target) && (plan.hasTarget ==> w.catchUnit == Target) &&
                Matches(plan, w.running, Tracked(plan, tx))
             then Next([]) else Fail,
             runningAs)
    case StopUnexpected(n) =>
      var (w', log') := LookUp(plan, w, log, o);
      Effect(if done && n !in plan.previously then w'.(running := w'.running - {n}) else w',
             tx, log', Next([]), runningAs)
    case CancelRestarts =>
      Effect(w, tx, log, if tx.authority == Source then Next([]) else go, runningAs)
    case RestoreUnit(p) =>
      Effect(if done && p in plan.units then w.(units := w.units[p := plan.units[p]]) else w, tx, log, go, runningAs)
    case RestoreDatabase =>
      Effect(if done then w.(services := plan.services, record := plan.record) else w, tx, log, go, runningAs)
    case Reload => Effect(w, tx, log, if plan.unitOrder == [] then Next([]) else go, runningAs)
    case CheckRunning =>
      var (w', log') := LookUp(plan, w, log, o);
      Effect(w', tx, log', if o.ok && Matches(plan, w'.running, Tracked(plan, tx)) then Next([]) else Fail, runningAs)
    case Settle => Effect(w, tx, log, Next([]), runningAs)
    case RestoreAuthority =>
      Effect(w, tx, log, Next(if tx.authority == Target then AuthorityCode(plan, runningAs) else []), runningAs)
    case RestartSource =>
      if o.ok && !o.scheduled then Effect(w, tx, log, Next([]), Source)
      else Effect(w, tx, log, Fail, runningAs)
    case RemoveTree =>
      if o.ok && !o.again then Effect(w.(src := None, tree := Gone), tx, log, Next([]), runningAs)
      else
        Effect(if done then w.(src := if o.lost then None else w.src, tree := Partial) else w, tx, log,
               if o.ok then Repeat else Fail, runningAs)
    case RecordComplete =>
      var tx' := tx.(phase := Complete, authority := Target);
      Effect(if done then w.(tgt := Some(tx')) else w, if o.ok then tx' else tx, log, go, runningAs)
  }

  // ----- control -----

  /** The end of a job with this journal in memory. The block is lifted when start-up has
      completed a hand-over, when a recovery finds the journal rolled back (whatever its last
      write reported), and when a finalization succeeds without rolling back. */
  function EndJob(s: State, tx: Tx, success: bool): State
    requires s.proc.Up? && s.proc.job.Some?
  {
    var clear := match s.proc.duty
      case StartingUp => success
      case Serving(Recover) => tx.phase == RolledBack && tx.authority == Source
      case Serving(Finalize) => s.proc.job.value.mode == Finalizing && success
      case Serving(_) => false;
    s.(proc := s.proc.(blocked := s.proc.blocked && !clear, job := None))
  }

  function RollbackJob(plan: Plan, tx: Tx, runningAs: Side): Job {
    Job(RollbackCode(plan, tx), tx, Joined, false, runningAs)
  }

  function FinalRollbackJob(plan: Plan, tx: Tx, runningAs: Side): Job {
    Job(Unexpected(UniqueSorted(tx.stopped + plan.planned)) + RollbackCode(plan, tx), tx, Joined, false, runningAs)
  }

  /** One instruction of the running job, with its error handling. */
  function Run1(plan: Plan, s: State, o: Outcome): State
    requires s.proc.Up? && s.proc.job.Some? && s.proc.job.value.code != []
  {
    var job := s.proc.job.value;
    Continue(plan, s, Perform(plan, job.code[0], s.w, job.tx, s.log, job.runningAs, o))
  }

  function Continue(plan: Plan, s: State, e: Effect): State
    requires s.proc.Up? && s.proc.job.Some? && s.proc.job.value.code != []
  {
    var job := s.proc.job.value;
    var i := job.code[0];
    var s' := s.(w := e.w, log := e.log);
    match e.control
    case Repeat => StartJob(s', job.(tx := e.tx, runningAs := e.runningAs))
    case Next(extra) =>
      if i == Settle && job.failed then StartJob(s', Job([], e.tx, Joined, true, e.runningAs))
      else
        var mode := if i == Enter then Applying else if i == Settle then Plain else job.mode;
        StartJob(s', Job(extra + job.code[1..], e.tx, mode, job.failed, e.runningAs))
    case Fail =>
      match job.mode
      case Joined => StartJob(s', Job(job.code[1..], e.tx, Joined, true, e.runningAs))
      case Applying => StartJob(s', RollbackJob(plan, e.tx, e.runningAs))
      case Creating =>
        if i == MirrorPrepared then StartJob(s', Job([Abandon], e.tx, Plain, false, e.runningAs))
        else EndJob(s', e.tx, false)
      case Finalizing =>
        if i == CheckFinal && e.tx.phase == CatchSwitched then StartJob(s', FinalRollbackJob(plan, e.tx, e.runningAs))
        else EndJob(s', e.tx, false)
      case _ => EndJob(s', e.tx, false)
  }

  function StartJob(s: State, job: Job): State
    requires s.proc.Up?
  {
    s.(proc := s.proc.(job := Some(job)))
  }

  /** A new process: it runs as its unit file says, and looks for an unfinished journal. */
  function BootUp(plan: Plan, s: State): State {
    var config := s.w.catchUnit;
    if !Visible(plan, s.w, config) then s.(proc := Up(config, false, StartingUp, None))
    else if s.w.src.None? then s.(proc := Up(config, true, StartingUp, None))
    else
      var tx := s.w.src.value;
      if Terminal(tx.phase) then s.(proc := Up(config, false, StartingUp, None))
      else if tx.phase == SourceRestartPending && RunsAs(plan, config, Source) then
        s.(proc := Up(config, true, StartingUp,
                      Some(Job([Persist(AdvanceTo(RolledBack, Source))], tx, Plain, false, config))))
      else s.(proc := Up(config, true, StartingUp, None))
  }

  /** A request begins a job with this journal and program. */
  function Serve(s: State, call: Call, job: Job): State
    requires s.proc.Up?
  {
    s.(proc := s.proc.(duty := Serving(call), job := Some(job)))
  }

  /** Recovery is refused for a journal that is past the point of no return; that of a
      rollback whose last write failed is taken up again. */
  predicate Recoverable(p: Phase) {
    p != CleanupPending && p != Complete
  }

  function Started(plan: Plan, s: State, call: Call): State
    requires s.proc.Up? && s.proc.job.None?
  {
    var config := s.proc.config;
    match call
    case Apply =>
      if RunsAs(plan, config, Source) && !s.proc.blocked && s.log == [] then
        Serve(s, call, Job(ApplyCode(plan), FIRST, Creating, false, config))
      else s
    case Recover =>
      if s.proc.blocked && s.w.src.Some? && Recoverable(s.w.src.value.phase) then
        Serve(s, call, RollbackJob(plan, s.w.src.value, config))
      else s
    case Finalize =>
      if (plan.hasTarget && (config != Target || s.w.tgt.None?)) || s.w.src.None? then s
      else
        var tx := s.w.src.value;
        if tx.phase == CatchSwitched then
          Serve(s, call, Job([CheckFinal, Persist(Advance(FinalPhase(plan)))], tx, Finalizing, false, config))
        else if tx.phase == Validated || tx.phase == CleanupPending then
          Serve(s, call, Job([CheckFinal], tx, Finalizing, false, config))
        else if tx.phase == Complete then s.(proc := s.proc.(blocked := false))
        else s
    case Cleanup =>
      if config != Target || !plan.hasTarget || s.w.tgt.None? then s
      else
        var tx := s.w.tgt.value;
        if tx.phase == CleanupPending then
          Serve(s, call, Job([CheckFinal] + (if s.w.tree == Gone then [] else [RemoveTree]) + [RecordComplete],
                             tx, Cleaning, false, config))
        else if tx.phase == Validated && s.w.tree != Gone then
          Serve(s, call, Job([CheckFinal, Persist(Advance(CleanupPending)), RemoveTree, RecordComplete],
                             tx, Cleaning, false, config))
        else s
  }

  /** One step of the machine; an action that does not apply changes nothing. */
  function Step(plan: Plan, s: State, a: Action): State {
    match a
    case Crash => s.(proc := Down)
    case Boot => if s.proc.Down? then BootUp(plan, s) else s
    case Invoke(call) => if s.proc.Up? && s.proc.job.None? then Started(plan, s, call) else s
    case Exec(o) =>
      if s.proc.Down? || s.proc.job.None? then s
      else if s.proc.job.value.code == [] then EndJob(s, s.proc.job.value.tx, true)
      else Run1(plan, s, o)
  }

  function Run(plan: Plan, s: State, acts: seq<Action>): State
    decreases |acts|
  {
    if acts == [] then s else Run(plan, Step(plan, s, acts[0]), acts[1..])
  }

  /** Before the migration: no journal, nothing changed, the source Catch is running. */
  predicate Initial(plan: Plan, s: State) {
    && s.w.src.None? && s.w.tgt.None? && s.log == []
    && s.w.catchUnit == Source && s.w.tree == Whole
    && s.proc == Up(Source, false, StartingUp, None)
    && s.w.record == plan.record && Restored(plan, s.w)
  }
}
