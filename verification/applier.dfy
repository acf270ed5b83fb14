/** The code that drives a transaction: it keeps the journal in fields, writes both copies,
    and runs a rollback step by step. Each method is shown to be a run of the transaction
    machine, so what holds of every run of the machine holds of this code. */
module Applier {
  import opened Artifacts
  import opened Ordering
  import opened Transaction
  import opened Safety
  import opened Recovery

  /** The machine from s, answered by the environment's turns a, a + 1, ..., b - 1. */
  ghost function Drive(plan: Plan, env: nat -> Outcome, s: State, a: nat, b: nat): State
    requires a <= b
    decreases b
  {
    if a == b then s else Step(plan, Drive(plan, env, s, a, b - 1), Exec(env(b - 1)))
  }

  ghost function Turns(env: nat -> Outcome, a: nat, b: nat): seq<Outcome>
    requires a <= b
    decreases b
  {
    if a == b then [] else Turns(env, a, b - 1) + [env(b - 1)]
  }

  lemma {:induction false} ExecsAppend(os: seq<Outcome>, o: Outcome)
    ensures Execs(os + [o]) == Execs(os) + [Exec(o)]
    decreases |os|
  {
    if os == [] {
      assert os + [o] == [o];
    } else {
      assert (os + [o])[1..] == os[1..] + [o];
      ExecsAppend(os[1..], o);
    }
  }

  lemma {:induction false} RunAppend(plan: Plan, s: State, acts: seq<Action>, a: Action)
    ensures Run(plan, s, acts + [a]) == Step(plan, Run(plan, s, acts), a)
    decreases |acts|
  {
    if acts == [] {
      assert acts + [a] == [a];
    } else {
      assert (acts + [a])[1..] == acts[1..] + [a];
      RunAppend(plan, Step(plan, s, acts[0]), acts[1..], a);
    }
  }

  lemma {:induction false} DriveIsRun(plan: Plan, env: nat -> Outcome, s: State, a: nat, b: nat)
    requires a <= b
    ensures Drive(plan, env, s, a, b) == Run(plan, s, Execs(Turns(env, a, b)))
    decreases b
  {
    if a != b {
      DriveIsRun(plan, env, s, a, b - 1);
      ExecsAppend(Turns(env, a, b - 1), env(b - 1));
      RunAppend(plan, s, Execs(Turns(env, a, b - 1)), Exec(env(b - 1)));
    }
  }

  /** What the environment is asked to do during the joined part. */
  predicate Errand(i: Instr) {
    i.CancelRestarts? || i.Stop? || i.Start? || i.RestoreUnit? || i.RestoreDatabase? || i.Reload? || i.CheckRunning?
  }

  lemma ErrandEffect(plan: Plan, i: Instr, w: World, tx: Tx, log: seq<Tx>, runningAs: Side, o: Outcome)
    requires Errand(i)
    ensures var e := Perform(plan, i, w, tx, log, runningAs, o);
            e.tx == tx && e.runningAs == runningAs && (e.control == Next([]) || e.control == Fail)
  {
  }

  ghost function Busy(w: World, config: Side, blocked: bool, job: Job, log: seq<Tx>): State {
    State(w, Up(config, blocked, Serving(Recover), Some(job)), log)
  }

  /** The machine's turn for a write of the source journal. */
  lemma SourceTurn(plan: Plan, w: World, config: Side, blocked: bool, log: seq<Tx>, was: Tx, u: Update,
                   rest: seq<Instr>, mode: Mode, runningAs: Side, o: Outcome)
    requires mode == Joined || mode == Plain
    ensures var s := Busy(w, config, blocked, Job([Persist(u)] + rest, was, mode, false, runningAs), log);
            var t := Step(plan, s, Exec(o));
            var tx := Updated(u, was);
            var (w', log') := if o.ok || o.effect then (w.(src := Some(tx)), log + [tx]) else (w, log);
            && (o.ok ==> t == Busy(w', config, blocked, Job([Mirror] + rest, tx, mode, false, runningAs), log'))
            && (!o.ok && mode == Joined && !Reloads(u) ==>
                  t == Busy(w', config, blocked, Job(rest, tx, mode, true, runningAs), log'))
            && (!o.ok && mode == Plain ==> t.w == w' && t.log == log' && t.proc.Up? && t.proc.job.None?)
  {
    assert ([Persist(u)] + rest)[1..] == rest;
  }

  /** The machine's turn for a write of the target journal. */
  lemma TargetTurn(plan: Plan, w: World, config: Side, blocked: bool, log: seq<Tx>, tx: Tx,
                   rest: seq<Instr>, mode: Mode, runningAs: Side, o: Outcome)
    requires mode == Joined || mode == Plain
    ensures var s := Busy(w, config, blocked, Job([Mirror] + rest, tx, mode, false, runningAs), log);
            var t := Step(plan, s, Exec(o));
            var ready := TargetReadable(plan, w);
            var w' := if ready && (o.ok || o.effect) then w.(tgt := Some(tx)) else w;
            && (o.ok || !ready ==> t == Busy(w', config, blocked, Job(rest, tx, mode, false, runningAs), log))
            && (!o.ok && ready && mode == Joined ==>
                t == Busy(w', config, blocked, Job(rest, tx, mode, true, runningAs), log))
            && (!o.ok && ready && mode == Plain ==> t.w == w' && t.log == log && t.proc.Up? && t.proc.job.None?)
  {
    assert ([Mirror] + rest)[1..] == rest && [] + rest == rest;
  }

  /** The machine's turn for an errand. */
  lemma ErrandTurn(plan: Plan, w: World, config: Side, blocked: bool, log: seq<Tx>, tx: Tx, i: Instr,
                   rest: seq<Instr>, failed: bool, runningAs: Side, o: Outcome)
    requires Errand(i)
    ensures var s := Busy(w, config, blocked, Job([i] + rest, tx, Joined, failed, runningAs), log);
            var e := Perform(plan, i, w, tx, log, runningAs, o);
            Step(plan, s, Exec(o)) ==
            Busy(e.w, config, blocked, Job(rest, tx, Joined, failed || e.control.Fail?, runningAs), e.log)
  {
    assert ([i] + rest)[1..] == rest && [] + rest == rest;
    ErrandEffect(plan, i, w, tx, log, runningAs, o);
    ErrandGoes(plan, Busy(w, config, blocked, Job([i] + rest, tx, Joined, failed, runningAs), log),
               Perform(plan, i, w, tx, log, runningAs, o));
  }

  lemma ErrandGoes(plan: Plan, s: State, e: Effect)
    requires s.proc.Up? && s.proc.job.Some? && s.proc.job.value.mode == Joined && s.proc.job.value.code != []
    requires Errand(s.proc.job.value.code[0]) && (e.control == Next([]) || e.control == Fail)
    ensures var job := s.proc.job.value;
            Continue(plan, s, e) ==
            State(e.w, s.proc.(job := Some(Job(job.code[1..], e.tx, Joined, job.failed || e.control.Fail?,
                                               e.runningAs))), e.log)
  {
    assert [] + s.proc.job.value.code[1..] == s.proc.job.value.code[1..];
  }

  /** What is asked of the environment once the joined part has succeeded. */
  lemma CatchTurn(plan: Plan, w: World, config: Side, blocked: bool, log: seq<Tx>, tx: Tx, i: Instr,
                  rest: seq<Instr>, runningAs: Side, o: Outcome)
    requires i == InstallCatch(Source) || i == RestartSource
    ensures var s := Busy(w, config, blocked, Job([i] + rest, tx, Plain, false, runningAs), log);
            var t := Step(plan, s, Exec(o));
            var e := Perform(plan, i, w, tx, log, runningAs, o);
            && (if e.control.Next? then t == Busy(e.w, config, blocked, Job(rest, tx, Plain, false, e.runningAs), log)
                else t.w == e.w && t.log == log && t.proc.Up? && t.proc.job.None? && e.runningAs == runningAs)
            && (i == InstallCatch(Source) ==> e.runningAs == runningAs)
  {
    assert ([i] + rest)[1..] == rest && [] + rest == rest;
  }

  lemma SettleTurn(plan: Plan, w: World, config: Side, blocked: bool, log: seq<Tx>, tx: Tx, failed: bool,
                   runningAs: Side, o: Outcome)
    ensures var s := Busy(w, config, blocked, Job([Settle] + ROLLBACK_TAIL, tx, Joined, failed, runningAs), log);
            Step(plan, s, Exec(o)) ==
            Busy(w, config, blocked, if failed then Job([], tx, Joined, true, runningAs)
                                     else Job(ROLLBACK_TAIL, tx, Plain, false, runningAs), log)
  {
    assert ([Settle] + ROLLBACK_TAIL)[1..] == ROLLBACK_TAIL && [] + ROLLBACK_TAIL == ROLLBACK_TAIL;
  }

  lemma AuthorityTurn(plan: Plan, w: World, config: Side, blocked: bool, log: seq<Tx>, tx: Tx, code: seq<Instr>,
                      rest: seq<Instr>, runningAs: Side, o: Outcome)
    requires code == (if tx.authority == Target then AuthorityCode(plan, runningAs) + rest else rest)
    ensures var s := Busy(w, config, blocked, Job([RestoreAuthority] + rest, tx, Plain, false, runningAs), log);
            Step(plan, s, Exec(o)) == Busy(w, config, blocked, Job(code, tx, Plain, false, runningAs), log)
  {
    assert ([RestoreAuthority] + rest)[1..] == rest && [] + rest == rest;
  }

  lemma AuthoritySplit(plan: Plan, runningAs: Side, rest: seq<Instr>)
    ensures AuthorityCode(plan, runningAs) + rest ==
            [InstallCatch(Source)] +
            (if RunsAs(plan, runningAs, Source) then [Persist(Authority(Source))] + rest
             else [Persist(AdvanceTo(SourceRestartPending, Target))] +
                  ([RestartSource] + ([Persist(Authority(Source))] + rest)))
  {
  }

  lemma {:induction false} DriveKeeps(plan: Plan, env: nat -> Outcome, s: State, a: nat, b: nat)
    requires a <= b && ValidPlan(plan) && Inv(plan, s)
    ensures Inv(plan, Drive(plan, env, s, a, b))
    decreases b
  {
    hide Inv, Step;
    if a != b {
      DriveKeeps(plan, env, s, a, b - 1);
      StepKeeps(plan, Drive(plan, env, s, a, b - 1), Exec(env(b - 1)));
    }
  }

  /** All turns from a to b succeed, and no restart is only scheduled. */
  ghost predicate AllGood(env: nat -> Outcome, a: nat, b: nat) {
    forall k :: a <= k < b ==> Succeeds(env(k)) && !env(k).scheduled
  }

  /** On course, or already rolled back. */
  ghost predicate Good(plan: Plan, s: State) {
    OnCourse(plan, s) || (Landed(plan, s) && s.w.src.value.phase == RolledBack)
  }

  lemma GoodStep(plan: Plan, s: State, o: Outcome)
    requires ValidPlan(plan) && Good(plan, s) && Succeeds(o) && !o.scheduled
    ensures Good(plan, Step(plan, s, Exec(o)))
  {
    if OnCourse(plan, s) {
      CourseStep(plan, s, o);
    }
  }

  lemma {:induction false} DriveGood(plan: Plan, env: nat -> Outcome, s: State, a: nat, b: nat)
    requires a <= b && ValidPlan(plan) && OnCourse(plan, s) && AllGood(env, a, b)
    ensures Good(plan, Drive(plan, env, s, a, b))
    decreases b
  {
    hide OnCourse, Landed, Step, Succeeds;
    if a != b {
      DriveGood(plan, env, s, a, b - 1);
      GoodStep(plan, Drive(plan, env, s, a, b - 1), env(b - 1));
    }
  }

  lemma {:induction false} DriveOff(plan: Plan, env: nat -> Outcome, s: State, a: nat, b: nat, x: Tx)
    requires a <= b && ValidPlan(plan) && OffCourse(plan, s, x)
    ensures OffCourse(plan, Drive(plan, env, s, a, b), x)
    decreases b
  {
    hide OffCourse, Step;
    if a != b {
      DriveOff(plan, env, s, a, b - 1, x);
      OffStep(plan, Drive(plan, env, s, a, b - 1), x, env(b - 1));
    }
  }

  /** A rollback that starts is on course or off course, by what is running. */
  lemma RollbackCourse(plan: Plan, s: State)
    requires ValidPlan(plan) && Inv(plan, s) && s.proc.Up? && s.proc.job.Some?
    requires var job := s.proc.job.value; job == RollbackJob(plan, job.tx, job.runningAs)
    ensures if Clear(plan, s.w.running) then OnCourse(plan, s) else OffCourse(plan, s, s.w.src.value)
  {
    var job := s.proc.job.value;
    RollbackLands(plan, job.tx, []);
    assert [] + RollbackCode(plan, job.tx) == RollbackCode(plan, job.tx);
    RollbackMatchesIffClear(plan, s.w.running, job.tx);
    RollbackStops(plan, job.tx);
  }

  lemma StopsSplit(names: seq<string>, i: nat, rest: seq<Instr>)
    requires i <= |names|
    ensures i == 0 ==> Stops(names) + rest == Stops(names[i..]) + rest
    ensures i < |names| ==> Stops(names[i..]) + rest == [Stop(names[i])] + (Stops(names[i + 1..]) + rest)
    ensures i == |names| ==> Stops(names[i..]) + rest == rest
  {
    assert names[0..] == names;
    if i < |names| {
      assert names[i..][1..] == names[i + 1..];
    } else {
      assert Stops(names[i..]) == [];
      assert [] + rest == rest;
    }
  }

  lemma StartsSplit(names: seq<string>, i: nat, rest: seq<Instr>)
    requires i <= |names|
    ensures i == 0 ==> Starts(names) + rest == Starts(names[i..]) + rest
    ensures i < |names| ==> Starts(names[i..]) + rest == [Start(names[i])] + (Starts(names[i + 1..]) + rest)
    ensures i == |names| ==> Starts(names[i..]) + rest == rest
  {
    assert names[0..] == names;
    if i < |names| {
      assert names[i..][1..] == names[i + 1..];
    } else {
      assert Starts(names[i..]) == [];
      assert [] + rest == rest;
    }
  }

  lemma RestoreUnitsSplit(names: seq<string>, i: nat, rest: seq<Instr>)
    requires i <= |names|
    ensures i == 0 ==> RestoreUnits(names) + rest == RestoreUnits(names[i..]) + rest
    ensures i < |names| ==>
              RestoreUnits(names[i..]) + rest == [RestoreUnit(names[i])] + (RestoreUnits(names[i + 1..]) + rest)
    ensures i == |names| ==> RestoreUnits(names[i..]) + rest == rest
  {
    assert names[0..] == names;
    if i < |names| {
      assert names[i..][1..] == names[i + 1..];
    } else {
      assert RestoreUnits(names[i..]) == [];
      assert [] + rest == rest;
    }
  }

  class HostStorageApplier {
    const plan: Plan
    const env: nat -> Outcome
    const config: Side
    ghost const begun: State      // the machine state this run started from
    ghost const first: nat        // and the turn it started with

    var now: nat                  // the next turn of the environment
    var w: World                  // what is durable, or belongs to the host
    var log: seq<Tx>              // versions of the source journal; never read
    var phase: Phase
    var authority: Side
    var stopped: seq<string>
    var restarted: seq<string>
    var cause: bool
    var runningAs: Side
    ghost const blocked: bool

    /** A rollback about to start, as the machine starts it. */
    constructor (plan: Plan, env: nat -> Outcome, config: Side, ghost blocked: bool, now: nat,
                 w: World, log: seq<Tx>, tx: Tx, runningAs: Side)
      ensures this.plan == plan && this.env == env && this.w == w && this.now == now && first == now
      ensures begun == State(w, Up(config, blocked, Serving(Recover), Some(RollbackJob(plan, tx, runningAs))), log)
      ensures Memory() == tx && this.runningAs == runningAs
      ensures Tracks(RollbackCode(plan, tx), Joined, false)
    {
      this.plan, this.env, this.config, this.blocked, this.now := plan, env, config, blocked, now;
      this.w, this.log, this.runningAs := w, log, runningAs;
      phase, authority, stopped, restarted, cause := tx.phase, tx.authority, tx.stopped, tx.restarted, tx.cause;
      first := now;
      begun := State(w, Up(config, blocked, Serving(Recover), Some(RollbackJob(plan, tx, runningAs))), log);
    }

    function Memory(): Tx
      reads this
    {
      Tx(phase, authority, stopped, restarted, cause)
    }

    ghost function Machine(): State
      requires first <= now
      reads this
    {
      Drive(plan, env, begun, first, now)
    }

    /** The machine is where this code is: with this journal in memory and this code to do. */
    ghost predicate TracksAs(tx: Tx, code: seq<Instr>, mode: Mode, failed: bool)
      reads this
    {
      && first <= now
      && Machine() == State(w, Up(config, blocked, Serving(Recover), Some(Job(code, tx, mode, failed, runningAs))), log)
    }

    ghost predicate Tracks(code: seq<Instr>, mode: Mode, failed: bool)
      reads this
    {
      TracksAs(Memory(), code, mode, failed)
    }

    /** The machine has given up, with the same durable state. */
    ghost predicate Ended()
      reads this
    {
      && first <= now
      && Machine().w == w && Machine().log == log && Machine().proc.Up? && Machine().proc.job.None?
    }

    // ----- the two copies of the journal -----

    method WriteSource(ghost u: Update, ghost was: Tx, ghost rest: seq<Instr>, ghost mode: Mode) returns (ok: bool)
      requires mode == Joined || mode == Plain
      requires TracksAs(was, [Transaction.Persist(u)] + rest, mode, false) && Memory() == Updated(u, was)
      requires mode == Joined ==> !Reloads(u)
      modifies `w, `log, `now
      ensures ok ==> Tracks([Mirror] + rest, mode, false) && w.src == Some(Memory())
      ensures !ok && mode == Joined ==> Tracks(rest, Joined, true)
      ensures !ok && mode == Plain ==> Ended()
      ensures w == old(w) || w == old(w).(src := Some(Memory()))
    {
      hide Step;
      var o := env(now);
      SourceTurn(plan, w, config, blocked, log, was, u, rest, mode, runningAs, o);
      if o.ok || o.effect {
        w := w.(src := Some(Memory()));
        log := log + [Memory()];
      }
      now := now + 1;
      ok := o.ok;
    }

    /** The target is written only while its root can be reached. */
    method WriteTarget(ghost rest: seq<Instr>, ghost mode: Mode) returns (ok: bool)
      requires mode == Joined || mode == Plain
      requires Tracks([Mirror] + rest, mode, false)
      modifies `w, `now
      ensures ok ==> Tracks(rest, mode, false)
      ensures !ok && mode == Joined ==> Tracks(rest, Joined, true)
      ensures !ok && mode == Plain ==> Ended()
      ensures w == old(w) || w == old(w).(tgt := Some(Memory()))
    {
      hide Step;
      var o := env(now);
      TargetTurn(plan, w, config, blocked, log, Memory(), rest, mode, runningAs, o);
      ok := true;
      if TargetReadable(plan, w) {
        if o.ok || o.effect {
          w := w.(tgt := Some(Memory()));
        }
        ok := o.ok;
      }
      now := now + 1;
    }

    /** Writes the journal in memory to the source and then, if its root is there, to the
        target. In a joined part an error only marks the part as failed. */
    method Persist(ghost u: Update, ghost was: Tx, ghost rest: seq<Instr>, ghost mode: Mode) returns (ok: bool)
      requires mode == Joined || mode == Plain
      requires TracksAs(was, [Transaction.Persist(u)] + rest, mode, false) && Memory() == Updated(u, was)
      requires mode == Joined ==> !Reloads(u)
      modifies `w, `log, `now
      ensures ok ==> Tracks(rest, mode, false) && w.src == Some(Memory())
      ensures !ok && mode == Joined ==> Tracks(rest, Joined, true)
      ensures !ok && mode == Plain ==> Ended()
      ensures w == old(w).(src := w.src, tgt := w.tgt)
    {
      ok := WriteSource(u, was, rest, mode);
      if ok {
        ok := WriteTarget(rest, mode);
      }
    }

    /** Moves the journal on. If that reports an error the journal in memory is what can be
        read back, or else what it was. */
    method Advance(to: Phase, under: Side, ghost u: Update, ghost rest: seq<Instr>) returns (ok: bool)
      requires Reloads(u) && Updated(u, Memory()) == Memory().(phase := to, authority := under)
      requires Tracks([Transaction.Persist(u)] + rest, Plain, false)
      modifies `phase, `authority, `stopped, `restarted, `cause, `w, `log, `now
      ensures ok ==> Tracks(rest, Plain, false) && w.src == Some(Memory())
      ensures ok ==> phase == to && authority == under
      ensures !ok ==> Ended() && Memory() == if w.src.Some? then w.src.value else old(Memory())
      ensures w == old(w).(src := w.src, tgt := w.tgt)
    {
      var previous := Memory();
      phase := to;
      authority := under;
      ok := Persist(u, previous, rest, Plain);
      if !ok {
        var tx := if w.src.Some? then w.src.value else previous;
        phase, authority, stopped, restarted, cause := tx.phase, tx.authority, tx.stopped, tx.restarted, tx.cause;
      }
    }

    // ----- the six steps whose errors are collected -----

    /** Asks the environment for one errand. What it does to the host is the machine's own
        `Perform`, so for a single errand the two agree by construction; the code is about
        their order, about the errors, and about the journal. */
    method Ask(i: Instr, ghost rest: seq<Instr>, ghost failed: bool) returns (ok: bool)
      requires Errand(i) && Tracks([i] + rest, Joined, failed)
      modifies `w, `log, `now
      ensures Tracks(rest, Joined, failed || !ok)
    {
      hide Step, Perform;
      ErrandTurn(plan, w, config, blocked, log, Memory(), i, rest, failed, runningAs, env(now));
      ErrandEffect(plan, i, w, Memory(), log, runningAs, env(now));
      var e := Perform(plan, i, w, Memory(), log, runningAs, env(now));
      w, log, now := e.w, e.log, now + 1;
      ok := e.control.Next?;
    }

    method RecordCause(ghost rest: seq<Instr>) returns (ok: bool)
      requires Tracks([Transaction.Persist(Cause)] + rest, Joined, false)
      modifies `cause, `w, `log, `now
      ensures Tracks(rest, Joined, !ok)
    {
      ghost var was := Memory();
      cause := true;
      ok := Persist(Cause, was, rest, Joined);
    }

    method StopReplacements(names: seq<string>, ghost rest: seq<Instr>, ghost failed: bool) returns (ok: bool)
      requires Tracks(Stops(names) + rest, Joined, failed)
      modifies `w, `log, `now
      ensures Tracks(rest, Joined, failed || !ok)
    {
      hide Tracks, Stops;
      ok := true;
      var i := 0;
      StopsSplit(names, 0, rest);
      while i < |names|
        invariant 0 <= i <= |names|
        invariant Tracks(Stops(names[i..]) + rest, Joined, failed || !ok)
      {
        StopsSplit(names, i, rest);
        var done := Ask(Stop(names[i]), Stops(names[i + 1..]) + rest, failed || !ok);
        ok := ok && done;
        i := i + 1;
      }
      StopsSplit(names, i, rest);
    }

    method RestartPrevious(names: seq<string>, ghost rest: seq<Instr>, ghost failed: bool) returns (ok: bool)
      requires Tracks(Starts(names) + rest, Joined, failed)
      modifies `w, `log, `now
      ensures Tracks(rest, Joined, failed || !ok)
    {
      hide Tracks, Starts;
      ok := true;
      var i := 0;
      StartsSplit(names, 0, rest);
      while i < |names|
        invariant 0 <= i <= |names|
        invariant Tracks(Starts(names[i..]) + rest, Joined, failed || !ok)
      {
        StartsSplit(names, i, rest);
        var done := Ask(Start(names[i]), Starts(names[i + 1..]) + rest, failed || !ok);
        ok := ok && done;
        i := i + 1;
      }
      StartsSplit(names, i, rest);
    }

    method RestoreState(paths: seq<string>, ghost rest: seq<Instr>, ghost failed: bool) returns (ok: bool)
      requires Tracks(RestoreUnits(paths) + ([RestoreDatabase] + ([Reload] + rest)), Joined, failed)
      modifies `w, `log, `now
      ensures Tracks(rest, Joined, failed || !ok)
    {
      hide Tracks, RestoreUnits;
      ghost var after := [RestoreDatabase] + ([Reload] + rest);
      ok := true;
      var i := 0;
      RestoreUnitsSplit(paths, 0, after);
      while i < |paths|
        invariant 0 <= i <= |paths|
        invariant Tracks(RestoreUnits(paths[i..]) + after, Joined, failed || !ok)
      {
        RestoreUnitsSplit(paths, i, after);
        var done := Ask(RestoreUnit(paths[i]), RestoreUnits(paths[i + 1..]) + after, failed || !ok);
        ok := ok && done;
        i := i + 1;
      }
      RestoreUnitsSplit(paths, i, after);
      var restored := Ask(RestoreDatabase, [Reload] + rest, failed || !ok);
      ok := ok && restored;
      var reloaded := Ask(Reload, rest, failed || !ok);
      ok := ok && reloaded;
    }

    /** All six steps run, whatever the earlier ones report. */
    method CollectSteps() returns (ok: bool)
      requires Tracks(RollbackCode(plan, Memory()), Joined, false)
      modifies `cause, `w, `log, `now
      ensures Tracks([Settle] + ROLLBACK_TAIL, Joined, !ok)
    {
      hide Tracks, RollbackCode;
      var stops, starts := UniqueSorted(restarted + plan.previously), UniqueSorted(plan.previously);
      ghost var r6 := [CheckRunning] + ([Settle] + ROLLBACK_TAIL);
      ghost var r5 := Starts(starts) + r6;
      ghost var r4 := RestoreUnits(plan.unitOrder) + ([RestoreDatabase] + ([Reload] + r5));
      ghost var r3 := Stops(stops) + r4;
      RollbackNested(plan, Memory());
      ok := RecordCause([CancelRestarts] + r3);
      var cancelled := Ask(CancelRestarts, r3, !ok);
      ok := ok && cancelled;
      var halted := StopReplacements(stops, r4, !ok);
      ok := ok && halted;
      var restored := RestoreState(plan.unitOrder, r5, !ok);
      ok := ok && restored;
      var resumed := RestartPrevious(starts, r6, !ok);
      ok := ok && resumed;
      var checked := Ask(CheckRunning, [Settle] + ROLLBACK_TAIL, !ok);
      ok := ok && checked;
    }

    // ----- the tail -----

    /** Closes the joined part: the tail is reached only when nothing in it failed. */
    method Close(ghost failed: bool)
      requires Tracks([Settle] + ROLLBACK_TAIL, Joined, failed)
      modifies `now
      ensures if failed then Tracks([], Joined, true) else Tracks(ROLLBACK_TAIL, Plain, false)
    {
      hide Step;
      SettleTurn(plan, w, config, blocked, log, Memory(), failed, runningAs, env(now));
      now := now + 1;
    }

    /** Likewise for what is asked of Catch's own unit and process. */
    method AskCatch(i: Instr, ghost rest: seq<Instr>) returns (ok: bool)
      requires (i == InstallCatch(Source) || i == RestartSource) && Tracks([i] + rest, Plain, false)
      modifies `w, `now, `runningAs
      ensures if ok then Tracks(rest, Plain, false) else Ended()
      ensures i == InstallCatch(Source) ==> runningAs == old(runningAs)
    {
      hide Step, Perform;
      CatchTurn(plan, w, config, blocked, log, Memory(), i, rest, runningAs, env(now));
      var e := Perform(plan, i, w, Memory(), log, runningAs, env(now));
      w, runningAs, now := e.w, e.runningAs, now + 1;
      ok := e.control.Next?;
    }

    /** Writes the hand-over down, then restarts the source Catch. */
    method HandOver(ghost last: seq<Instr>) returns (ok: bool)
      requires Tracks([Transaction.Persist(AdvanceTo(SourceRestartPending, Target))] +
                      ([RestartSource] + last), Plain, false)
      modifies `phase, `authority, `stopped, `restarted, `cause, `w, `log, `now, `runningAs
      ensures if ok then Tracks(last, Plain, false) else Ended()
    {
      ok := Advance(SourceRestartPending, Target, AdvanceTo(SourceRestartPending, Target), [RestartSource] + last);
      if ok {
        ok := AskCatch(RestartSource, last);
      }
    }

    /** Brings back the source Catch, unless this very process is it already. */
    method RestoreSourceCatch(ghost code: seq<Instr>, ghost next: seq<Instr>, ghost rest: seq<Instr>) returns (ok: bool)
      requires Tracks(code, Plain, false) && code == [InstallCatch(Source)] + next
      requires var last := [Transaction.Persist(Authority(Source))] + rest;
               next == if RunsAs(plan, runningAs, Source) then last
                       else [Transaction.Persist(AdvanceTo(SourceRestartPending, Target))] + ([RestartSource] + last)
      modifies `phase, `authority, `stopped, `restarted, `cause, `w, `log, `now, `runningAs
      ensures if ok then Tracks(rest, Plain, false) && authority == Source else Ended()
    {
      hide Step;
      var same := RunsAs(plan, runningAs, Source);
      ok := AskCatch(InstallCatch(Source), next);
      if ok && !same {
        ok := HandOver([Transaction.Persist(Authority(Source))] + rest);
      }
      if ok {
        ok := Advance(phase, Source, Authority(Source), rest);
      }
    }

    method RestoreAuthority(ghost rest: seq<Instr>) returns (ok: bool)
      requires Tracks([Instr.RestoreAuthority] + rest, Plain, false)
      modifies `phase, `authority, `stopped, `restarted, `cause, `w, `log, `now, `runningAs
      ensures if ok then Tracks(rest, Plain, false) && authority == Source else Ended()
    {
      hide Step, AuthorityCode;
      ghost var code := if authority == Target then AuthorityCode(plan, runningAs) + rest else rest;
      AuthorityTurn(plan, w, config, blocked, log, Memory(), code, rest, runningAs, env(now));
      now := now + 1;
      assert Tracks(code, Plain, false);
      ok := true;
      if authority == Target {
        AuthoritySplit(plan, runningAs, rest);
        ok := RestoreSourceCatch(code, code[1..], rest);
      }
    }

    /** The whole rollback, as a run of the machine. */
    method RunRollback() returns (ok: bool)
      requires Tracks(RollbackCode(plan, Memory()), Joined, false)
      modifies `phase, `authority, `stopped, `restarted, `cause, `w, `log, `now, `runningAs
      ensures ok ==> Tracks([], Plain, false) && phase == RolledBack && authority == Source && w.src == Some(Memory())
      ensures !ok ==> Ended() || Tracks([], Joined, true)
    {
      hide Step, AuthorityCode, RollbackCode;
      ok := CollectSteps();
      Close(!ok);
      if !ok {
        return;
      }
      ghost var last := [Transaction.Persist(Transaction.Advance(RolledBack))] + [];
      assert ROLLBACK_TAIL == [Instr.RestoreAuthority] + last;
      ok := RestoreAuthority(last);
      if ok {
        ok := Advance(RolledBack, authority, Transaction.Advance(RolledBack), []);
      }
    }

    /** A rollback from a state the machine can be in. Success, and any announcement in the
        journal, means that the host is restored. When every turn of the environment succeeds,
        the journal ends up rolled back exactly when nothing of the plan was running that was
        not running before the migration. */
    method Rollback() returns (ok: bool)
      requires ValidPlan(plan) && now == first && Inv(plan, begun)
      requires Tracks(RollbackCode(plan, Memory()), Joined, false)
      modifies `phase, `authority, `stopped, `restarted, `cause, `w, `log, `now, `runningAs
      ensures old(now) <= now && Inv(plan, Machine())
      ensures Machine() == Run(plan, begun, Execs(Turns(env, old(now), now))) && Machine().w == w
      ensures ok ==> w.src == Some(Memory()) && phase == RolledBack && authority == Source
      ensures w.src.Some? && Announced(w.src.value.phase) ==> Restored(plan, w)
      ensures AllGood(env, old(now), now) ==>
                (w.src.Some? && w.src.value.phase == RolledBack <==> Clear(plan, old(w).running))
    {
      ghost var running := w.running;
      assert begun == Machine();
      RollbackCourse(plan, begun);
      ok := RunRollback();
      DriveIsRun(plan, env, begun, first, now);
      DriveKeeps(plan, env, begun, first, now);
      if Clear(plan, running) {
        if AllGood(env, first, now) {
          DriveGood(plan, env, begun, first, now);
        }
      } else {
        DriveOff(plan, env, begun, first, now, begun.w.src.value);
      }
    }
  }

  lemma Nested(x1: Instr, x2: Instr, b: seq<Instr>, c: seq<Instr>, d1: Instr, d2: Instr, e: seq<Instr>,
               f1: Instr, f2: Instr, g: seq<Instr>)
    ensures [x1, x2] + b + (c + [d1, d2]) + e + ([f1, f2] + g)
         == [x1] + ([x2] + (b + (c + ([d1] + ([d2] + (e + ([f1] + ([f2] + g))))))))
  {
    assert [f1, f2] + g == [f1] + ([f2] + g);
    var k := [f1] + ([f2] + g);
    assert [d1] + ([d2] + (e + k)) == [d1, d2] + (e + k);
    assert c + ([d1, d2] + (e + k)) == (c + [d1, d2]) + (e + k);
    var m := (c + [d1, d2]) + (e + k);
    assert [x1] + ([x2] + (b + m)) == [x1, x2] + (b + m);
    assert [x1, x2] + b + (c + [d1, d2]) + e + k == [x1, x2] + (b + m);
  }

  lemma RollbackNested(plan: Plan, tx: Tx)
    ensures RollbackCode(plan, tx) ==
            [Persist(Cause)] + ([CancelRestarts] + (Stops(UniqueSorted(tx.restarted + plan.previously)) +
            (RestoreUnits(plan.unitOrder) + ([RestoreDatabase] + ([Reload] + (Starts(UniqueSorted(plan.previously)) +
            ([CheckRunning] + ([Settle] + ROLLBACK_TAIL))))))))
  {
    RollbackPieces(plan, tx);
    Nested(Persist(Cause), CancelRestarts, Stops(UniqueSorted(tx.restarted + plan.previously)),
           RestoreUnits(plan.unitOrder), RestoreDatabase, Reload, Starts(UniqueSorted(plan.previously)),
           CheckRunning, Settle, ROLLBACK_TAIL);
  }
}
