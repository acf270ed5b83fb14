/** What has happened on the host by the time the journal says so: services stop before it says
    stopped, the data is copied and all services run again before the switch, and a migration
    is not applied before its last check has passed. */
module Switchover {
  import opened Artifacts
  import opened Ordering
  import opened Transaction
  import opened Applying

  /** What is known while a migration is applied: services that run or do not run, whether the
      source journal is there, the data has been copied, Catch's unit is the target's, and
      Catch has been restarted. */
  datatype Facts = Facts(
    down: set<string>, up: set<string>, written: bool, rooted: bool, mirrored: bool, copied: bool, unit: bool,
    switched: bool)

  const NOTHING := Facts({}, {}, false, false, false, false, false, false)

  function Next(f: Facts, i: Instr): Facts {
    match i
    case Create => f.(written := true)
    case Persist(u) => f.(written := true, mirrored := f.mirrored || f.rooted)
    case Stop(n) => f.(down := f.down + {n}, up := f.up - {n})
    case Start(n) => f.(down := f.down - {n}, up := f.up + {n})
    case Mutate => f.(down := {}, up := {})
    case CreateTarget => f.(rooted := true)
    case CopyData => f.(copied := true)
    case InstallCatch(side) => f.(unit := side == Target)
    case RestartTarget => f.(switched := true)
    case _ => f
  }

  predicate AllIn(names: seq<string>, s: set<string>) {
    forall n :: n in names ==> n in s
  }

  /** The switch is over: all services run, and if Catch had to be switched, it has been. */
  predicate Over(plan: Plan, f: Facts) {
    AllIn(plan.previously, f.up) && f.written && f.copied && (plan.needsRestart ==> f.unit && f.switched)
  }

  function Position(p: Phase, a: Side, i: Instr): Tx {
    if i.Persist? then Updated(i.u, Tx(p, a, [], [], false)) else Tx(p, a, [], [], false)
  }

  /** An instruction comes at the right time. */
  predicate Fits(plan: Plan, i: Instr, p: Phase, a: Side, f: Facts, last: bool) {
    match i
    case Persist(u) =>
      var q := Position(p, a, i).phase;
      && q != SourceRestartPending
      && (q == ServicesStopped && p != q ==> AllIn(plan.previously, f.down) && f.rooted)
      && (q == TargetReady && p != q ==> f.copied)
      && (q == CatchSwitching && p != q ==> AllIn(plan.previously, f.up) && f.copied)
      && (q == CatchSwitched && p != q ==> Over(plan, f))
    case CopyData => f.written && p == ServicesStopped
    case InstallCatch(side) => side == Target && p == CatchSwitching && a == Target
    case CheckApply =>
      last && p == CatchSwitched && a == (if plan.needsRestart then Target else Source) && Over(plan, f)
    case Create => p == Prepared && !f.mirrored
    case MirrorPrepared => true
    case Mirror => true
    case Enter => true
    case CreateTarget => true
    case Stop(n) => f.written && f.mirrored
    case Start(n) => f.written
    case Mutate => true
    case RestartTarget => p == CatchSwitching
    case _ => false
  }

  /** A program in which everything comes at the right time and the check comes last. */
  predicate Sound(plan: Plan, code: seq<Instr>, p: Phase, a: Side, f: Facts) {
    && code != []
    && Fits(plan, code[0], p, a, f, code[1..] == [])
    && (code[0].CheckApply? ||
        var t := Position(p, a, code[0]); Sound(plan, code[1..], t.phase, t.authority, Next(f, code[0])))
  }

  /** calm: restarts of Catch have not been deferred. */
  predicate Holds(plan: Plan, f: Facts, w: World, runningAs: Side, calm: bool) {
    && (forall n :: n in f.down ==> n !in w.running)
    && (forall n :: n in f.up ==> n in w.running)
    && (f.written ==> w.src.Some?)
    && (f.rooted ==> w.targetRoot) && (f.mirrored ==> f.rooted)
    && (f.copied && plan.hasTarget ==> w.tgt.Some? && w.targetRoot)
    && (f.unit ==> w.catchUnit == Target)
    && (f.switched && calm ==> runningAs == Target)
  }

  lemma SoundCons(plan: Plan, i: Instr, rest: seq<Instr>, p: Phase, a: Side, f: Facts, code: seq<Instr>)
    requires code == [i] + rest && rest != [] && !i.CheckApply? && Fits(plan, i, p, a, f, false)
    requires var t := Position(p, a, i); Sound(plan, rest, t.phase, t.authority, Next(f, i))
    ensures Sound(plan, code, p, a, f)
  {
    assert code[1..] == rest;
  }

  lemma SoundHead(plan: Plan, i: Instr, rest: seq<Instr>, p: Phase, a: Side, f: Facts)
    requires Sound(plan, [i] + rest, p, a, f)
    ensures Fits(plan, i, p, a, f, rest == [])
    ensures !i.CheckApply? ==>
              var t := Position(p, a, i); rest != [] && Sound(plan, rest, t.phase, t.authority, Next(f, i))
    ensures i.CheckApply? ==> rest == []
  {
    assert ([i] + rest)[1..] == rest;
  }

  // ----- the program of a migration is sound -----

  /** A service and its entry in the journal. */
  lemma PairSound(plan: Plan, i: Instr, u: Update, tail: seq<Instr>, p: Phase, f: Facts)
    requires (i.Stop? || i.Start?) && (u.AddStopped? || u.AddRestarted?) && f.written && f.mirrored
    requires p != SourceRestartPending && Sound(plan, tail, p, Source, Next(f, i))
    ensures Sound(plan, [i, Persist(u)] + tail, p, Source, f)
  {
    SoundNotEmpty(plan, tail, p, Source, Next(f, i));
    hide Sound;
    SoundCons(plan, Persist(u), tail, p, Source, Next(f, i), [Persist(u)] + tail);
    SoundCons(plan, i, [Persist(u)] + tail, p, Source, f, [i, Persist(u)] + tail);
  }

  lemma {:induction false} StopsSound(plan: Plan, names: seq<string>, rest: seq<Instr>, f: Facts)
    requires f.written && f.mirrored
    requires Sound(plan, rest, Prepared, Source, f.(down := f.down + Names(names), up := f.up - Names(names)))
    ensures Sound(plan, StopAndRecord(names) + rest, Prepared, Source, f)
    decreases names
  {
    hide Sound;
    if names == [] {
      assert StopAndRecord(names) + rest == rest;
      assert f.(down := f.down + Names(names), up := f.up - Names(names)) == f;
    } else {
      var n, more := names[0], names[1..];
      var f' := Next(f, Stop(n));
      assert Names(names) == {n} + Names(more);
      assert f'.(down := f'.down + Names(more), up := f'.up - Names(more)) ==
             f.(down := f.down + Names(names), up := f.up - Names(names));
      StopsSound(plan, more, rest, f');
      var tail := StopAndRecord(more) + rest;
      PairSound(plan, Stop(n), AddStopped(n), tail, Prepared, f);
      assert StopAndRecord(names) + rest == [Stop(n), Persist(AddStopped(n))] + tail;
    }
  }

  lemma SoundNotEmpty(plan: Plan, code: seq<Instr>, p: Phase, a: Side, f: Facts)
    requires Sound(plan, code, p, a, f)
    ensures code != []
  {
  }

  lemma {:induction false} StartsSound(plan: Plan, names: seq<string>, rest: seq<Instr>, f: Facts)
    requires f.written && f.mirrored
    requires Sound(plan, rest, TargetReady, Source, f.(down := f.down - Names(names), up := f.up + Names(names)))
    ensures Sound(plan, StartAndRecord(names) + rest, TargetReady, Source, f)
    decreases names
  {
    hide Sound;
    if names == [] {
      assert StartAndRecord(names) + rest == rest;
      assert f.(down := f.down - Names(names), up := f.up + Names(names)) == f;
    } else {
      var n, more := names[0], names[1..];
      var f' := Next(f, Start(n));
      assert Names(names) == {n} + Names(more);
      assert f'.(down := f'.down - Names(more), up := f'.up + Names(more)) ==
             f.(down := f.down - Names(names), up := f.up + Names(names));
      StartsSound(plan, more, rest, f');
      var tail := StartAndRecord(more) + rest;
      PairSound(plan, Start(n), AddRestarted(n), tail, TargetReady, f);
      assert StartAndRecord(names) + rest == [Start(n), Persist(AddRestarted(n))] + tail;
    }
  }

  lemma FinishSound(plan: Plan, p: Phase, a: Side, f: Facts)
    requires Over(plan, f) && f.written && f.mirrored && a == (if plan.needsRestart then Target else Source)
    ensures Sound(plan, [Persist(Advance(CatchSwitched)), CheckApply], p, a, f)
  {
    assert [CheckApply][1..] == [];
    SoundCons(plan, Persist(Advance(CatchSwitched)), [CheckApply], p, a, f,
              [Persist(Advance(CatchSwitched)), CheckApply]);
  }

  lemma SwitchFits(plan: Plan, f: Facts)
    requires AllIn(plan.previously, f.up) && f.copied && f.written && f.mirrored
    ensures var i := Persist(AdvanceTo(CatchSwitching, Target));
            Fits(plan, i, TargetReady, Source, f, false) && Next(f, i) == f &&
            Position(TargetReady, Source, i) == Tx(CatchSwitching, Target, [], [], false)
    ensures var i := InstallCatch(Target);
            Fits(plan, i, CatchSwitching, Target, f, false) && Next(f, i) == f.(unit := true) &&
            Position(CatchSwitching, Target, i) == Tx(CatchSwitching, Target, [], [], false)
    ensures var i := RestartTarget;
            Fits(plan, i, CatchSwitching, Target, f, false) && Next(f, i) == f.(switched := true) &&
            Position(CatchSwitching, Target, i) == Tx(CatchSwitching, Target, [], [], false)
  {
  }

  lemma EndingSound(plan: Plan, f: Facts)
    requires AllIn(plan.previously, f.up) && f.copied && f.written && f.mirrored
    ensures Sound(plan, Ending(plan), TargetReady, Source, f)
  {
    var finish := [Persist(Advance(CatchSwitched)), CheckApply];
    if plan.needsRestart {
      var f1 := f.(unit := true);
      var f2 := f1.(switched := true);
      SwitchFits(plan, f);
      SwitchFits(plan, f1);
      FinishSound(plan, CatchSwitching, Target, f2);
      hide Sound, Fits, Next, Position, Over;
      SoundCons(plan, RestartTarget, finish, CatchSwitching, Target, f1, [RestartTarget] + finish);
      SoundCons(plan, InstallCatch(Target), [RestartTarget] + finish, CatchSwitching, Target, f,
                [InstallCatch(Target)] + ([RestartTarget] + finish));
      SoundCons(plan, Persist(AdvanceTo(CatchSwitching, Target)), [InstallCatch(Target)] + ([RestartTarget] + finish),
                TargetReady, Source, f, Ending(plan));
    } else {
      FinishSound(plan, TargetReady, Source, f);
      assert Ending(plan) == finish;
    }
  }

  lemma MiddleSound(plan: Plan, f: Facts, rest: seq<Instr>)
    requires AllIn(plan.previously, f.down) && f.written && f.mirrored && f.rooted && rest != []
    requires Sound(plan, rest, TargetReady, Source, f.(down := {}, up := {}, copied := true))
    ensures Sound(plan, Middle(plan) + rest, Prepared, Source, f)
  {
    hide Sound;
    var f1 := Next(f, Mutate);
    var f2 := Next(f1, CopyData);
    assert Next(f2, Mutate) == f2 == f.(down := {}, up := {}, copied := true);
    var c4 := [Persist(Advance(TargetReady))] + rest;
    var c3, c2, c1 := [Mutate] + c4, [CopyData] + ([Mutate] + c4), [Mutate] + ([CopyData] + ([Mutate] + c4));
    SoundCons(plan, Persist(Advance(TargetReady)), rest, ServicesStopped, Source, f2, c4);
    SoundCons(plan, Mutate, c4, ServicesStopped, Source, f2, c3);
    SoundCons(plan, CopyData, c3, ServicesStopped, Source, f1, c2);
    SoundCons(plan, Mutate, c2, ServicesStopped, Source, f, c1);
    Applying.Chained5(Persist(Advance(ServicesStopped)), Mutate, CopyData, Mutate, Persist(Advance(TargetReady)), rest);
    SoundCons(plan, Persist(Advance(ServicesStopped)), c1, Prepared, Source, f, Middle(plan) + rest);
  }

  lemma StartsAndEndingSound(plan: Plan, f: Facts)
    requires f.written && f.mirrored && f.copied
    ensures Sound(plan, StartAndRecord(plan.previously) + Ending(plan), TargetReady, Source, f)
  {
    var f' := f.(down := f.down - Names(plan.previously), up := f.up + Names(plan.previously));
    EndingSound(plan, f');
    hide Sound, Ending;
    StartsSound(plan, plan.previously, Ending(plan), f);
  }

  lemma ApplySound(plan: Plan)
    ensures Sound(plan, ApplyCode(plan), Prepared, Source, NOTHING)
  {
    hide Sound, ApplyCode, Ending, Middle;
    var f := NOTHING.(written := true);
    var f' := f.(rooted := true);
    var f2 := f'.(mirrored := true);
    var stopped := f2.(down := f2.down + Names(plan.previously), up := f2.up - Names(plan.previously));
    var last := StartAndRecord(plan.previously) + Ending(plan);
    StartsAndEndingSound(plan, stopped.(down := {}, up := {}, copied := true));
    ApplyParts(plan);
    SoundNotEmpty(plan, last, TargetReady, Source, stopped.(down := {}, up := {}, copied := true));
    MiddleSound(plan, stopped, last);
    StopsSound(plan, plan.previously, Middle(plan) + last, f2);
    var rest := StopAndRecord(plan.previously) + (Middle(plan) + last);
    SoundNotEmpty(plan, rest, Prepared, Source, f2);
    var c3 := [Persist(Keep)] + rest;
    var c2, c1 := [CreateTarget] + c3, [Enter] + ([CreateTarget] + c3);
    SoundCons(plan, Persist(Keep), rest, Prepared, Source, f', c3);
    SoundCons(plan, CreateTarget, c3, Prepared, Source, f, c2);
    SoundCons(plan, Enter, c2, Prepared, Source, f, c1);
    Applying.Chained4(Create, Enter, CreateTarget, Persist(Keep), rest);
    SoundCons(plan, Create, c1, Prepared, Source, NOTHING, ApplyCode(plan));
  }

  // ----- one instruction -----

  /** A successful instruction makes its fact true and keeps the others. */
  lemma Happens(plan: Plan, i: Instr, w: World, tx: Tx, log: seq<Tx>, runningAs: Side, o: Outcome, f: Facts, last: bool,
                calm: bool)
    requires Holds(plan, f, w, runningAs, calm) && Fits(plan, i, tx.phase, tx.authority, f, last)
    requires calm ==> !o.scheduled
    ensures var e := Perform(plan, i, w, tx, log, runningAs, o);
            && (!e.control.Fail? ==> Holds(plan, Next(f, i), e.w, e.runningAs, calm))
            && (e.control.Repeat? ==> i == Mutate)
            && (e.control.Next? ==> o.ok || !i.CheckApply?)
  {
    FitsKinds(plan, i, tx.phase, tx.authority, f, last);
    hide Updated, Fits, AuthorityCode, Matches;
  }

  /** A copy of the journal stays, and copying it makes one. */
  lemma CopyStays(plan: Plan, i: Instr, w: World, tx: Tx, log: seq<Tx>, runningAs: Side, o: Outcome, f: Facts,
                  last: bool)
    requires Fits(plan, i, tx.phase, tx.authority, f, last)
    requires f.mirrored ==> w.targetRoot
    requires f.mirrored && plan.hasTarget && i != Mirror ==> w.tgt.Some?
    ensures var e := Perform(plan, i, w, tx, log, runningAs, o);
            !e.control.Fail? && !i.Persist? && Next(f, i).mirrored && plan.hasTarget ==> e.w.tgt.Some?
  {
    FitsKinds(plan, i, tx.phase, tx.authority, f, last);
    hide Updated, Fits, AuthorityCode, Matches;
  }

  lemma FitsKinds(plan: Plan, i: Instr, p: Phase, a: Side, f: Facts, last: bool)
    requires Fits(plan, i, p, a, f, last)
    ensures i.CopyData? ==> f.written
    ensures i.InstallCatch? ==> i.side == Target
    ensures i.Create? || i.MirrorPrepared? || i.Mirror? || i.Enter? || i.CreateTarget? || i.Stop? || i.Start? ||
            i.Mutate? || i.RestartTarget? || i.Persist? || i.CopyData? || i.InstallCatch? || i.CheckApply?
  {
  }

  // ----- one step of the job -----

  predicate Forward(m: Mode) {
    m == Creating || m == Applying
  }

  predicate Known(plan: Plan, w: World, job: Job, f: Facts, calm: bool) {
    && Holds(plan, f, w, job.runningAs, calm) && Sound(plan, job.code, job.tx.phase, job.tx.authority, f)
    && Copied(plan, w, job.code, f)
  }

  /** Where the journal has been copied, unless that is the next step, there is a copy. */
  predicate Copied(plan: Plan, w: World, code: seq<Instr>, f: Facts) {
    f.mirrored && plan.hasTarget && code != [] && code[0] != Mirror ==> w.tgt.Some?
  }

  lemma PositionOf(tx: Tx, i: Instr)
    ensures var t := Position(tx.phase, tx.authority, i);
            var t' := if i.Persist? then Updated(i.u, tx) else tx;
            t'.phase == t.phase && t'.authority == t.authority
  {
  }

  /** Two inserted instructions that write a copy of the journal add no facts. */
  lemma CopyAhead(plan: Plan, i: Instr, rest: seq<Instr>, p: Phase, a: Side, f: Facts)
    requires (i.Mirror? || i.MirrorPrepared?) && rest != [] && Sound(plan, rest, p, a, f)
    ensures Sound(plan, [i] + rest, p, a, f)
  {
    SoundCons(plan, i, rest, p, a, f, [i] + rest);
  }

  lemma Repeated(plan: Plan, rest: seq<Instr>, p: Phase, a: Side, f: Facts)
    requires Sound(plan, [Mutate] + rest, p, a, f)
    ensures Sound(plan, [Mutate] + rest, p, a, Next(f, Mutate))
  {
    SoundHead(plan, Mutate, rest, p, a, f);
    SoundCons(plan, Mutate, rest, p, a, Next(f, Mutate), [Mutate] + rest);
  }

  lemma GoesForward(plan: Plan, s: State, e: Effect, i: Instr, rest: seq<Instr>)
    requires s.proc.Up? && s.proc.job.Some? && s.proc.job.value.code == [i] + rest && Forward(s.proc.job.value.mode)
    requires i != Settle
    ensures var s' := Continue(plan, s, e);
            && s'.w == e.w
            && (s'.proc.job.Some? && Forward(s'.proc.job.value.mode) ==>
                  var job' := s'.proc.job.value;
                  && !e.control.Fail? && job'.tx == e.tx && job'.runningAs == e.runningAs
                  && job'.code == if e.control.Repeat? then [i] + rest else e.control.extra + rest)
  {
    hide RollbackCode;
    assert ([i] + rest)[1..] == rest;
  }

  /** What is left to be done after one more instruction is sound. */
  lemma RestSound(plan: Plan, i: Instr, rest: seq<Instr>, tx: Tx, f: Facts, e: Effect)
    requires Sound(plan, [i] + rest, tx.phase, tx.authority, f) && !i.CheckApply?
    requires e.control.Repeat? ==> i == Mutate && e.tx == tx
    requires e.control.Next? ==>
               && e.tx == (if i.Persist? then Updated(i.u, tx) else tx)
               && e.control.extra == if i.Create? then [MirrorPrepared] else if i.Persist? then [Mirror] else []
    requires !e.control.Fail?
    ensures var code := if e.control.Repeat? then [i] + rest else e.control.extra + rest;
            code != [] && Sound(plan, code, e.tx.phase, e.tx.authority, Next(f, i))
  {
    SoundHead(plan, i, rest, tx.phase, tx.authority, f);
    PositionOf(tx, i);
    hide Sound, Fits, Position, Updated;
    if e.control.Repeat? {
      Repeated(plan, rest, tx.phase, tx.authority, f);
    } else {
      var t := Position(tx.phase, tx.authority, i);
      CopyAhead(plan, MirrorPrepared, rest, t.phase, t.authority, Next(f, i));
      CopyAhead(plan, Mirror, rest, t.phase, t.authority, Next(f, i));
      assert [] + rest == rest;
    }
  }

  /** A step of a migration that is being applied: it goes on with one more fact, or its last
      check has passed, or it is given up for a rollback or an abandoned journal. */
  lemma Advances(plan: Plan, s: State, o: Outcome, f: Facts, calm: bool)
    requires s.proc.Up? && s.proc.job.Some? && s.proc.job.value.code != [] && Forward(s.proc.job.value.mode)
    requires Known(plan, s.w, s.proc.job.value, f, calm) && (calm ==> !o.scheduled)
    ensures var s', i := Run1(plan, s, o), s.proc.job.value.code[0];
            s'.proc.job.Some? && Forward(s'.proc.job.value.mode) ==>
              && Holds(plan, Next(f, i), s'.w, s'.proc.job.value.runningAs, calm)
              && if s'.proc.job.value.code == [] then
                   i == CheckApply && o.ok && Over(plan, f) && s'.proc.job.value.tx == s.proc.job.value.tx
                 else Known(plan, s'.w, s'.proc.job.value, Next(f, i), calm)
  {
    hide Perform, Sound, Fits, Holds, Position, Updated, AuthorityCode, Continue, Over, Next;
    var job := s.proc.job.value;
    var i, rest := job.code[0], job.code[1..];
    assert job.code == [i] + rest;
    SoundHead(plan, i, rest, job.tx.phase, job.tx.authority, f);
    FitsKinds(plan, i, job.tx.phase, job.tx.authority, f, rest == []);
    CheckFits(plan, i, job.tx.phase, job.tx.authority, f, rest == []);
    Happens(plan, i, s.w, job.tx, s.log, job.runningAs, o, f, rest == [], calm);
    MirroredHolds(plan, f, s.w, job.runningAs, calm);
    CopyStays(plan, i, s.w, job.tx, s.log, job.runningAs, o, f, rest == []);
    Leaves(plan, i, s.w, job.tx, s.log, job.runningAs, o);
    var e := Perform(plan, i, s.w, job.tx, s.log, job.runningAs, o);
    assert Run1(plan, s, o) == Continue(plan, s, e);
    hide Run1;
    AdvancesBy(plan, s, i, rest, f, calm, e);
  }

  lemma MirroredHolds(plan: Plan, f: Facts, w: World, runningAs: Side, calm: bool)
    requires Holds(plan, f, w, runningAs, calm)
    ensures f.mirrored ==> w.targetRoot
  {
  }

  lemma AdvancesBy(plan: Plan, s: State, i: Instr, rest: seq<Instr>, f: Facts, calm: bool, e: Effect)
    requires s.proc.Up? && s.proc.job.Some? && s.proc.job.value.code == [i] + rest && Forward(s.proc.job.value.mode)
    requires i != Settle
    requires var tx := s.proc.job.value.tx;
             && Sound(plan, [i] + rest, tx.phase, tx.authority, f) && (i.CheckApply? ==> rest == [])
             && (e.control.Repeat? ==> i == Mutate && e.tx == tx)
             && (e.control.Next? ==>
                   && e.tx == (if i.Persist? then Updated(i.u, tx) else tx)
                   && e.control.extra == if i.Create? then [MirrorPrepared] else if i.Persist? then [Mirror] else [])
    requires !e.control.Fail? ==> Holds(plan, Next(f, i), e.w, e.runningAs, calm)
    requires !e.control.Fail? && !i.Persist? ==> (Next(f, i).mirrored && plan.hasTarget ==> e.w.tgt.Some?)
    ensures var s' := Continue(plan, s, e);
            s'.proc.job.Some? && Forward(s'.proc.job.value.mode) ==>
              && !e.control.Fail? && Holds(plan, Next(f, i), s'.w, s'.proc.job.value.runningAs, calm)
              && if i.CheckApply? then s'.proc.job.value.code == [] && s'.proc.job.value.tx == s.proc.job.value.tx
                 else s'.proc.job.value.code != [] && Known(plan, s'.w, s'.proc.job.value, Next(f, i), calm)
  {
    GoesForward(plan, s, e, i, rest);
    hide Sound, Fits, Holds, Position, Updated, Continue, Over, Next;
    if !e.control.Fail? && !i.CheckApply? {
      RestSound(plan, i, rest, s.proc.job.value.tx, f, e);
    }
    assert [] + rest == rest;
  }

  lemma CheckFits(plan: Plan, i: Instr, p: Phase, a: Side, f: Facts, last: bool)
    requires Fits(plan, i, p, a, f, last)
    ensures i.CheckApply? ==> Over(plan, f) && Next(f, i) == f
  {
  }

  // ----- over every run -----

  /** Instructions that no longer prepare or make the switch. */
  predicate Later(i: Instr) {
    match i
    case Enter => false
    case Create => false
    case Persist(u) =>
      (match u
       case Advance(p) => p in [RolledBack, Complete, CleanupPending, Validated]
       case AdvanceTo(p, a) => p in [RolledBack, SourceRestartPending]
       case _ => true)
    case _ => true
  }

  predicate AllLater(code: seq<Instr>) {
    forall i :: i in code ==> Later(i)
  }

  /** A job that applies the migration knows where it is; any other makes no switch. */
  ghost predicate Oriented(plan: Plan, s: State) {
    s.proc.Up? && s.proc.job.Some? ==>
      var job := s.proc.job.value;
      if Forward(job.mode) then job.code == [] || exists f :: Known(plan, s.w, job, f, false)
      else AllLater(job.code)
  }

  lemma HarmlessIsLater(code: seq<Instr>)
    requires AllHarmless(code) && Create !in code
    ensures AllLater(code)
  {
    forall i | i in code ensures Later(i) {
      assert Harmless(i);
    }
  }

  lemma NoCreate(plan: Plan, tx: Tx)
    ensures Create !in RollbackCode(plan, tx)
  {
  }

  lemma RollbackIsLater(plan: Plan, tx: Tx, names: seq<string>)
    ensures AllLater(RollbackCode(plan, tx)) && AllLater(Unexpected(names) + RollbackCode(plan, tx))
  {
    RollbackHarmless(plan, tx);
    NoCreate(plan, tx);
    HarmlessIsLater(RollbackCode(plan, tx));
    assert AllLater(Unexpected(names));
  }

  /** What a job that is not applying the migration goes on with. */
  lemma LaterGoes(plan: Plan, s: State, e: Effect, i: Instr, rest: seq<Instr>)
    requires s.proc.Up? && s.proc.job.Some? && s.proc.job.value.code == [i] + rest
    requires AllLater(rest) && (Forward(s.proc.job.value.mode) ==> e.control.Fail?)
    requires i != Enter && (e.control.Next? ==> AllLater(e.control.extra))
    requires e.control.Repeat? ==> Later(i)
    ensures var s' := Continue(plan, s, e);
            s'.proc.Up? && s'.proc.job.Some? && !Forward(s'.proc.job.value.mode) ==> AllLater(s'.proc.job.value.code)
    ensures var s' := Continue(plan, s, e);
            s'.proc.Up? && (s'.proc.job.Some? ==> !Forward(s'.proc.job.value.mode))
  {
    assert ([i] + rest)[1..] == rest;
    RollbackIsLater(plan, e.tx, UniqueSorted(e.tx.stopped + plan.planned));
    assert AllLater([Abandon]) && AllLater([]);
    if e.control.Next? {
      LaterConcat(e.control.extra, rest);
    } else if e.control.Repeat? {
      LaterConcat([i], rest);
    }
    hide RollbackCode, AllLater, UniqueSorted, Unexpected;
  }

  lemma LaterConcat(a: seq<Instr>, b: seq<Instr>)
    requires AllLater(a) && AllLater(b)
    ensures AllLater(a + b)
  {
  }

  lemma GivenUp(plan: Plan, s: State, e: Effect)
    requires s.proc.Up? && s.proc.job.Some? && s.proc.job.value.code != [] && Forward(s.proc.job.value.mode)
    requires s.proc.job.value.code[0] != Settle
    ensures var s' := Continue(plan, s, e);
            s'.proc.Up? && (s'.proc.job.Some? && !Forward(s'.proc.job.value.mode) ==> AllLater(s'.proc.job.value.code))
  {
    RollbackIsLater(plan, e.tx, UniqueSorted(e.tx.stopped + plan.planned));
    assert AllLater([Abandon]);
    hide RollbackCode;
  }

  lemma ForwardStep(plan: Plan, s: State, o: Outcome)
    requires Oriented(plan, s) && s.proc.Up? && s.proc.job.Some? && s.proc.job.value.code != []
    requires Forward(s.proc.job.value.mode)
    ensures Oriented(plan, Run1(plan, s, o))
  {
    var job := s.proc.job.value;
    var f :| Known(plan, s.w, job, f, false);
    Advances(plan, s, o, f, false);
    assert job.code == [job.code[0]] + job.code[1..];
    SoundHead(plan, job.code[0], job.code[1..], job.tx.phase, job.tx.authority, f);
    FitsKinds(plan, job.code[0], job.tx.phase, job.tx.authority, f, job.code[1..] == []);
    GivenUp(plan, s, Perform(plan, job.code[0], s.w, job.tx, s.log, job.runningAs, o));
    hide Perform, Continue, Known, AllLater, Sound, Holds;
  }

  lemma LaterStep(plan: Plan, s: State, o: Outcome)
    requires Oriented(plan, s) && s.proc.Up? && s.proc.job.Some? && s.proc.job.value.code != []
    requires !Forward(s.proc.job.value.mode)
    ensures Oriented(plan, Run1(plan, s, o))
  {
    var job := s.proc.job.value;
    var i, rest := job.code[0], job.code[1..];
    assert job.code == [i] + rest && Later(i) && AllLater(rest);
    AuthorityHarmless(plan, job.runningAs);
    assert Create !in AuthorityCode(plan, job.runningAs);
    HarmlessIsLater(AuthorityCode(plan, job.runningAs));
    Leaves(plan, i, s.w, job.tx, s.log, job.runningAs, o);
    var e := Perform(plan, i, s.w, job.tx, s.log, job.runningAs, o);
    hide Perform, Continue, AuthorityCode, Known, Harmless;
    if e.control.Next? {
      assert AllLater([Mirror]) && AllLater([]);
    }
    LaterGoes(plan, s, e, i, rest);
  }

  lemma LaterLists(plan: Plan)
    ensures AllLater([CheckFinal, Persist(Advance(FinalPhase(plan)))]) && AllLater([CheckFinal])
    ensures AllLater([CheckFinal] + [] + [RecordComplete]) && AllLater([CheckFinal] + [RemoveTree] + [RecordComplete])
    ensures AllLater([CheckFinal, Persist(Advance(CleanupPending)), RemoveTree, RecordComplete])
  {
  }

  lemma StartOriented(plan: Plan, s: State, call: Call)
    requires Oriented(plan, s) && s.proc.Up? && s.proc.job.None?
    ensures Oriented(plan, Started(plan, s, call))
  {
    ApplySound(plan);
    if s.w.src.Some? {
      RollbackIsLater(plan, s.w.src.value, []);
    }
    LaterLists(plan);
    hide ApplyCode, RollbackCode, Sound, AllLater, FinalPhase;
    if call.Apply? {
      var job := Job(ApplyCode(plan), FIRST, Creating, false, s.proc.config);
      assert Known(plan, s.w, job, NOTHING, false);
    }
  }

  lemma StepOriented(plan: Plan, s: State, a: Action)
    requires Oriented(plan, s)
    ensures Oriented(plan, Step(plan, s, a))
  {
    if a.Exec? && s.proc.Up? && s.proc.job.Some? && s.proc.job.value.code != [] {
      if Forward(s.proc.job.value.mode) {
        ForwardStep(plan, s, a.o);
      } else {
        LaterStep(plan, s, a.o);
      }
    } else if a.Invoke? && s.proc.Up? && s.proc.job.None? {
      StartOriented(plan, s, a.call);
    }
    hide Run1, Started, Known;
  }

  lemma {:induction false} RunOriented(plan: Plan, s: State, acts: seq<Action>)
    requires Oriented(plan, s)
    ensures Oriented(plan, Run(plan, s, acts))
    decreases |acts|
  {
    if acts != [] {
      StepOriented(plan, s, acts[0]);
      RunOriented(plan, Step(plan, s, acts[0]), acts[1..]);
    }
  }

  // ----- what the journal says has happened -----

  /** A step adds this version to the journal. */
  predicate WritesVersion(plan: Plan, s: State, o: Outcome, v: Tx) {
    && s.proc.Up? && s.proc.job.Some? && s.proc.job.value.code != []
    && Step(plan, s, Exec(o)).log == s.log + [v]
  }

  predicate AllRun(plan: Plan, w: World) {
    forall n :: n in plan.previously ==> n in w.running
  }

  predicate NoneRuns(plan: Plan, w: World) {
    forall n :: n in plan.previously ==> n !in w.running
  }

  lemma VersionIs(plan: Plan, i: Instr, w: World, tx: Tx, log: seq<Tx>, runningAs: Side, o: Outcome, v: Tx)
    requires Perform(plan, i, w, tx, log, runningAs, o).log == log + [v]
    ensures v.phase == tx.phase || v.phase == RolledBack || (i.Persist? && v == Updated(i.u, tx))
    ensures i.Persist? && v == Updated(i.u, tx) ==>
              var w' := Perform(plan, i, w, tx, log, runningAs, o).w;
              w'.running == w.running && w'.tgt == w.tgt && w'.targetRoot == w.targetRoot && w'.catchUnit == w.catchUnit
  {
    hide AuthorityCode, Matches, TargetReadable;
    assert (log + [v])[|log|] == v;
    LookUpVersion(plan, w, log, o, v);
    hide LookUp, Updated;
    if i.Persist? {
      assert (log + [Updated(i.u, tx)])[|log|] == Updated(i.u, tx);
    } else if i.Create? {
      assert (log + [tx])[|log|] == tx;
    } else if i.Abandon? {
      assert (log + [tx.(phase := RolledBack, cause := true)])[|log|] == tx.(phase := RolledBack, cause := true);
    }
    assert |log + [v]| == |log| + 1;
  }

  lemma LookUpVersion(plan: Plan, w: World, log: seq<Tx>, o: Outcome, v: Tx)
    ensures LookUp(plan, w, log, o).1 == log + [v] ==> v.phase == RolledBack
  {
    if LookUp(plan, w, log, o).1 == log + [v] {
      assert |log + [v]| == |log| + 1 && (log + [v])[|log|] == v;
      assert w.src.Some?;
      var tx := Updated(AdvanceTo(RolledBack, Source), w.src.value);
      assert (log + [tx])[|log|] == tx;
    }
  }

  /** When the journal of a running job is carried to services-stopped, no service that was
      running before still runs, and the target's root exists. When it is carried into the
      switch, all of them run again and the data has a copy; and when it says switched, Catch's
      unit is the target's, if Catch had to be switched. This holds in every run. */
  lemma VersionTellsWhatHappened(plan: Plan, s: State, acts: seq<Action>, o: Outcome, v: Tx)
    requires Oriented(plan, s) && WritesVersion(plan, Run(plan, s, acts), o, v)
    requires Run(plan, s, acts).proc.job.value.tx.phase != v.phase
    ensures var w := Step(plan, Run(plan, s, acts), Exec(o)).w;
            && (v.phase == ServicesStopped ==> NoneRuns(plan, w) && w.targetRoot)
            && (v.phase in [CatchSwitching, CatchSwitched] ==>
                  AllRun(plan, w) && (plan.hasTarget ==> w.tgt.Some? && w.targetRoot))
            && (v.phase == CatchSwitched && plan.needsRestart ==> w.catchUnit == Target)
  {
    RunOriented(plan, s, acts);
    hide Run, Oriented, Step, AllRun, NoneRuns;
    VersionStep(plan, Run(plan, s, acts), o, v);
  }

  lemma StepIsPerform(plan: Plan, s: State, o: Outcome)
    requires s.proc.Up? && s.proc.job.Some? && s.proc.job.value.code != []
    ensures var job, s' := s.proc.job.value, Step(plan, s, Exec(o));
            var e := Perform(plan, job.code[0], s.w, job.tx, s.log, job.runningAs, o);
            s'.w == e.w && s'.log == e.log
  {
    hide Perform, RollbackCode;
  }

  lemma VersionStep(plan: Plan, s: State, o: Outcome, v: Tx)
    requires Oriented(plan, s) && WritesVersion(plan, s, o, v) && s.proc.job.value.tx.phase != v.phase
    ensures var w := Step(plan, s, Exec(o)).w;
            && (v.phase == ServicesStopped ==> NoneRuns(plan, w) && w.targetRoot)
            && (v.phase in [CatchSwitching, CatchSwitched] ==>
                  AllRun(plan, w) && (plan.hasTarget ==> w.tgt.Some? && w.targetRoot))
            && (v.phase == CatchSwitched && plan.needsRestart ==> w.catchUnit == Target)
  {
    var job := s.proc.job.value;
    var i := job.code[0];
    StepIsPerform(plan, s, o);
    VersionIs(plan, i, s.w, job.tx, s.log, job.runningAs, o, v);
    hide Perform, Step;
    if !Forward(job.mode) {
      LaterWrites(i, job.tx);
    } else if i.Persist? && v == Updated(i.u, job.tx) {
      var f :| Known(plan, s.w, job, f, false);
      hide Updated, Known;
      WriteFits(plan, i, job, s.w, f, v);
    }
  }

  lemma LaterWrites(i: Instr, tx: Tx)
    requires Later(i)
    ensures i.Persist? ==>
              var v := Updated(i.u, tx);
              v.phase == tx.phase || v.phase !in [ServicesStopped, CatchSwitching, CatchSwitched]
  {
  }

  lemma WriteFits(plan: Plan, i: Instr, job: Job, w: World, f: Facts, v: Tx)
    requires job.code != [] && i == job.code[0] && i.Persist? && v == Updated(i.u, job.tx) && v.phase != job.tx.phase
    requires Known(plan, w, job, f, false)
    ensures v.phase == ServicesStopped ==> NoneRuns(plan, w) && w.targetRoot
    ensures v.phase in [CatchSwitching, CatchSwitched] ==>
              AllRun(plan, w) && (plan.hasTarget ==> w.tgt.Some? && w.targetRoot)
    ensures v.phase == CatchSwitched && plan.needsRestart ==> w.catchUnit == Target
  {
    PositionOf(job.tx, i);
  }

  /** No service is stopped for a migration before its journal is there at the source and, if the
      data dir moves, at the target. This holds in every run. */
  lemma StopsComeAfterCopies(plan: Plan, s: State, acts: seq<Action>)
    requires Oriented(plan, s)
    requires var t := Run(plan, s, acts);
             && t.proc.Up? && t.proc.job.Some? && Forward(t.proc.job.value.mode)
             && t.proc.job.value.code != [] && t.proc.job.value.code[0].Stop?
    ensures var w := Run(plan, s, acts).w; w.src.Some? && (plan.hasTarget ==> w.tgt.Some? && w.targetRoot)
  {
    RunOriented(plan, s, acts);
    hide Run;
    var t := Run(plan, s, acts);
    var f :| Known(plan, t.w, t.proc.job.value, f, false);
  }

  /** A migration that is being applied comes to its end, in every run, only by its last check
      passing: in catch-switched, under the side that Catch was to be switched to, with all
      services running and the target's copy there. */
  lemma AppliedIsChecked(plan: Plan, s: State, acts: seq<Action>, o: Outcome)
    requires Oriented(plan, s)
    requires var t := Run(plan, s, acts);
             t.proc.Up? && t.proc.job.Some? && Forward(t.proc.job.value.mode) && t.proc.job.value.code != []
    requires var t' := Step(plan, Run(plan, s, acts), Exec(o));
             t'.proc.job.Some? && Forward(t'.proc.job.value.mode) && t'.proc.job.value.code == []
    ensures var t, t' := Run(plan, s, acts), Step(plan, Run(plan, s, acts), Exec(o));
            && t.proc.job.value.code == [CheckApply] && o.ok
            && t'.proc.job.value.tx.phase == CatchSwitched
            && t'.proc.job.value.tx.authority == (if plan.needsRestart then Target else Source)
            && AllRun(plan, t'.w) && (plan.hasTarget ==> t'.w.tgt.Some? && t'.w.targetRoot)
            && (plan.needsRestart ==> t'.w.catchUnit == Target)
  {
    RunOriented(plan, s, acts);
    hide Run;
    var t := Run(plan, s, acts);
    var job := t.proc.job.value;
    var f :| Known(plan, t.w, job, f, false);
    Advances(plan, t, o, f, false);
    assert job.code == [job.code[0]] + job.code[1..];
    SoundHead(plan, job.code[0], job.code[1..], job.tx.phase, job.tx.authority, f);
    hide Run1, Sound;
  }

  // ----- where all goes well -----

  /** The environment does everything at once, without an error. */
  predicate Good(o: Outcome) {
    o.ok && !o.again && !o.scheduled
  }

  function Weight(code: seq<Instr>): nat {
    if code == [] then 0 else (if code[0].Persist? || code[0].Create? then 2 else 1) + Weight(code[1..])
  }

  /** The journals on disk are the one in memory, except for a copy that is still to be made. */
  predicate InStep(plan: Plan, w: World, job: Job, f: Facts) {
    && (f.written ==> w.src == Some(job.tx) && job.tx.phase != SourceRestartPending)
    && (f.copied && plan.hasTarget && job.code != [] && job.code[0] != Mirror ==> w.tgt == Some(job.tx))
  }

  lemma GoodEffect(plan: Plan, i: Instr, rest: seq<Instr>, w: World, tx: Tx, log: seq<Tx>, runningAs: Side, o: Outcome,
                   f: Facts, last: bool)
    requires Good(o) && Fits(plan, i, tx.phase, tx.authority, f, last) && Holds(plan, f, w, runningAs, true)
    requires f.written ==> w.src == Some(tx) && tx.phase != SourceRestartPending
    requires f.copied && plan.hasTarget && i != Mirror ==> w.tgt == Some(tx)
    ensures var e := Perform(plan, i, w, tx, log, runningAs, o);
            && e.control.Next?
            && (Next(f, i).written ==> e.w.src == Some(e.tx) && e.tx.phase != SourceRestartPending)
            && (Next(f, i).copied && plan.hasTarget && !i.Persist? ==> e.w.tgt == Some(e.tx))
  {
    PositionOf(tx, i);
    FitsKinds(plan, i, tx.phase, tx.authority, f, last);
    PersistFits(plan, i, tx.phase, tx.authority, f, last);
    hide Updated, Fits, AuthorityCode, Matches, Position;
  }

  lemma PersistFits(plan: Plan, i: Instr, p: Phase, a: Side, f: Facts, last: bool)
    requires Fits(plan, i, p, a, f, last)
    ensures i.Persist? ==> Position(p, a, i).phase != SourceRestartPending
    ensures i.Create? ==> p == Prepared
  {
  }

  lemma WeightLess(i: Instr, rest: seq<Instr>, extra: seq<Instr>)
    requires extra == if i.Create? then [MirrorPrepared] else if i.Persist? then [Mirror] else []
    ensures Weight(extra + rest) < Weight([i] + rest)
  {
    assert ([i] + rest)[1..] == rest && [] + rest == rest;
    assert ([MirrorPrepared] + rest)[1..] == rest && ([Mirror] + rest)[1..] == rest;
  }

  /** The job has a successful step before it, and goes on with the facts. */
  predicate Underway(plan: Plan, s: State, f: Facts) {
    && s.proc.Up? && s.proc.job.Some? && s.proc.job.value.code != [] && Forward(s.proc.job.value.mode)
    && Known(plan, s.w, s.proc.job.value, f, true) && InStep(plan, s.w, s.proc.job.value, f)
  }

  /** All that a migration was to do has been done, and it has been checked. */
  predicate Applied(plan: Plan, w: World, job: Job) {
    && job.tx.phase == CatchSwitched && job.tx.authority == (if plan.needsRestart then Target else Source)
    && w.src == Some(job.tx) && (plan.hasTarget ==> w.tgt == Some(job.tx) && w.targetRoot)
    && AllRun(plan, w)
    && (plan.needsRestart ==> w.catchUnit == Target && job.runningAs == Target)
  }

  lemma GoesOnWell(plan: Plan, s: State, e: Effect, i: Instr, rest: seq<Instr>)
    requires s.proc.Up? && s.proc.job.Some? && s.proc.job.value.code == [i] + rest && Forward(s.proc.job.value.mode)
    requires i != Settle && e.control.Next?
    ensures var s' := Continue(plan, s, e);
            && s'.w == e.w && s'.proc.Up? && s'.proc.job.Some? && Forward(s'.proc.job.value.mode)
            && s'.proc.job.value.code == e.control.extra + rest && s'.proc.job.value.tx == e.tx
  {
    assert ([i] + rest)[1..] == rest;
  }

  lemma GoodStep(plan: Plan, s: State, f: Facts, o: Outcome)
    requires Underway(plan, s, f) && Good(o)
    ensures var s', i := Run1(plan, s, o), s.proc.job.value.code[0];
            && s'.proc.Up? && s'.proc.job.Some? && Forward(s'.proc.job.value.mode)
            && Weight(s'.proc.job.value.code) < Weight(s.proc.job.value.code)
            && if s'.proc.job.value.code == [] then Applied(plan, s'.w, s'.proc.job.value)
               else Underway(plan, s', Next(f, i))
  {
    var job := s.proc.job.value;
    var i, rest := job.code[0], job.code[1..];
    assert job.code == [i] + rest;
    SoundHead(plan, i, rest, job.tx.phase, job.tx.authority, f);
    FitsKinds(plan, i, job.tx.phase, job.tx.authority, f, rest == []);
    GoodEffect(plan, i, rest, s.w, job.tx, s.log, job.runningAs, o, f, rest == []);
    Leaves(plan, i, s.w, job.tx, s.log, job.runningAs, o);
    Advances(plan, s, o, f, true);
    var e := Perform(plan, i, s.w, job.tx, s.log, job.runningAs, o);
    assert Run1(plan, s, o) == Continue(plan, s, e);
    GoesOnWell(plan, s, e, i, rest);
    WeightLess(i, rest, e.control.extra);
    hide Perform, Run1, Continue, Sound, Weight;
    GoodEnd(plan, s, Continue(plan, s, e), f, i, rest, e);
  }

  lemma GoodEnd(plan: Plan, s: State, s': State, f: Facts, i: Instr, rest: seq<Instr>, e: Effect)
    requires Underway(plan, s, f) && s.proc.job.value.code == [i] + rest && e.control.Next?
    requires Fits(plan, i, s.proc.job.value.tx.phase, s.proc.job.value.tx.authority, f, rest == [])
    requires s'.w == e.w && s'.proc.Up? && s'.proc.job.Some? && Forward(s'.proc.job.value.mode)
    requires s'.proc.job.value.code == e.control.extra + rest && s'.proc.job.value.tx == e.tx
    requires e.control.extra == if i.Create? then [MirrorPrepared] else if i.Persist? then [Mirror] else []
    requires Next(f, i).written ==> e.w.src == Some(e.tx) && e.tx.phase != SourceRestartPending
    requires Next(f, i).copied && plan.hasTarget && !i.Persist? ==> e.w.tgt == Some(e.tx)
    requires Holds(plan, Next(f, i), s'.w, s'.proc.job.value.runningAs, true)
    requires if s'.proc.job.value.code == [] then
               i == CheckApply && Over(plan, f) && s'.proc.job.value.tx == s.proc.job.value.tx
             else Known(plan, s'.w, s'.proc.job.value, Next(f, i), true)
    ensures if s'.proc.job.value.code == [] then Applied(plan, s'.w, s'.proc.job.value)
            else Underway(plan, s', Next(f, i))
  {
    hide Sound;
  }

  function Times(o: Outcome, n: nat): seq<Action> {
    if n == 0 then [] else [Exec(o)] + Times(o, n - 1)
  }

  lemma {:induction false} GoodRun(plan: Plan, s: State, f: Facts, o: Outcome) returns (n: nat)
    requires Underway(plan, s, f) && Good(o)
    ensures var t := Run(plan, s, Times(o, n));
            t.proc.Up? && t.proc.job.Some? && t.proc.job.value.code == [] && Applied(plan, t.w, t.proc.job.value)
    decreases Weight(s.proc.job.value.code)
  {
    GoodStep(plan, s, f, o);
    StepIsRun(plan, s, f, o);
    hide Run1, Underway, Applied, Step, Run, Times, Weight, Next, Good;
    var s' := Run1(plan, s, o);
    if s'.proc.job.value.code == [] {
      n := 1;
      RunOnce(plan, s, o);
    } else {
      var m := GoodRun(plan, s', Next(f, s.proc.job.value.code[0]), o);
      n := m + 1;
      RunMore(plan, s, o, m);
    }
  }

  lemma StepIsRun(plan: Plan, s: State, f: Facts, o: Outcome)
    requires Underway(plan, s, f)
    ensures Step(plan, s, Exec(o)) == Run1(plan, s, o)
    ensures s.proc.Up? && s.proc.job.Some? && s.proc.job.value.code != []
  {
    hide Run1;
  }

  lemma RunMore(plan: Plan, s: State, o: Outcome, m: nat)
    ensures Run(plan, s, Times(o, m + 1)) == Run(plan, Step(plan, s, Exec(o)), Times(o, m))
  {
    hide Step;
    assert Times(o, m + 1)[0] == Exec(o) && Times(o, m + 1)[1..] == Times(o, m);
  }

  lemma RunOnce(plan: Plan, s: State, o: Outcome)
    ensures Run(plan, s, Times(o, 1)) == Step(plan, s, Exec(o))
  {
    RunMore(plan, s, o, 0);
    hide Step;
    assert Times(o, 0) == [];
  }

  /** Before a migration nothing is listed, and no job runs. */
  lemma InitialOriented(plan: Plan, s: State)
    requires Initial(plan, s)
    ensures Oriented(plan, s) && ListsKept(plan, s)
  {
  }

  /** Where the environment does everything, a requested migration is applied: both journals say
      catch-switched under the right side, all services that ran run again, and Catch's unit and
      the running Catch are the target's if they were to be switched. */
  lemma GoodMigrationIsApplied(plan: Plan, s: State, o: Outcome) returns (n: nat)
    requires ValidPlan(plan) && Initial(plan, s) && Good(o)
    ensures var t := Run(plan, s, [Invoke(Apply)] + Times(o, n));
            t.proc.Up? && t.proc.job.Some? && t.proc.job.value.code == [] && Applied(plan, t.w, t.proc.job.value)
            && ListsKept(plan, t)
  {
    ApplySound(plan);
    var job := Job(ApplyCode(plan), FIRST, Creating, false, Source);
    var s' := Step(plan, s, Invoke(Apply));
    assert s' == Serve(s, Apply, job);
    SoundNotEmpty(plan, ApplyCode(plan), Prepared, Source, NOTHING);
    assert Underway(plan, s', NOTHING);
    InitialOriented(plan, s);
    hide ApplyCode, Sound, Underway, Applied, ListsKept, Initial, Step;
    n := GoodRun(plan, s', NOTHING, o);
    assert ([Invoke(Apply)] + Times(o, n))[1..] == Times(o, n);
    VersionsListServices(plan, s, [Invoke(Apply)] + Times(o, n));
  }
}
