/** What a migration has done by the time its journal says so: in every run, interrupted,
    repeated and re-entered as it may be. */
module Applying {
  import opened Artifacts
  import opened Ordering
  import opened Transaction

  // ----- the lists of services in the journal -----

  predicate PastStops(p: Phase) {
    p in [ServicesStopped, TargetReady, CatchSwitching, CatchSwitched, Validated, CleanupPending, Complete]
  }

  predicate PastStarts(p: Phase) {
    p in [CatchSwitching, CatchSwitched, Validated, CleanupPending, Complete]
  }

  /** Past the stops the journal lists all services that were running as stopped, and past the
      starts it lists them as restarted. */
  predicate Recorded(plan: Plan, tx: Tx) {
    && (PastStops(tx.phase) ==> forall n :: n in plan.previously ==> n in tx.stopped)
    && (PastStarts(tx.phase) ==> forall n :: n in plan.previously ==> n in tx.restarted)
  }

  /** Instructions of a rollback: they write no phase but those of a rollback. */
  predicate Harmless(i: Instr) {
    match i
    case Persist(u) =>
      (match u
       case Advance(p) => p == RolledBack
       case AdvanceTo(p, a) => p == RolledBack || p == SourceRestartPending
       case _ => true)
    case RecordComplete => false
    case Enter => false
    case _ => true
  }

  predicate AllHarmless(code: seq<Instr>) {
    forall i :: i in code ==> Harmless(i)
  }

  /** Whatever the code writes from here on is recorded. */
  predicate Records(plan: Plan, code: seq<Instr>, tx: Tx) {
    code == [] ||
    match code[0]
    case Persist(u) => Recorded(plan, Updated(u, tx)) && Records(plan, code[1..], Updated(u, tx))
    case RecordComplete => tx.phase == CleanupPending && code[1..] == []
    case RestoreAuthority => AllHarmless(code[1..])
    case Abandon => AllHarmless(code[1..])
    case _ => Records(plan, code[1..], tx)
  }

  lemma HarmlessKeeps(plan: Plan, u: Update, tx: Tx)
    requires Recorded(plan, tx) && Harmless(Persist(u))
    ensures Recorded(plan, Updated(u, tx))
  {
  }

  lemma {:induction false} HarmlessRecords(plan: Plan, code: seq<Instr>, tx: Tx)
    requires Recorded(plan, tx) && AllHarmless(code)
    ensures Records(plan, code, tx)
  {
    if code != [] {
      assert Harmless(code[0]) && AllHarmless(code[1..]);
      hide Recorded;
      match code[0] {
        case Persist(u) =>
          HarmlessKeeps(plan, u, tx);
          HarmlessRecords(plan, code[1..], Updated(u, tx));
        case _ =>
          HarmlessRecords(plan, code[1..], tx);
      }
    }
  }

  predicate Listed(plan: Plan, w: World, log: seq<Tx>) {
    && (forall v :: v in log ==> Recorded(plan, v))
    && (w.src.Some? ==> Recorded(plan, w.src.value))
    && (w.tgt.Some? ==> Recorded(plan, w.tgt.value))
  }

  predicate JobRecords(plan: Plan, job: Job) {
    && Recorded(plan, job.tx) && Records(plan, job.code, job.tx)
    && (job.mode == Joined ==> AllHarmless(job.code))
  }

  predicate ListsKept(plan: Plan, s: State) {
    && Listed(plan, s.w, s.log)
    && (s.proc.Up? && s.proc.job.Some? ==> JobRecords(plan, s.proc.job.value))
  }

  lemma RecordsHead(plan: Plan, i: Instr, rest: seq<Instr>, tx: Tx)
    requires Records(plan, [i] + rest, tx)
    ensures i.Persist? ==> Recorded(plan, Updated(i.u, tx)) && Records(plan, rest, Updated(i.u, tx))
    ensures i.RecordComplete? ==> tx.phase == CleanupPending && rest == []
    ensures i.RestoreAuthority? || i.Abandon? ==> AllHarmless(rest)
    ensures !i.Persist? && !i.RecordComplete? && !i.RestoreAuthority? && !i.Abandon? ==> Records(plan, rest, tx)
  {
    assert ([i] + rest)[1..] == rest;
  }

  /** One more instruction in front. */
  lemma RecordsCons(plan: Plan, i: Instr, rest: seq<Instr>, tx: Tx, code: seq<Instr>)
    requires !i.RestoreAuthority? && !i.Abandon? && code == [i] + rest
    requires i.RecordComplete? ==> tx.phase == CleanupPending && rest == []
    requires !i.RecordComplete? ==> Records(plan, rest, if i.Persist? then Updated(i.u, tx) else tx)
    requires i.Persist? ==> Recorded(plan, Updated(i.u, tx))
    ensures Records(plan, code, tx)
  {
    assert code[1..] == rest;
  }

  lemma WroteSource(plan: Plan, w: World, log: seq<Tx>, tx: Tx)
    requires Listed(plan, w, log) && Recorded(plan, tx)
    ensures Listed(plan, w.(src := Some(tx)), log + [tx])
  {
    hide Recorded;
  }

  lemma WroteTarget(plan: Plan, w: World, log: seq<Tx>, tx: Tx)
    requires Listed(plan, w, log) && Recorded(plan, tx)
    ensures Listed(plan, w.(tgt := Some(tx)), log)
  {
    hide Recorded;
  }

  lemma LookUpLists(plan: Plan, w: World, log: seq<Tx>, o: Outcome)
    requires Listed(plan, w, log)
    ensures var (w', log') := LookUp(plan, w, log, o); Listed(plan, w', log')
  {
    if w.src.Some? {
      var tx := Updated(AdvanceTo(RolledBack, Source), w.src.value);
      WroteSource(plan, w, log, tx);
      WroteTarget(plan, w.(src := Some(tx)), log + [tx], tx);
    }
  }

  /** Instructions that write a journal. */
  predicate Writes(i: Instr) {
    i.Create? || i.MirrorPrepared? || i.Abandon? || i.Persist? || i.Mirror? || i.CopyData? || i.RecordComplete?
  }

  lemma WriterLists(plan: Plan, i: Instr, w: World, tx: Tx, log: seq<Tx>, runningAs: Side, o: Outcome)
    requires Writes(i) && Listed(plan, w, log) && Recorded(plan, tx)
    requires i.Persist? ==> Recorded(plan, Updated(i.u, tx))
    requires i.Abandon? ==> Recorded(plan, tx.(phase := RolledBack, cause := true))
    requires i.RecordComplete? ==> Recorded(plan, tx.(phase := Complete, authority := Target))
    ensures var e := Perform(plan, i, w, tx, log, runningAs, o); Listed(plan, e.w, e.log) && Recorded(plan, e.tx)
  {
    hide Recorded, Updated, TargetReadable;
  }

  lemma OtherLists(plan: Plan, i: Instr, w: World, tx: Tx, log: seq<Tx>, runningAs: Side, o: Outcome)
    requires !Writes(i) && Listed(plan, w, log)
    ensures var e := Perform(plan, i, w, tx, log, runningAs, o); Listed(plan, e.w, e.log) && e.tx == tx
  {
    LookUpLists(plan, w, log, o);
    hide Recorded, LookUp, Matches, AuthorityCode;
  }

  /** One instruction, whatever its outcome. */
  lemma PerformLists(plan: Plan, i: Instr, rest: seq<Instr>, w: World, tx: Tx, log: seq<Tx>, runningAs: Side,
                     o: Outcome)
    requires Listed(plan, w, log) && Recorded(plan, tx) && Records(plan, [i] + rest, tx)
    ensures var e := Perform(plan, i, w, tx, log, runningAs, o); Listed(plan, e.w, e.log) && Recorded(plan, e.tx)
  {
    RecordsHead(plan, i, rest, tx);
    if Writes(i) {
      hide Perform, Records, Listed;
      WriterLists(plan, i, w, tx, log, runningAs, o);
    } else {
      OtherLists(plan, i, w, tx, log, runningAs, o);
    }
  }

  lemma ListsHarmless(names: seq<string>)
    ensures AllHarmless(Stops(names)) && AllHarmless(Starts(names)) && AllHarmless(Unexpected(names))
    ensures AllHarmless(RestoreUnits(names))
  {
    EachHarmless(Stops(names));
    EachHarmless(Starts(names));
    EachHarmless(Unexpected(names));
    EachHarmless(RestoreUnits(names));
    hide AllHarmless;
  }

  lemma EachHarmless(code: seq<Instr>)
    requires forall i :: 0 <= i < |code| ==>
               code[i].Stop? || code[i].Start? || code[i].StopUnexpected? || code[i].RestoreUnit?
    ensures AllHarmless(code)
  {
  }

  lemma HarmlessConcat(a: seq<Instr>, b: seq<Instr>)
    requires AllHarmless(a) && AllHarmless(b)
    ensures AllHarmless(a + b)
  {
  }

  lemma AuthorityHarmless(plan: Plan, runningAs: Side)
    ensures AllHarmless(AuthorityCode(plan, runningAs))
  {
  }

  lemma RollbackHarmless(plan: Plan, tx: Tx)
    ensures AllHarmless(RollbackCode(plan, tx))
  {
    var stops, starts := UniqueSorted(tx.restarted + plan.previously), UniqueSorted(plan.previously);
    ListsHarmless(stops);
    ListsHarmless(starts);
    ListsHarmless(plan.unitOrder);
    HarmlessParts(Stops(stops), RestoreUnits(plan.unitOrder), Starts(starts));
  }

  lemma HarmlessParts(stops: seq<Instr>, units: seq<Instr>, starts: seq<Instr>)
    requires AllHarmless(stops) && AllHarmless(units) && AllHarmless(starts)
    ensures AllHarmless([Persist(Cause), CancelRestarts] + stops + units + [RestoreDatabase, Reload] + starts +
                        [CheckRunning, Settle] + ROLLBACK_TAIL)
  {
  }

  lemma RollbackLists(plan: Plan, tx: Tx, before: seq<Instr>, runningAs: Side)
    requires Recorded(plan, tx) && AllHarmless(before)
    ensures JobRecords(plan, Job(before + RollbackCode(plan, tx), tx, Joined, false, runningAs))
  {
    RollbackHarmless(plan, tx);
    hide Harmless, RollbackCode, Recorded;
    HarmlessConcat(before, RollbackCode(plan, tx));
    HarmlessRecords(plan, before + RollbackCode(plan, tx), tx);
  }

  /** What a successful instruction puts in front of the rest, and the journal it leaves. */
  lemma Leaves(plan: Plan, i: Instr, w: World, tx: Tx, log: seq<Tx>, runningAs: Side, o: Outcome)
    ensures var e := Perform(plan, i, w, tx, log, runningAs, o);
            && (e.control.Repeat? ==> e.tx == tx)
            && (e.control.Next? && i.Create? ==> e.control.extra == [MirrorPrepared] && e.tx == tx)
            && (e.control.Next? && i.Persist? ==> e.control.extra == [Mirror] && e.tx == Updated(i.u, tx))
            && (e.control.Next? && i.RestoreAuthority? ==>
                  e.tx == tx && e.control.extra in [[], AuthorityCode(plan, runningAs)])
            && (e.control.Next? && !i.Create? && !i.Persist? && !i.RestoreAuthority? ==>
                  && e.control.extra == []
                  && (!i.Abandon? && !i.RecordComplete? ==> e.tx == tx))
  {
    hide LookUp, AuthorityCode, Updated, Matches, TargetReadable;
  }

  /** What a successful instruction leaves to be done is recorded again. */
  lemma RestLists(plan: Plan, i: Instr, rest: seq<Instr>, tx: Tx, e: Effect, runningAs: Side)
    requires Recorded(plan, tx) && Records(plan, [i] + rest, tx) && Recorded(plan, e.tx) && e.control.Next?
    requires i.Create? ==> e.control.extra == [MirrorPrepared] && e.tx == tx
    requires i.Persist? ==> e.control.extra == [Mirror] && e.tx == Updated(i.u, tx)
    requires i.RestoreAuthority? ==> e.tx == tx && e.control.extra in [[], AuthorityCode(plan, runningAs)]
    requires !i.Create? && !i.Persist? && !i.RestoreAuthority? ==>
               && e.control.extra == [] && (!i.Abandon? && !i.RecordComplete? ==> e.tx == tx)
    requires i.Abandon? ==> AllHarmless(rest)
    ensures Records(plan, e.control.extra + rest, e.tx) && AllHarmless(e.control.extra)
  {
    RecordsHead(plan, i, rest, tx);
    AuthorityHarmless(plan, runningAs);
    EmptyRecords(plan, e.tx);
    InertAhead(plan, Mirror, rest, e.tx);
    InertAhead(plan, MirrorPrepared, rest, e.tx);
    hide Records, Recorded, Harmless, AuthorityCode, AllHarmless;
    assert [] + rest == rest;
    if i.RestoreAuthority? {
      HarmlessConcat(e.control.extra, rest);
      HarmlessRecords(plan, e.control.extra + rest, tx);
    } else if i.Abandon? {
      HarmlessRecords(plan, rest, e.tx);
    }
  }

  lemma InertAhead(plan: Plan, i: Instr, rest: seq<Instr>, tx: Tx)
    requires i.Mirror? || i.MirrorPrepared?
    ensures Records(plan, rest, tx) ==> Records(plan, [i] + rest, tx)
    ensures AllHarmless([i])
  {
    assert ([i] + rest)[1..] == rest;
  }

  lemma ContinueLists(plan: Plan, s: State, e: Effect, i: Instr, rest: seq<Instr>)
    requires s.proc.Up? && s.proc.job.Some? && s.proc.job.value.code == [i] + rest && ListsKept(plan, s)
    requires Listed(plan, e.w, e.log) && Recorded(plan, e.tx)
    requires e.control.Next? ==> Records(plan, e.control.extra + rest, e.tx) && AllHarmless(e.control.extra)
    requires e.control.Repeat? ==> e.tx == s.proc.job.value.tx
    ensures ListsKept(plan, Continue(plan, s, e))
  {
    hide Recorded, Records, Harmless, RollbackCode, Listed;
    var job := s.proc.job.value;
    assert job.code[1..] == rest;
    if e.control.Next? {
      EmptyRecords(plan, e.tx);
      if job.mode == Joined {
        assert AllHarmless(rest);
        HarmlessConcat(e.control.extra, rest);
      }
    } else if e.control.Fail? {
      FailLists(plan, s, e, i, rest);
    }
  }

  lemma EmptyRecords(plan: Plan, tx: Tx)
    ensures Records(plan, [], tx) && AllHarmless([])
  {
  }

  lemma FailLists(plan: Plan, s: State, e: Effect, i: Instr, rest: seq<Instr>)
    requires s.proc.Up? && s.proc.job.Some? && s.proc.job.value.code == [i] + rest && ListsKept(plan, s)
    requires Listed(plan, e.w, e.log) && Recorded(plan, e.tx) && e.control.Fail?
    ensures ListsKept(plan, Continue(plan, s, e))
  {
    hide Recorded, Records, Harmless, RollbackCode, Listed;
    var job := s.proc.job.value;
    assert job.code[1..] == rest;
    if job.mode == Joined {
      assert AllHarmless(rest);
      HarmlessRecords(plan, rest, e.tx);
    } else if job.mode == Applying {
      RollbackLists(plan, e.tx, [], e.runningAs);
      assert [] + RollbackCode(plan, e.tx) == RollbackCode(plan, e.tx);
    } else if job.mode == Finalizing {
      ListsHarmless(UniqueSorted(e.tx.stopped + plan.planned));
      RollbackLists(plan, e.tx, Unexpected(UniqueSorted(e.tx.stopped + plan.planned)), e.runningAs);
    } else {
      AbandonRecords(plan, e.tx);
    }
    hide AllHarmless, UniqueSorted, Unexpected;
  }

  lemma AbandonRecords(plan: Plan, tx: Tx)
    ensures Records(plan, [Abandon], tx)
  {
  }

  lemma ExecLists(plan: Plan, s: State, o: Outcome)
    requires ListsKept(plan, s) && s.proc.Up? && s.proc.job.Some? && s.proc.job.value.code != []
    ensures ListsKept(plan, Run1(plan, s, o))
  {
    var job := s.proc.job.value;
    var i, rest := job.code[0], job.code[1..];
    assert job.code == [i] + rest;
    RecordsHead(plan, i, rest, job.tx);
    PerformLists(plan, i, rest, s.w, job.tx, s.log, job.runningAs, o);
    Leaves(plan, i, s.w, job.tx, s.log, job.runningAs, o);
    var e := Perform(plan, i, s.w, job.tx, s.log, job.runningAs, o);
    hide Perform, Records, Recorded, Harmless, Listed, AllHarmless, Continue;
    if e.control.Next? {
      RestLists(plan, i, rest, job.tx, e, job.runningAs);
    }
    ContinueLists(plan, s, e, i, rest);
  }

  lemma Added(tx: Tx, n: string)
    ensures forall m :: m in Updated(AddStopped(n), tx).stopped <==> m in tx.stopped || m == n
    ensures forall m :: m in Updated(AddRestarted(n), tx).restarted <==> m in tx.restarted || m == n
    ensures Updated(AddStopped(n), tx).phase == Updated(AddRestarted(n), tx).phase == tx.phase
    ensures Updated(AddRestarted(n), tx).stopped == tx.stopped
  {
  }

  function Names(names: seq<string>): set<string> {
    set n | n in names
  }

  /** Whatever journal has this phase and lists these services, the code goes on well from it. */
  ghost predicate RecordsFrom(plan: Plan, code: seq<Instr>, p: Phase, stopped: set<string>, restarted: set<string>) {
    forall t: Tx :: t.phase == p && stopped <= Names(t.stopped) && restarted <= Names(t.restarted) ==>
      Records(plan, code, t)
  }

  lemma RecordsHere(plan: Plan, code: seq<Instr>, tx: Tx)
    requires RecordsFrom(plan, code, tx.phase, Names(tx.stopped), Names(tx.restarted)) ||
             RecordsFrom(plan, code, tx.phase, Names(tx.stopped), {})
    ensures Records(plan, code, tx)
  {
    hide Records;
  }

  lemma AddedNames(tx: Tx, names: seq<string>)
    requires names != []
    ensures var tx' := Updated(AddStopped(names[0]), tx);
            Names(names[1..]) + Names(tx'.stopped) == Names(names) + Names(tx.stopped)
    ensures var tx' := Updated(AddRestarted(names[0]), tx);
            Names(names[1..]) + Names(tx'.restarted) == Names(names) + Names(tx.restarted)
  {
    Added(tx, names[0]);
    assert Names(names) == {names[0]} + Names(names[1..]);
  }

  lemma {:induction false} StopsRecord(plan: Plan, names: seq<string>, rest: seq<Instr>, tx: Tx)
    requires tx.phase == Prepared && RecordsFrom(plan, rest, Prepared, Names(names) + Names(tx.stopped), {})
    ensures Records(plan, StopAndRecord(names) + rest, tx)
    decreases names
  {
    hide Records, RecordsFrom;
    if names == [] {
      assert StopAndRecord(names) + rest == rest;
      assert Names([]) + Names(tx.stopped) == Names(tx.stopped);
      RecordsHere(plan, rest, tx);
    } else {
      var tx', tail := Updated(AddStopped(names[0]), tx), StopAndRecord(names[1..]) + rest;
      Added(tx, names[0]);
      AddedNames(tx, names);
      assert Recorded(plan, tx');
      assert StopAndRecord(names) + rest == [Stop(names[0]), Persist(AddStopped(names[0]))] + tail;
      hide Recorded, Updated, StopAndRecord, Names;
      StopsRecord(plan, names[1..], rest, tx');
      TwoAhead(plan, Stop(names[0]), AddStopped(names[0]), tail, tx);
    }
  }

  lemma TwoAhead(plan: Plan, i: Instr, u: Update, rest: seq<Instr>, tx: Tx)
    requires i.Stop? || i.Start?
    requires Recorded(plan, Updated(u, tx)) && Records(plan, rest, Updated(u, tx))
    ensures Records(plan, [i, Persist(u)] + rest, tx)
  {
    var code := [i, Persist(u)] + rest;
    assert code[1..] == [Persist(u)] + rest && code[1..][1..] == rest;
  }

  lemma {:induction false} StartsRecord(plan: Plan, names: seq<string>, rest: seq<Instr>, tx: Tx)
    requires tx.phase == TargetReady && Recorded(plan, tx)
    requires RecordsFrom(plan, rest, TargetReady, Names(tx.stopped), Names(names) + Names(tx.restarted))
    ensures Records(plan, StartAndRecord(names) + rest, tx)
    decreases names
  {
    hide Records, RecordsFrom;
    if names == [] {
      assert StartAndRecord(names) + rest == rest;
      assert Names([]) + Names(tx.restarted) == Names(tx.restarted);
      RecordsHere(plan, rest, tx);
    } else {
      var tx', tail := Updated(AddRestarted(names[0]), tx), StartAndRecord(names[1..]) + rest;
      Added(tx, names[0]);
      AddedNames(tx, names);
      assert Recorded(plan, tx');
      assert StartAndRecord(names) + rest == [Start(names[0]), Persist(AddRestarted(names[0]))] + tail;
      hide Recorded, Updated, StartAndRecord, Names;
      StartsRecord(plan, names[1..], rest, tx');
      TwoAhead(plan, Start(names[0]), AddRestarted(names[0]), tail, tx);
    }
  }

  function Ending(plan: Plan): seq<Instr> {
    (if plan.needsRestart
     then [Persist(AdvanceTo(CatchSwitching, Target)), InstallCatch(Target), RestartTarget]
     else [])
    + [Persist(Advance(CatchSwitched)), CheckApply]
  }

  lemma EndingRecords(plan: Plan, tx: Tx)
    requires tx.phase == TargetReady && Recorded(plan, tx) && forall n :: n in plan.previously ==> n in tx.restarted
    ensures Records(plan, Ending(plan), tx)
  {
    var finish := [Persist(Advance(CatchSwitched)), CheckApply];
    if plan.needsRestart {
      var tx' := Updated(AdvanceTo(CatchSwitching, Target), tx);
      assert Recorded(plan, tx');
      FinishRecords(plan, tx');
      hide Records, Recorded, Updated;
      RecordsCons(plan, RestartTarget, finish, tx', [RestartTarget] + finish);
      RecordsCons(plan, InstallCatch(Target), [RestartTarget] + finish, tx',
                  [InstallCatch(Target)] + ([RestartTarget] + finish));
      RecordsCons(plan, Persist(AdvanceTo(CatchSwitching, Target)),
                  [InstallCatch(Target)] + ([RestartTarget] + finish), tx, Ending(plan));
    } else {
      FinishRecords(plan, tx);
      assert Ending(plan) == finish;
    }
  }

  lemma FinishRecords(plan: Plan, tx: Tx)
    requires PastStops(tx.phase) && Recorded(plan, tx) && forall n :: n in plan.previously ==> n in tx.restarted
    ensures Records(plan, [Persist(Advance(CatchSwitched)), CheckApply], tx)
  {
    assert [Persist(Advance(CatchSwitched)), CheckApply][1..] == [CheckApply] && [CheckApply][1..] == [];
  }

  function Middle(plan: Plan): seq<Instr> {
    [Persist(Advance(ServicesStopped)), Mutate, CopyData, Mutate, Persist(Advance(TargetReady))]
  }

  lemma ApplyParts(plan: Plan)
    ensures ApplyCode(plan) ==
            [Create, Enter, CreateTarget, Persist(Keep)] +
            (StopAndRecord(plan.previously) + (Middle(plan) + (StartAndRecord(plan.previously) + Ending(plan))))
  {
    Regroup([Create, Enter, CreateTarget, Persist(Keep)], StopAndRecord(plan.previously), Middle(plan),
            StartAndRecord(plan.previously),
            if plan.needsRestart
            then [Persist(AdvanceTo(CatchSwitching, Target)), InstallCatch(Target), RestartTarget]
            else [],
            [Persist(Advance(CatchSwitched)), CheckApply]);
  }

  lemma Regroup<T>(a: seq<T>, b: seq<T>, c: seq<T>, d: seq<T>, e: seq<T>, f: seq<T>)
    ensures a + b + c + d + e + f == a + (b + (c + (d + (e + f))))
  {
  }

  lemma MiddleRecords(plan: Plan, tx: Tx)
    requires tx.phase == Prepared && forall n :: n in plan.previously ==> n in tx.stopped
    ensures Records(plan, Middle(plan) + (StartAndRecord(plan.previously) + Ending(plan)), tx)
  {
    var rest := StartAndRecord(plan.previously) + Ending(plan);
    var tx1 := Updated(Advance(ServicesStopped), tx);
    var tx2 := Updated(Advance(TargetReady), tx1);
    StartsReady(plan, tx2);
    hide StartAndRecord, Ending;
    hide Records, Recorded, Updated;
    var c4 := [Persist(Advance(TargetReady))] + rest;
    var c3, c2, c1 := [Mutate] + c4, [CopyData] + ([Mutate] + c4), [Mutate] + ([CopyData] + ([Mutate] + c4));
    RecordsCons(plan, Persist(Advance(TargetReady)), rest, tx1, c4);
    RecordsCons(plan, Mutate, c4, tx1, c3);
    RecordsCons(plan, CopyData, c3, tx1, c2);
    RecordsCons(plan, Mutate, c2, tx1, c1);
    Chained5(Persist(Advance(ServicesStopped)), Mutate, CopyData, Mutate, Persist(Advance(TargetReady)), rest);
    RecordsCons(plan, Persist(Advance(ServicesStopped)), c1, tx, Middle(plan) + rest);
  }

  lemma Chained5<T>(a: T, b: T, c: T, d: T, e: T, rest: seq<T>)
    ensures [a, b, c, d, e] + rest == [a] + ([b] + ([c] + ([d] + ([e] + rest))))
  {
  }

  lemma Chained4<T>(a: T, b: T, c: T, d: T, rest: seq<T>)
    ensures [a, b, c, d] + rest == [a] + ([b] + ([c] + ([d] + rest)))
  {
  }

  lemma StartsReady(plan: Plan, tx: Tx)
    requires tx.phase == TargetReady && Recorded(plan, tx)
    ensures Records(plan, StartAndRecord(plan.previously) + Ending(plan), tx)
  {
    var known := Names(plan.previously) + Names(tx.restarted);
    forall t: Tx | t.phase == TargetReady && Names(tx.stopped) <= Names(t.stopped) && known <= Names(t.restarted)
      ensures Records(plan, Ending(plan), t)
    {
      forall n | n in plan.previously ensures n in t.stopped && n in t.restarted {
        assert n in Names(tx.stopped) && n in known;
      }
      EndingRecords(plan, t);
    }
    hide Records, Ending, Recorded;
    assert RecordsFrom(plan, Ending(plan), TargetReady, Names(tx.stopped), known);
    StartsRecord(plan, plan.previously, Ending(plan), tx);
  }

  lemma ApplyRecords(plan: Plan)
    ensures Records(plan, ApplyCode(plan), FIRST)
  {
    var later := Middle(plan) + (StartAndRecord(plan.previously) + Ending(plan));
    StopsFirst(plan);
    ApplyParts(plan);
    var rest := StopAndRecord(plan.previously) + later;
    hide ApplyCode, StopAndRecord, Middle;
    hide Records, Recorded;
    var c3 := [Persist(Keep)] + rest;
    var c2, c1 := [CreateTarget] + c3, [Enter] + ([CreateTarget] + c3);
    assert Updated(Keep, FIRST) == FIRST && Recorded(plan, FIRST) by {
      FirstRecorded(plan);
    }
    RecordsCons(plan, Persist(Keep), rest, FIRST, c3);
    RecordsCons(plan, CreateTarget, c3, FIRST, c2);
    RecordsCons(plan, Enter, c2, FIRST, c1);
    Chained4(Create, Enter, CreateTarget, Persist(Keep), rest);
    RecordsCons(plan, Create, c1, FIRST, ApplyCode(plan));
  }

  lemma FirstRecorded(plan: Plan)
    ensures Recorded(plan, FIRST)
  {
  }

  lemma StopsFirst(plan: Plan)
    ensures var later := Middle(plan) + (StartAndRecord(plan.previously) + Ending(plan));
            Records(plan, StopAndRecord(plan.previously) + later, FIRST)
  {
    var later := Middle(plan) + (StartAndRecord(plan.previously) + Ending(plan));
    var known := Names(plan.previously) + Names(FIRST.stopped);
    forall t: Tx | t.phase == Prepared && known <= Names(t.stopped) && {} <= Names(t.restarted)
      ensures Records(plan, later, t)
    {
      forall n | n in plan.previously ensures n in t.stopped {
        assert n in known;
      }
      MiddleRecords(plan, t);
    }
    hide Records, Middle, StartAndRecord, Ending;
    assert RecordsFrom(plan, later, Prepared, known, {});
    StopsRecord(plan, plan.previously, later, FIRST);
  }

  lemma FinalRecords(plan: Plan, tx: Tx)
    requires Recorded(plan, tx) && tx.phase in [CatchSwitched, Validated, CleanupPending]
    ensures tx.phase == CatchSwitched ==>
              Records(plan, [CheckFinal, Persist(Advance(FinalPhase(plan)))], tx)
    ensures Records(plan, [CheckFinal], tx)
  {
    var code := [CheckFinal, Persist(Advance(FinalPhase(plan)))];
    assert code[1..] == [Persist(Advance(FinalPhase(plan)))] && code[1..][1..] == [] && [CheckFinal][1..] == [];
  }

  lemma CleanRecords(plan: Plan, tx: Tx)
    requires Recorded(plan, tx)
    ensures tx.phase == CleanupPending ==>
              && Records(plan, [CheckFinal] + [] + [RecordComplete], tx)
              && Records(plan, [CheckFinal] + [RemoveTree] + [RecordComplete], tx)
    ensures tx.phase == Validated ==>
              Records(plan, [CheckFinal, Persist(Advance(CleanupPending)), RemoveTree, RecordComplete], tx)
  {
    var last := [RecordComplete];
    assert last[1..] == [];
    var a, b := [CheckFinal] + [] + last, [CheckFinal] + [RemoveTree] + last;
    assert a[1..] == last && b[1..] == [RemoveTree] + last && ([RemoveTree] + last)[1..] == last;
    if tx.phase == Validated {
      var tx' := Updated(Advance(CleanupPending), tx);
      var c2, c1 := [RemoveTree] + last, [Persist(Advance(CleanupPending))] + ([RemoveTree] + last);
      RecordsCons(plan, RecordComplete, [], tx', last);
      RecordsCons(plan, RemoveTree, last, tx', c2);
      RecordsCons(plan, Persist(Advance(CleanupPending)), c2, tx, c1);
      RecordsCons(plan, CheckFinal, c1, tx,
                  [CheckFinal, Persist(Advance(CleanupPending)), RemoveTree, RecordComplete]);
    }
  }

  lemma ServedLists(plan: Plan, s: State, call: Call, job: Job)
    requires ListsKept(plan, s) && s.proc.Up? && JobRecords(plan, job)
    ensures ListsKept(plan, Serve(s, call, job))
  {
    hide Listed, JobRecords;
  }

  lemma PlainJobs(plan: Plan, code: seq<Instr>, tx: Tx, mode: Mode, runningAs: Side)
    requires Recorded(plan, tx) && Records(plan, code, tx) && mode != Joined
    ensures JobRecords(plan, Job(code, tx, mode, false, runningAs))
  {
  }

  lemma ApplyLists(plan: Plan, s: State)
    requires ListsKept(plan, s) && s.proc.Up? && s.proc.job.None?
    ensures ListsKept(plan, Started(plan, s, Apply))
  {
    ApplyRecords(plan);
    FirstRecorded(plan);
    hide Records, Recorded, Listed, ApplyCode, ListsKept;
    PlainJobs(plan, ApplyCode(plan), FIRST, Creating, s.proc.config);
    ServedLists(plan, s, Apply, Job(ApplyCode(plan), FIRST, Creating, false, s.proc.config));
  }

  lemma RecoverLists(plan: Plan, s: State)
    requires ListsKept(plan, s) && s.proc.Up? && s.proc.job.None?
    ensures ListsKept(plan, Started(plan, s, Recover))
  {
    if s.w.src.Some? {
      var tx := s.w.src.value;
      RollbackLists(plan, tx, [], s.proc.config);
      assert [] + RollbackCode(plan, tx) == RollbackCode(plan, tx);
      hide Records, Recorded, RollbackCode, ListsKept, JobRecords;
      ServedLists(plan, s, Recover, RollbackJob(plan, tx, s.proc.config));
    }
  }

  lemma FinalizeLists(plan: Plan, s: State)
    requires ListsKept(plan, s) && s.proc.Up? && s.proc.job.None?
    ensures ListsKept(plan, Started(plan, s, Finalize))
  {
    if s.w.src.Some? && s.w.src.value.phase in [CatchSwitched, Validated, CleanupPending] {
      var tx := s.w.src.value;
      FinalRecords(plan, tx);
      hide Records, Recorded, FinalPhase, JobRecords, Listed;
      PlainJobs(plan, [CheckFinal], tx, Finalizing, s.proc.config);
      if tx.phase == CatchSwitched {
        PlainJobs(plan, [CheckFinal, Persist(Advance(FinalPhase(plan)))], tx, Finalizing, s.proc.config);
      }
    }
  }

  lemma CleanupLists(plan: Plan, s: State)
    requires ListsKept(plan, s) && s.proc.Up? && s.proc.job.None?
    ensures ListsKept(plan, Started(plan, s, Cleanup))
  {
    if s.w.tgt.Some? {
      var tx := s.w.tgt.value;
      CleanRecords(plan, tx);
      hide Records, Recorded, JobRecords, Listed;
      var one, two := [CheckFinal] + [] + [RecordComplete], [CheckFinal] + [RemoveTree] + [RecordComplete];
      var three := [CheckFinal, Persist(Advance(CleanupPending)), RemoveTree, RecordComplete];
      if tx.phase == CleanupPending {
        PlainJobs(plan, one, tx, Cleaning, s.proc.config);
        PlainJobs(plan, two, tx, Cleaning, s.proc.config);
      } else if tx.phase == Validated {
        PlainJobs(plan, three, tx, Cleaning, s.proc.config);
      }
    }
  }

  lemma StartLists(plan: Plan, s: State, call: Call)
    requires ListsKept(plan, s) && s.proc.Up? && s.proc.job.None?
    ensures ListsKept(plan, Started(plan, s, call))
  {
    hide Started, ListsKept;
    match call {
      case Apply => ApplyLists(plan, s);
      case Recover => RecoverLists(plan, s);
      case Finalize => FinalizeLists(plan, s);
      case Cleanup => CleanupLists(plan, s);
    }
  }

  lemma BootLists(plan: Plan, s: State)
    requires ListsKept(plan, s)
    ensures ListsKept(plan, BootUp(plan, s))
  {
    if s.w.src.Some? {
      assert [Persist(AdvanceTo(RolledBack, Source))][1..] == [];
    }
  }

  lemma StepLists(plan: Plan, s: State, a: Action)
    requires ListsKept(plan, s)
    ensures ListsKept(plan, Step(plan, s, a))
  {
    if a.Exec? && s.proc.Up? && s.proc.job.Some? && s.proc.job.value.code != [] {
      ExecLists(plan, s, a.o);
    } else if a.Boot? {
      BootLists(plan, s);
    } else if a.Invoke? && s.proc.Up? && s.proc.job.None? {
      StartLists(plan, s, a.call);
    }
    hide Run1, BootUp, Started, Records, AllHarmless, Recorded;
  }

  /** In every run, every version of either journal past the stops lists all services that were
      running as stopped, and past the starts as restarted: a rollback knows what to undo. */
  lemma {:induction false} VersionsListServices(plan: Plan, s: State, acts: seq<Action>)
    requires ListsKept(plan, s)
    ensures ListsKept(plan, Run(plan, s, acts))
    decreases |acts|
  {
    if acts != [] {
      StepLists(plan, s, acts[0]);
      VersionsListServices(plan, Step(plan, s, acts[0]), acts[1..]);
    }
  }
}
