/** A rollback whose steps succeed converges, from every state a migration can be left in:
    it ends rolled back over a restored host, exactly when no service of the plan that should
    not be running is running on entry. */
module Recovery {
  import opened Artifacts
  import opened Ordering
  import opened Transaction
  import opened Safety
  import opened Guarantees

  /** The instruction succeeds, at once. A restart of Catch may still be scheduled only. */
  predicate Succeeds(o: Outcome) {
    o.ok && !o.again
  }

  predicate AllSucceed(os: seq<Outcome>) {
    forall o :: o in os ==> Succeeds(o)
  }

  function Execs(os: seq<Outcome>): seq<Action> {
    if os == [] then [] else [Exec(os[0])] + Execs(os[1..])
  }

  // ----- the running set a program leaves -----

  function RunningAfter(plan: Plan, running: set<string>, i: Instr): set<string> {
    match i
    case Stop(n) => running - {n}
    case Start(n) => running + {n}
    case StopUnexpected(n) => if n in plan.previously then running else running - {n}
    case _ => running
  }

  function Ahead(plan: Plan, running: set<string>, code: seq<Instr>): set<string>
    decreases |code|
  {
    if code == [] then running else Ahead(plan, RunningAfter(plan, running, code[0]), code[1..])
  }

  lemma {:induction false} AheadConcat(plan: Plan, running: set<string>, a: seq<Instr>, b: seq<Instr>)
    ensures Ahead(plan, running, a + b) == Ahead(plan, Ahead(plan, running, a), b)
    decreases |a|
  {
    if a == [] {
      assert a + b == b;
    } else {
      assert (a + b)[1..] == a[1..] + b;
      AheadConcat(plan, RunningAfter(plan, running, a[0]), a[1..], b);
    }
  }

  lemma {:induction false} AheadIdle(plan: Plan, running: set<string>, code: seq<Instr>)
    requires forall i :: i in code ==> !i.Stop? && !i.Start? && !i.StopUnexpected?
    ensures Ahead(plan, running, code) == running
  {
    if code != [] {
      assert code[0] in code && forall i :: i in code[1..] ==> i in code;
      AheadIdle(plan, running, code[1..]);
    }
  }

  function Names(names: seq<string>): set<string> {
    set n | n in names
  }

  lemma {:induction false} AheadStops(plan: Plan, running: set<string>, names: seq<string>)
    ensures Ahead(plan, running, Stops(names)) == running - Names(names)
    decreases |names|
  {
    if names != [] {
      assert Stops(names)[0] == Stop(names[0]) && Stops(names)[1..] == Stops(names[1..]);
      AheadStops(plan, running - {names[0]}, names[1..]);
      assert Names(names) == {names[0]} + Names(names[1..]);
    }
  }

  lemma {:induction false} AheadStarts(plan: Plan, running: set<string>, names: seq<string>)
    ensures Ahead(plan, running, Starts(names)) == running + Names(names)
    decreases |names|
  {
    if names != [] {
      assert Starts(names)[0] == Start(names[0]) && Starts(names)[1..] == Starts(names[1..]);
      AheadStarts(plan, running + {names[0]}, names[1..]);
      assert Names(names) == {names[0]} + Names(names[1..]);
    }
  }

  lemma {:induction false} AheadUnexpected(plan: Plan, running: set<string>, names: seq<string>)
    ensures Ahead(plan, running, Unexpected(names)) == running - (Names(names) - Names(plan.previously))
    decreases |names|
  {
    if names != [] {
      assert Unexpected(names)[0] == StopUnexpected(names[0]) && Unexpected(names)[1..] == Unexpected(names[1..]);
      AheadUnexpected(plan, RunningAfter(plan, running, StopUnexpected(names[0])), names[1..]);
      assert Names(names) == {names[0]} + Names(names[1..]);
    }
  }

  lemma AheadThen(plan: Plan, running: set<string>, a: seq<Instr>, between: set<string>, b: seq<Instr>,
                  after: set<string>)
    requires Ahead(plan, running, a) == between && Ahead(plan, between, b) == after
    ensures Ahead(plan, running, a + b) == after
  {
    AheadConcat(plan, running, a, b);
  }

  lemma RollbackPieces(plan: Plan, tx: Tx)
    ensures RollbackCode(plan, tx) ==
            [Persist(Cause), CancelRestarts]
            + Stops(UniqueSorted(tx.restarted + plan.previously))
            + (RestoreUnits(plan.unitOrder) + [RestoreDatabase, Reload])
            + Starts(UniqueSorted(plan.previously))
            + CHECKED
  {
  }

  lemma AheadRollback(plan: Plan, running: set<string>, tx: Tx)
    ensures Ahead(plan, running, RollbackCode(plan, tx)) ==
            running - Names(UniqueSorted(tx.restarted + plan.previously)) + Names(UniqueSorted(plan.previously))
  {
    RollbackPieces(plan, tx);
    ListKinds(plan.unitOrder);
    AheadPieces(plan, running, UniqueSorted(tx.restarted + plan.previously),
                RestoreUnits(plan.unitOrder) + [RestoreDatabase, Reload], UniqueSorted(plan.previously));
  }

  lemma AheadPieces(plan: Plan, running: set<string>, stops: seq<string>, middle: seq<Instr>, starts: seq<string>)
    requires forall i :: i in middle ==> i.RestoreUnit? || i == RestoreDatabase || i == Reload
    ensures Ahead(plan, running, [Persist(Cause), CancelRestarts] + Stops(stops) + middle + Starts(starts) + CHECKED)
         == running - Names(stops) + Names(starts)
  {
    hide Ahead, Stops, Starts;
    var first := [Persist(Cause), CancelRestarts];
    var stopped := running - Names(stops);
    var started := stopped + Names(starts);
    AheadIdle(plan, running, first);
    AheadStops(plan, running, stops);
    AheadThen(plan, running, first, running, Stops(stops), stopped);
    AheadIdle(plan, stopped, middle);
    AheadThen(plan, running, first + Stops(stops), stopped, middle, stopped);
    AheadStarts(plan, stopped, starts);
    AheadThen(plan, running, first + Stops(stops) + middle, stopped, Starts(starts), started);
    AheadIdle(plan, started, CHECKED);
    AheadThen(plan, running, first + Stops(stops) + middle + Starts(starts), started, CHECKED, started);
  }

  /** No service of the plan is running that was not running before the migration. */
  predicate Clear(plan: Plan, running: set<string>) {
    forall n :: n in plan.planned && n in running ==> n in plan.previously
  }

  lemma RollbackMatchesIffClear(plan: Plan, running: set<string>, tx: Tx)
    requires Booked(plan, tx)
    ensures Matches(plan, Ahead(plan, running, RollbackCode(plan, tx)), Tracked(plan, FIRST)) <==> Clear(plan, running)
  {
    AheadRollback(plan, running, tx);
    var after := Ahead(plan, running, RollbackCode(plan, tx));
    assert forall n :: n in Names(UniqueSorted(plan.previously)) <==> n in plan.previously;
    assert forall n :: n in Names(UniqueSorted(tx.restarted + plan.previously)) <==> n in plan.previously;
    assert forall n :: n in after <==> n in running || n in plan.previously;
  }

  lemma FinalRollbackMatches(plan: Plan, running: set<string>, tx: Tx)
    requires Booked(plan, tx)
    ensures Matches(plan, Ahead(plan, running, FinalRollbackJob(plan, tx, Source).code), Tracked(plan, FIRST))
  {
    var names := UniqueSorted(tx.stopped + plan.planned);
    AheadUnexpected(plan, running, names);
    AheadConcat(plan, running, Unexpected(names), RollbackCode(plan, tx));
    RollbackMatchesIffClear(plan, Ahead(plan, running, Unexpected(names)), tx);
    assert forall n :: n in plan.planned ==> n in Names(names);
  }

  // ----- where a program lands, and how long it takes -----

  /** Executing all of code from this position ends rolled back under source authority. */
  predicate Lands(code: seq<Instr>, p: Phase, a: Side) {
    if code == [] then p == RolledBack && a == Source
    else
      match code[0]
      case Persist(u) =>
        var next := Updated(u, Tx(p, a, [], [], false));
        Lands(code[1..], next.phase, next.authority)
      case RestoreAuthority =>
        Lands(code[1..], p, Source) && Lands(code[1..], SourceRestartPending, Source)
      case RestartSource => p == SourceRestartPending && Lands(code[1..], p, a)
      case Abandon => false
      case _ => Lands(code[1..], p, a)
  }

  function Cost(i: Instr): nat {
    if i.Persist? then 2 else if i.RestoreAuthority? then 8 else 1
  }

  function Work(code: seq<Instr>): nat {
    if code == [] then 0 else Cost(code[0]) + Work(code[1..])
  }

  lemma {:induction false} WorkConcat(a: seq<Instr>, b: seq<Instr>)
    ensures Work(a + b) == Work(a) + Work(b)
    decreases |a|
  {
    if a == [] {
      assert a + b == b;
    } else {
      assert (a + b)[1..] == a[1..] + b;
      WorkConcat(a[1..], b);
    }
  }

  lemma {:induction false} LandsAfter(a: seq<Instr>, b: seq<Instr>, p: Phase, x: Side)
    requires forall i :: i in a ==> BodyInstr(i) || i == CheckRunning || i == Settle
    requires Lands(b, p, x)
    ensures Lands(a + b, p, x)
    decreases |a|
  {
    if a == [] {
      assert a + b == b;
    } else {
      assert a[0] in a && forall i :: i in a[1..] ==> i in a;
      assert (a + b)[1..] == a[1..] + b;
      LandsAfter(a[1..], b, p, x);
    }
  }

  lemma TailLands(p: Phase, x: Side)
    ensures Lands(ROLLBACK_TAIL, p, x)
  {
    var last := [Persist(Advance(RolledBack))];
    assert ROLLBACK_TAIL[1..] == last && last[1..] == [];
  }

  lemma RollbackLands(plan: Plan, tx: Tx, before: seq<Instr>)
    requires forall i :: i in before ==> i.StopUnexpected?
    ensures Lands(before + RollbackCode(plan, tx), tx.phase, tx.authority)
  {
    RollbackSplit(plan, tx);
    TailLands(tx.phase, tx.authority);
    var a := before + Collected(plan, tx) + [CheckRunning, Settle];
    LandsAfter(a, ROLLBACK_TAIL, tx.phase, tx.authority);
    assert before + RollbackCode(plan, tx) == a + ROLLBACK_TAIL;
  }

  lemma LandsPersist(u: Update, rest: seq<Instr>, p: Phase, x: Side)
    requires var next := Updated(u, Tx(p, x, [], [], false)); Lands(rest, next.phase, next.authority)
    ensures Lands([Persist(u)] + rest, p, x)
  {
    assert ([Persist(u)] + rest)[1..] == rest;
  }

  lemma Costs(i: Instr, rest: seq<Instr>)
    ensures Work([i] + rest) == Cost(i) + Work(rest)
  {
    assert ([i] + rest)[1..] == rest;
  }

  lemma AuthorityLands(plan: Plan, rest: seq<Instr>, p: Phase, runningAs: Side)
    requires Lands(rest, p, Source) && Lands(rest, SourceRestartPending, Source)
    ensures Lands(AuthorityCode(plan, runningAs) + rest, p, Target)
    ensures Work(AuthorityCode(plan, runningAs) + rest) < 8 + Work(rest)
  {
    hide Lands, Work;
    var last := [Persist(Authority(Source))] + rest;
    Costs(Persist(Authority(Source)), rest);
    if RunsAs(plan, runningAs, Source) {
      LandsPersist(Authority(Source), rest, p, Target);
      LandsOther(InstallCatch(Source), last, p, Target);
      Costs(InstallCatch(Source), last);
      Chained2(InstallCatch(Source), Persist(Authority(Source)), rest);
    } else {
      LandsPersist(Authority(Source), rest, SourceRestartPending, Target);
      var r := [RestartSource] + last;
      LandsOther(RestartSource, last, SourceRestartPending, Target);
      Costs(RestartSource, last);
      var t := [Persist(AdvanceTo(SourceRestartPending, Target))] + r;
      LandsPersist(AdvanceTo(SourceRestartPending, Target), r, p, Target);
      Costs(Persist(AdvanceTo(SourceRestartPending, Target)), r);
      LandsOther(InstallCatch(Source), t, p, Target);
      Costs(InstallCatch(Source), t);
      Chained4(InstallCatch(Source), Persist(AdvanceTo(SourceRestartPending, Target)), RestartSource,
               Persist(Authority(Source)), rest);
    }
  }

  lemma LandsOther(i: Instr, rest: seq<Instr>, p: Phase, x: Side)
    requires !i.Persist? && !i.RestoreAuthority? && !i.Abandon?
    ensures Lands([i] + rest, p, x) <==> (i.RestartSource? ==> p == SourceRestartPending) && Lands(rest, p, x)
  {
    assert ([i] + rest)[1..] == rest;
  }

  // ----- on course -----

  predicate OnCourse(plan: Plan, s: State) {
    && Inv(plan, s) && s.proc.Up? && s.proc.job.Some?
    && var job := s.proc.job.value;
    && Lands(job.code, job.tx.phase, job.tx.authority)
    && (|| job.mode == Plain
        || (job.mode == Joined && !job.failed &&
            Matches(plan, Ahead(plan, s.w.running, job.code), Tracked(plan, FIRST))))
  }

  /** The rollback is over: rolled back, or handed over to the source Catch by a restart.
      Only a recovery lifts the block; a failed finalization leaves that to the next start. */
  predicate Landed(plan: Plan, s: State) {
    && Inv(plan, s) && s.proc.Up? && s.proc.job.None? && s.w.src.Some?
    && (|| (s.w.src.value.phase == RolledBack && s.w.src.value.authority == Source &&
            (s.proc.duty == Serving(Recover) ==> !s.proc.blocked))
        || s.w.src.value.phase == SourceRestartPending)
  }

  lemma PlainGo(plan: Plan, i: Instr, rest: seq<Instr>, w: World, tx: Tx, log: seq<Tx>, runningAs: Side, o: Outcome)
    requires PlainInstr(i) && Succeeds(o) && Lands([i] + rest, tx.phase, tx.authority)
    ensures var e := Perform(plan, i, w, tx, log, runningAs, o);
            if i == RestartSource && o.scheduled then e.control.Fail? && e.w == w && tx.phase == SourceRestartPending
            else e.control.Next? && Lands(e.control.extra + rest, e.tx.phase, e.tx.authority) &&
                 Work(e.control.extra + rest) < Work([i] + rest)
  {
    assert ([i] + rest)[1..] == rest && [] + rest == rest;
    if i == RestoreAuthority {
      if tx.authority == Target {
        AuthorityLands(plan, rest, tx.phase, runningAs);
      }
    } else if i.Persist? {
      assert ([Mirror] + rest)[1..] == rest;
    }
  }

  /** What a succeeding instruction of the joined part does. */
  lemma JoinedMoves(plan: Plan, i: Instr, w: World, tx: Tx, log: seq<Tx>, runningAs: Side, o: Outcome)
    requires BodyInstr(i) || i == CheckRunning
    requires Succeeds(o) && Booked(plan, tx)
    requires w.src.Some? && w.src.value.phase != SourceRestartPending
    requires i == CheckRunning ==> Matches(plan, w.running, Tracked(plan, FIRST))
    ensures var e := Perform(plan, i, w, tx, log, runningAs, o);
            && e.control == Next(if i.Persist? then [Mirror] else [])
            && SamePos(e.tx, tx) && e.w.running == RunningAfter(plan, w.running, i)
  {
    if i == Persist(Cause) || i == Mirror {
    } else if i == CheckRunning {
      LookUpIdle(plan, w, log, o);
      BookedTracks(plan, tx);
    } else {
      hide Matches, Booked, Tracked;
      ErrandMoves(plan, i, w, tx, log, runningAs, o);
    }
  }

  lemma ErrandMoves(plan: Plan, i: Instr, w: World, tx: Tx, log: seq<Tx>, runningAs: Side, o: Outcome)
    requires BodyInstr(i) && i != Persist(Cause) && i != Mirror && Succeeds(o)
    requires w.src.Some? && w.src.value.phase != SourceRestartPending
    ensures var e := Perform(plan, i, w, tx, log, runningAs, o);
            e.control == Next([]) && e.tx == tx && e.w.running == RunningAfter(plan, w.running, i)
  {
    LookUpIdle(plan, w, log, o);
    hide LookUp, Matches, Updated;
    if i.Stop? {
    } else if i.Start? {
    } else if i.StopUnexpected? {
    } else {
      assert i.CancelRestarts? || i.RestoreUnit? || i.RestoreDatabase? || i.Reload?;
    }
  }

  lemma JoinedCode(plan: Plan, i: Instr, rest: seq<Instr>, running: set<string>, p: Phase, x: Side)
    requires BodyInstr(i) || i == CheckRunning
    requires Lands([i] + rest, p, x)
    ensures var extra := if i.Persist? then [Mirror] else [];
            && Lands(extra + rest, p, x)
            && Work(extra + rest) < Work([i] + rest)
            && Ahead(plan, RunningAfter(plan, running, i), extra + rest) == Ahead(plan, running, [i] + rest)
  {
    Costs(i, rest);
    assert ([i] + rest)[1..] == rest && [] + rest == rest;
    if i.Persist? {
      LandsOther(Mirror, rest, p, x);
      Costs(Mirror, rest);
      assert ([Mirror] + rest)[1..] == rest;
    }
  }

  /** The facts about a job on course that the joined part needs. */
  predicate JoinedOnCourse(plan: Plan, s: State) {
    && s.proc.Up? && s.proc.job.Some?
    && var job := s.proc.job.value;
    && job.mode == Joined && !job.failed && job.code != [] && job.code[0] != Settle
    && (BodyInstr(job.code[0]) || job.code[0] == CheckRunning)
    && Booked(plan, job.tx) && s.w.src.Some? && s.w.src.value.phase != SourceRestartPending
    && Lands(job.code, job.tx.phase, job.tx.authority)
    && Matches(plan, Ahead(plan, s.w.running, job.code), Tracked(plan, FIRST))
  }

  lemma JoinedFactsOf(plan: Plan, s: State)
    requires OnCourse(plan, s) && s.proc.job.value.mode == Joined && s.proc.job.value.code[0] != Settle
    ensures JoinedOnCourse(plan, s)
    ensures s.proc.job.value.code[0] == CheckRunning ==> Matches(plan, s.w.running, Tracked(plan, FIRST))
  {
    if s.proc.job.value.code[0] == CheckRunning {
      CheckFinds(plan, s);
    }
  }

  lemma JoinedCourse(plan: Plan, s: State, o: Outcome)
    requires ValidPlan(plan) && OnCourse(plan, s) && Succeeds(o)
    requires s.proc.job.value.mode == Joined && s.proc.job.value.code[0] != Settle
    ensures var t := Run1(plan, s, o);
            OnCourse(plan, t) && Work(t.proc.job.value.code) < Work(s.proc.job.value.code)
  {
    JoinedStep(plan, s, o);
    JoinedFactsOf(plan, s);
    JoinedAdvances(plan, s, o);
  }

  lemma JoinedAdvances(plan: Plan, s: State, o: Outcome)
    requires JoinedOnCourse(plan, s) && Succeeds(o)
    requires s.proc.job.value.code[0] == CheckRunning ==> Matches(plan, s.w.running, Tracked(plan, FIRST))
    requires Inv(plan, Run1(plan, s, o))
    ensures var t := Run1(plan, s, o);
            OnCourse(plan, t) && Work(t.proc.job.value.code) < Work(s.proc.job.value.code)
  {
    var job := s.proc.job.value;
    var i, rest := job.code[0], job.code[1..];
    assert job.code == [i] + rest;
    JoinedMoves(plan, i, s.w, job.tx, s.log, job.runningAs, o);
    JoinedCode(plan, i, rest, s.w.running, job.tx.phase, job.tx.authority);
    CourseContinues(plan, s, Perform(plan, i, s.w, job.tx, s.log, job.runningAs, o));
  }

  lemma CourseContinues(plan: Plan, s: State, e: Effect)
    requires JoinedOnCourse(plan, s) && Inv(plan, Continue(plan, s, e))
    requires var job := s.proc.job.value; var i, rest := job.code[0], job.code[1..];
             && e.control == Next(if i.Persist? then [Mirror] else [])
             && Lands(e.control.extra + rest, e.tx.phase, e.tx.authority)
             && Work(e.control.extra + rest) < Work(job.code)
             && Matches(plan, Ahead(plan, e.w.running, e.control.extra + rest), Tracked(plan, FIRST))
    ensures var t := Continue(plan, s, e);
            OnCourse(plan, t) && Work(t.proc.job.value.code) < Work(s.proc.job.value.code)
  {
  }

  lemma CheckFinds(plan: Plan, s: State)
    requires OnCourse(plan, s) && s.proc.job.value.mode == Joined && s.proc.job.value.code[0] == CheckRunning
    ensures Matches(plan, s.w.running, Tracked(plan, FIRST))
  {
    var code := s.proc.job.value.code;
    assert forall i :: i in code ==> !i.Stop? && !i.Start? && !i.StopUnexpected? by {
      assert code == [CheckRunning] + ([Settle] + ROLLBACK_TAIL);
    }
    AheadIdle(plan, s.w.running, code);
  }

  lemma SettleGoes(plan: Plan, s: State, o: Outcome)
    requires s.proc.Up? && s.proc.job.Some? && s.proc.job.value.code == [Settle] + ROLLBACK_TAIL
    requires !s.proc.job.value.failed
    ensures var job := s.proc.job.value;
            Run1(plan, s, o) == StartJob(s, Job(ROLLBACK_TAIL, job.tx, Plain, false, job.runningAs))
  {
    assert s.proc.job.value.code[1..] == ROLLBACK_TAIL && [] + ROLLBACK_TAIL == ROLLBACK_TAIL;
  }

  lemma SettleCourse(plan: Plan, s: State, o: Outcome)
    requires ValidPlan(plan) && OnCourse(plan, s)
    requires s.proc.job.value.mode == Joined && s.proc.job.value.code[0] == Settle
    ensures var t := Run1(plan, s, o);
            OnCourse(plan, t) && Work(t.proc.job.value.code) < Work(s.proc.job.value.code)
  {
    var job := s.proc.job.value;
    JoinedStep(plan, s, o);
    assert job.code == [Settle] + ROLLBACK_TAIL;
    SettleGoes(plan, s, o);
    hide Run1, Inv;
    Costs(Settle, ROLLBACK_TAIL);
    TailLands(job.tx.phase, job.tx.authority);
  }

  lemma PlainCourse(plan: Plan, s: State, o: Outcome)
    requires ValidPlan(plan) && OnCourse(plan, s) && Succeeds(o)
    requires s.proc.job.value.mode == Plain && s.proc.job.value.code != []
    ensures var t := Run1(plan, s, o);
            || (OnCourse(plan, t) && Work(t.proc.job.value.code) < Work(s.proc.job.value.code))
            || (Landed(plan, t) && t.w.src.value.phase == SourceRestartPending && o.scheduled)
  {
    var job := s.proc.job.value;
    var i, rest := job.code[0], job.code[1..];
    assert job.code == [i] + rest && i in job.code;
    PlainStep(plan, s, o);
    PlainGo(plan, i, rest, s.w, job.tx, s.log, job.runningAs, o);
    PlainContinues(plan, s, Perform(plan, i, s.w, job.tx, s.log, job.runningAs, o), o.scheduled);
  }

  lemma PlainContinues(plan: Plan, s: State, e: Effect, scheduled: bool)
    requires s.proc.Up? && s.proc.job.Some? && s.proc.job.value.mode == Plain && s.proc.job.value.code != []
    requires s.w.src.Some? && SamePos(s.w.src.value, s.proc.job.value.tx) && PlainInstr(s.proc.job.value.code[0])
    requires Inv(plan, Continue(plan, s, e))
    requires var job := s.proc.job.value; var rest := job.code[1..];
             if e.control.Fail? then scheduled && e.w == s.w && job.tx.phase == SourceRestartPending
             else e.control.Next? && Lands(e.control.extra + rest, e.tx.phase, e.tx.authority) &&
                  Work(e.control.extra + rest) < Work(job.code)
    ensures var t := Continue(plan, s, e);
            || (OnCourse(plan, t) && Work(t.proc.job.value.code) < Work(s.proc.job.value.code))
            || (Landed(plan, t) && t.w.src.value.phase == SourceRestartPending && scheduled)
  {
  }

  /** A succeeding step on course lands or comes nearer to the landing. */
  lemma CourseStep(plan: Plan, s: State, o: Outcome)
    requires ValidPlan(plan) && OnCourse(plan, s) && Succeeds(o)
    ensures var t := Step(plan, s, Exec(o));
            || (OnCourse(plan, t) && Work(t.proc.job.value.code) < Work(s.proc.job.value.code))
            || (Landed(plan, t) && (t.w.src.value.phase == SourceRestartPending ==> o.scheduled))
  {
    var job := s.proc.job.value;
    if job.code == [] {
      EndKeeps(plan, s, s.proc.job.value.tx, true);
    } else if job.mode == Plain {
      PlainCourse(plan, s, o);
    } else if job.code[0] == Settle {
      SettleCourse(plan, s, o);
    } else {
      JoinedCourse(plan, s, o);
    }
  }

  lemma {:induction false} IdleStays(plan: Plan, s: State, os: seq<Outcome>)
    requires s.proc.Up? && s.proc.job.None?
    ensures Run(plan, s, Execs(os)) == s
  {
    if os != [] {
      IdleStays(plan, s, os[1..]);
    }
  }

  predicate SomeScheduled(os: seq<Outcome>) {
    exists o :: o in os && o.scheduled
  }

  /** On course with this much work ahead, or landed. */
  predicate Nears(plan: Plan, s: State, work: nat, scheduled: bool) {
    || (OnCourse(plan, s) && Work(s.proc.job.value.code) <= work)
    || (Landed(plan, s) && (s.w.src.value.phase == SourceRestartPending ==> scheduled))
  }

  lemma NearsStep(plan: Plan, s: State, o: Outcome, work: nat)
    requires ValidPlan(plan) && OnCourse(plan, s) && Work(s.proc.job.value.code) <= work && Succeeds(o)
    ensures Nears(plan, Step(plan, s, Exec(o)), if work == 0 then 0 else work - 1, o.scheduled)
    ensures work == 0 ==> Landed(plan, Step(plan, s, Exec(o)))
  {
    CourseStep(plan, s, o);
  }

  lemma RunFirst(plan: Plan, s: State, os: seq<Outcome>)
    requires os != []
    ensures Run(plan, s, Execs(os)) == Run(plan, Step(plan, s, Exec(os[0])), Execs(os[1..]))
  {
    assert Execs(os)[1..] == Execs(os[1..]);
  }

  lemma LandedIdle(plan: Plan, s: State, os: seq<Outcome>)
    requires Landed(plan, s)
    ensures Run(plan, s, Execs(os)) == s
  {
    IdleStays(plan, s, os);
  }

  lemma {:induction false} CourseRuns(plan: Plan, s: State, os: seq<Outcome>, work: nat)
    requires ValidPlan(plan) && AllSucceed(os) && |os| > work
    requires OnCourse(plan, s) && Work(s.proc.job.value.code) <= work
    ensures Landed(plan, Run(plan, s, Execs(os)))
    ensures Run(plan, s, Execs(os)).w.src.value.phase == SourceRestartPending ==> SomeScheduled(os)
    decreases |os|, 0
  {
    NearsStep(plan, s, os[0], work);
    RunFirst(plan, s, os);
    assert os[0] in os && forall o :: o in os[1..] ==> o in os;
    CourseRest(plan, Step(plan, s, Exec(os[0])), os[1..], if work == 0 then 0 else work - 1, os[0].scheduled);
  }

  lemma {:induction false} CourseRest(plan: Plan, t: State, os: seq<Outcome>, work: nat, scheduled: bool)
    requires ValidPlan(plan) && AllSucceed(os) && Nears(plan, t, work, scheduled)
    requires |os| > work || Landed(plan, t)
    ensures Landed(plan, Run(plan, t, Execs(os)))
    ensures Run(plan, t, Execs(os)).w.src.value.phase == SourceRestartPending ==> scheduled || SomeScheduled(os)
    decreases |os|, 1
  {
    if OnCourse(plan, t) {
      CourseRuns(plan, t, os, work);
    } else {
      LandedIdle(plan, t, os);
    }
  }

  /** Executing a job changes neither what it was started for nor the process. */
  lemma {:induction false} DutyStays(plan: Plan, s: State, os: seq<Outcome>)
    requires s.proc.Up?
    ensures var t := Run(plan, s, Execs(os)); t.proc.Up? && t.proc.duty == s.proc.duty
    decreases |os|
  {
    if os != [] {
      RunFirst(plan, s, os);
      DutyStep(plan, s, os[0]);
      DutyStays(plan, Step(plan, s, Exec(os[0])), os[1..]);
    }
  }

  lemma DutyStep(plan: Plan, s: State, o: Outcome)
    requires s.proc.Up?
    ensures var t := Step(plan, s, Exec(o)); t.proc.Up? && t.proc.duty == s.proc.duty
  {
    hide Perform, RollbackCode;
  }

  // ----- a rollback that cannot succeed -----

  predicate Hopeless(plan: Plan, w: World, job: Job) {
    && job.mode == Joined && StopsAll(job.code)
    && (job.failed || !Matches(plan, Ahead(plan, w.running, job.code), Tracked(plan, FIRST)))
  }

  predicate StopsAll(code: seq<Instr>) {
    forall i :: i in code ==> !i.StopUnexpected?
  }

  /** The joined part has failed, or will find a service running that should not be. */
  predicate OffCourse(plan: Plan, s: State, x: Tx) {
    && Inv(plan, s) && s.proc.Up? && s.w.src.Some? && SamePos(s.w.src.value, x) && Open(x.phase)
    && (s.proc.job.Some? ==> Hopeless(plan, s.w, s.proc.job.value))
  }

  /** What a succeeding instruction of the joined part does to the running set. */
  lemma JoinedOutcome(plan: Plan, i: Instr, w: World, tx: Tx, log: seq<Tx>, runningAs: Side, o: Outcome)
    requires (BodyInstr(i) && !i.StopUnexpected?) || i == CheckRunning
    requires Booked(plan, tx) && w.src.Some? && w.src.value.phase != SourceRestartPending
    requires i == CheckRunning ==> !Matches(plan, w.running, Tracked(plan, FIRST))
    ensures var e := Perform(plan, i, w, tx, log, runningAs, o);
            e.control.Next? ==> i != CheckRunning && e.w.running == RunningAfter(plan, w.running, i)
  {
    LookUpIdle(plan, w, log, o);
    BookedTracks(plan, tx);
    hide Matches, Booked, Updated, LookUp, Tracked;
  }

  lemma AheadStep(plan: Plan, running: set<string>, i: Instr, rest: seq<Instr>)
    ensures var extra := if i.Persist? then [Mirror] else [];
            Ahead(plan, RunningAfter(plan, running, i), extra + rest) == Ahead(plan, running, [i] + rest)
  {
    assert ([i] + rest)[1..] == rest && [] + rest == rest && ([Mirror] + rest)[1..] == rest;
  }

  /** Whatever the outcome, the joined part writes no other position. */
  lemma JoinedFailed(plan: Plan, i: Instr, w: World, tx: Tx, log: seq<Tx>, runningAs: Side, o: Outcome)
    requires BodyInstr(i) || i == CheckRunning || i == Settle
    requires w.src.Some? && SamePos(w.src.value, tx) && Open(tx.phase)
    ensures var e := Perform(plan, i, w, tx, log, runningAs, o);
            && e.w.src.Some? && SamePos(e.w.src.value, tx) && !e.control.Repeat?
            && (e.control.Next? ==> e.control.extra == if i.Persist? then [Mirror] else [])
  {
    if !i.Persist? && i != Mirror {
      JoinedFrame(plan, i, w, tx, log, runningAs, o);
      hide Perform;
    }
  }

  lemma StopsRest(code: seq<Instr>)
    requires code != [] && StopsAll(code)
    ensures StopsAll(code[1..]) && StopsAll([Mirror] + code[1..]) && [] + code[1..] == code[1..]
  {
    assert forall j :: j in code[1..] ==> j in code;
  }

  lemma OffContinues(plan: Plan, s: State, e: Effect, x: Tx)
    requires s.proc.Up? && s.proc.job.Some? && Open(x.phase)
    requires s.proc.job.value.mode == Joined && s.proc.job.value.code != [] && StopsAll(s.proc.job.value.code)
    requires Inv(plan, Continue(plan, s, e))
    requires e.w.src.Some? && SamePos(e.w.src.value, x) && !e.control.Repeat?
    requires e.control.Next? ==> e.control.extra == if s.proc.job.value.code[0].Persist? then [Mirror] else []
    requires s.proc.job.value.code[0] != Enter && (s.proc.job.value.failed || s.proc.job.value.code[0] != Settle)
    requires e.control.Next? && !s.proc.job.value.failed ==>
               !Matches(plan, Ahead(plan, e.w.running, e.control.extra + s.proc.job.value.code[1..]),
                        Tracked(plan, FIRST))
    ensures OffCourse(plan, Continue(plan, s, e), x)
  {
    StopsRest(s.proc.job.value.code);
    OffShape(plan, s, e, Continue(plan, s, e));
  }

  lemma OffShape(plan: Plan, s: State, e: Effect, t: State)
    requires s.proc.Up? && s.proc.job.Some? && s.proc.job.value.mode == Joined && s.proc.job.value.code != []
    requires t == Continue(plan, s, e) && !e.control.Repeat?
    requires s.proc.job.value.code[0] != Enter && (s.proc.job.value.failed || s.proc.job.value.code[0] != Settle)
    ensures t.w == e.w && t.proc.Up? && t.proc.job.Some?
    ensures var job := t.proc.job.value;
            && job.mode == Joined && (s.proc.job.value.failed || e.control.Fail? ==> job.failed)
            && (job.code == [] || job.code == s.proc.job.value.code[1..] ||
                (e.control.Next? && job.code == e.control.extra + s.proc.job.value.code[1..]))
            && (e.control.Next? && !s.proc.job.value.failed ==>
                  job.code == e.control.extra + s.proc.job.value.code[1..])
  {
  }

  lemma OffFacts(plan: Plan, s: State, x: Tx)
    requires OffCourse(plan, s, x) && s.proc.job.Some? && s.proc.job.value.code != []
    ensures var job := s.proc.job.value;
            && Booked(plan, job.tx) && SamePos(job.tx, x) && StopsAll(job.code) && job.mode == Joined
            && (BodyInstr(job.code[0]) || job.code[0] == CheckRunning || job.code[0] == Settle)
            && (job.code[0] == CheckRunning || job.code[0] == Settle ==>
                Ahead(plan, s.w.running, job.code) == s.w.running)
            && (job.code[0] == Settle ==> job.failed)
  {
    hide WorldOk, Legal, MirrorNext, Matches, Ahead;
    var code := s.proc.job.value.code;
    if code[0] == CheckRunning || code[0] == Settle {
      assert code == [code[0]] + code[1..];
      AheadIdle(plan, s.w.running, code);
    }
  }

  lemma OffStep(plan: Plan, s: State, x: Tx, o: Outcome)
    requires ValidPlan(plan) && OffCourse(plan, s, x)
    ensures OffCourse(plan, Step(plan, s, Exec(o)), x)
  {
    if s.proc.job.Some? {
      if s.proc.job.value.code == [] {
        EndKeeps(plan, s, s.proc.job.value.tx, true);
      } else {
        JoinedStep(plan, s, o);
        OffFacts(plan, s, x);
        OffExec(plan, s, x, o);
      }
    }
  }

  lemma OffExec(plan: Plan, s: State, x: Tx, o: Outcome)
    requires s.proc.Up? && s.proc.job.Some? && s.proc.job.value.code != [] && Open(x.phase)
    requires s.w.src.Some? && SamePos(s.w.src.value, x)
    requires Hopeless(plan, s.w, s.proc.job.value)
    requires var job := s.proc.job.value;
             && Booked(plan, job.tx) && SamePos(job.tx, x)
             && (BodyInstr(job.code[0]) || job.code[0] == CheckRunning || job.code[0] == Settle)
             && (job.code[0] == CheckRunning ==> Ahead(plan, s.w.running, job.code) == s.w.running)
             && (job.code[0] == Settle ==> job.failed)
    requires Inv(plan, Run1(plan, s, o))
    ensures OffCourse(plan, Run1(plan, s, o), x)
  {
    var job := s.proc.job.value;
    var i := job.code[0];
    assert i in job.code && job.code == [i] + job.code[1..];
    var e := Perform(plan, i, s.w, job.tx, s.log, job.runningAs, o);
    JoinedFailed(plan, i, s.w, job.tx, s.log, job.runningAs, o);
    if !job.failed {
      JoinedOutcome(plan, i, s.w, job.tx, s.log, job.runningAs, o);
      AheadStep(plan, s.w.running, i, job.code[1..]);
    }
    OffContinues(plan, s, e, x);
  }

  lemma {:induction false} OffRuns(plan: Plan, s: State, x: Tx, os: seq<Outcome>)
    requires ValidPlan(plan) && OffCourse(plan, s, x)
    ensures OffCourse(plan, Run(plan, s, Execs(os)), x)
    decreases |os|
  {
    if os != [] {
      OffStep(plan, s, x, os[0]);
      RunFirst(plan, s, os);
      OffRuns(plan, Step(plan, s, Exec(os[0])), x, os[1..]);
    }
  }

  // ----- main results -----

  /** A process that blocks changes because of an unfinished migration. */
  predicate Recovering(plan: Plan, s: State) {
    && Inv(plan, s) && s.proc.Up? && s.proc.job.None? && s.proc.blocked
    && s.w.src.Some? && Open(s.w.src.value.phase)
  }

  lemma RecoverFacts(plan: Plan, s: State)
    requires Recovering(plan, s)
    ensures Booked(plan, s.w.src.value)
  {
    assert s.w.src.value in s.log;
  }

  lemma RollbackLandsAlone(plan: Plan, tx: Tx)
    ensures Lands(RollbackCode(plan, tx), tx.phase, tx.authority)
  {
    hide RollbackCode, Lands;
    RollbackLands(plan, tx, []);
    assert [] + RollbackCode(plan, tx) == RollbackCode(plan, tx);
  }

  lemma RecoverOnCourse(plan: Plan, s: State)
    requires ValidPlan(plan) && Recovering(plan, s) && Clear(plan, s.w.running)
    ensures OnCourse(plan, Started(plan, s, Recover))
  {
    hide RollbackCode;
    RecoverStarts(plan, s);
    RecoverFacts(plan, s);
    hide Inv, Lands, Ahead, Clear, Matches, Booked;
    var tx := s.w.src.value;
    RollbackLandsAlone(plan, tx);
    RollbackMatchesIffClear(plan, s.w.running, tx);
  }

  lemma RecoverOffCourse(plan: Plan, s: State)
    requires ValidPlan(plan) && Recovering(plan, s) && !Clear(plan, s.w.running)
    ensures OffCourse(plan, Started(plan, s, Recover), s.w.src.value)
  {
    RecoverStarts(plan, s);
    var tx := s.w.src.value;
    assert tx in s.log;
    RollbackMatchesIffClear(plan, s.w.running, tx);
    RollbackStops(plan, tx);
  }

  lemma PartsStop(a: seq<Instr>, b: seq<Instr>, c: seq<Instr>, d: seq<Instr>, e: seq<Instr>)
    requires StopsAll(a) && StopsAll(b) && StopsAll(c) && StopsAll(d) && StopsAll(e)
    ensures StopsAll(a + b + c + d + e)
  {
    forall i | i in a + b + c + d + e ensures !i.StopUnexpected? {
      assert i in a || i in b || i in c || i in d || i in e;
    }
  }

  lemma ListsStop(names: seq<string>)
    ensures StopsAll(Stops(names)) && StopsAll(Starts(names))
    ensures StopsAll(RestoreUnits(names) + [RestoreDatabase, Reload])
  {
    ListKinds(names);
  }

  lemma RollbackStops(plan: Plan, tx: Tx)
    ensures StopsAll(RollbackCode(plan, tx))
  {
    RollbackPieces(plan, tx);
    hide RollbackCode, Stops, Starts, RestoreUnits;
    ListsStop(UniqueSorted(tx.restarted + plan.previously));
    ListsStop(plan.unitOrder);
    ListsStop(UniqueSorted(plan.previously));
    PartsStop([Persist(Cause), CancelRestarts], Stops(UniqueSorted(tx.restarted + plan.previously)),
              RestoreUnits(plan.unitOrder) + [RestoreDatabase, Reload], Starts(UniqueSorted(plan.previously)), CHECKED);
  }

  lemma LandedIsRestored(plan: Plan, s: State)
    ensures Landed(plan, s) ==> Restored(plan, s.w)
  {
    hide History, Agreement, JobOk;
  }

  /** From every state that a crash, an error or an interrupted rollback can leave, a rollback
      whose steps succeed lands exactly when no service of the plan is running that was not
      running before. When it does not land, the journal keeps its phase and its authority,
      whatever the single steps report. When it does, the process takes changes again, unless
      the hand-over is still to be completed. */
  lemma RecoverLandsIffClear(plan: Plan, s: State, os: seq<Outcome>)
    requires ValidPlan(plan) && Recovering(plan, s)
    requires AllSucceed(os) && |os| > Work(RollbackCode(plan, s.w.src.value))
    ensures var t := Run(plan, Step(plan, s, Invoke(Recover)), Execs(os));
            && (Landed(plan, t) <==> Clear(plan, s.w.running))
            && (Landed(plan, t) ==> Restored(plan, t.w) && (t.w.src.value.phase == RolledBack || SomeScheduled(os)))
            && (Landed(plan, t) && t.w.src.value.phase == RolledBack ==> !t.proc.blocked)
            && (!Landed(plan, t) ==> t.w.src.Some? && SamePos(t.w.src.value, s.w.src.value))
  {
    hide RollbackCode, Work, Restored, Inv, Clear;
    var t := Run(plan, Step(plan, s, Invoke(Recover)), Execs(os));
    DutyStays(plan, Step(plan, s, Invoke(Recover)), os);
    LandedIsRestored(plan, t);
    if Clear(plan, s.w.running) {
      RecoverOnCourse(plan, s);
      CourseRuns(plan, Started(plan, s, Recover), os, Work(RollbackCode(plan, s.w.src.value)));
    } else {
      RecoverOffCourse(plan, s);
      OffRuns(plan, Started(plan, s, Recover), s.w.src.value, os);
    }
  }

  /** A process that completes a hand-over, or has done so. */
  predicate Settling(plan: Plan, s: State, left: nat) {
    && Inv(plan, s) && s.proc.Up? && s.proc.duty == StartingUp && s.w.src.Some?
    && (left > 0 ==> s.proc.job.Some? && s.proc.job.value.mode == Plain)
    && (left < 3 ==> s.w.src.value.phase == RolledBack && s.w.src.value.authority == Source)
    && match left
       case 0 => s.proc.job.None? && !s.proc.blocked
       case 1 => s.proc.job.value.code == []
       case 2 => s.proc.job.value.code == [Mirror]
       case _ => s.proc.job.value.code == [Persist(AdvanceTo(RolledBack, Source))]
  }

  lemma SettlingWrites(plan: Plan, s: State, o: Outcome)
    requires s.proc.Up? && s.proc.job.Some? && s.proc.job.value.mode == Plain && Succeeds(o)
    requires s.proc.job.value.code == [Persist(AdvanceTo(RolledBack, Source))]
    ensures var t := Run1(plan, s, o);
            && t.proc.Up? && t.proc.job.Some? && t.proc.job.value.mode == Plain && t.proc.job.value.code == [Mirror]
            && t.w.src.Some? && t.w.src.value.phase == RolledBack && t.w.src.value.authority == Source
            && t.proc.duty == s.proc.duty
  {
    assert [Mirror] + s.proc.job.value.code[1..] == [Mirror];
  }

  lemma SettlingMirrors(plan: Plan, s: State, o: Outcome)
    requires s.proc.Up? && s.proc.job.Some? && s.proc.job.value.mode == Plain && Succeeds(o)
    requires s.proc.job.value.code == [Mirror]
    ensures var t := Run1(plan, s, o);
            && t.proc.Up? && t.proc.job.Some? && t.proc.job.value.mode == Plain && t.proc.job.value.code == []
            && t.w.src == s.w.src && t.proc.duty == s.proc.duty
  {
    assert [] + s.proc.job.value.code[1..] == [];
  }

  lemma SettlingStep(plan: Plan, s: State, o: Outcome, left: nat)
    requires ValidPlan(plan) && Settling(plan, s, left) && 0 < left <= 3 && Succeeds(o)
    ensures Settling(plan, Step(plan, s, Exec(o)), left - 1)
  {
    StepKeeps(plan, s, Exec(o));
    if left == 3 {
      SettlingWrites(plan, s, o);
    } else if left == 2 {
      SettlingMirrors(plan, s, o);
    }
  }

  lemma {:induction false} SettlingRuns(plan: Plan, s: State, os: seq<Outcome>, left: nat)
    requires ValidPlan(plan) && Settling(plan, s, left) && left <= 3 && AllSucceed(os) && |os| >= left
    ensures Settling(plan, Run(plan, s, Execs(os)), 0)
    decreases left
  {
    if left == 0 {
      IdleStays(plan, s, os);
    } else {
      assert os[0] in os && forall o :: o in os[1..] ==> o in os;
      SettlingStep(plan, s, os[0], left);
      RunFirst(plan, s, os);
      SettlingRuns(plan, Step(plan, s, Exec(os[0])), os[1..], left - 1);
    }
  }

  /** A hand-over to the source Catch is completed by its restart: the journal says rolled
      back, the host is restored and the process does not block. */
  lemma HandOverCompletes(plan: Plan, s: State, os: seq<Outcome>)
    requires ValidPlan(plan) && Inv(plan, s) && s.w.src.Some? && s.w.src.value.phase == SourceRestartPending
    requires AllSucceed(os) && |os| >= 3
    ensures var t := Run(plan, Step(plan, Step(plan, s, Crash), Boot), Execs(os));
            && t.proc.Up? && t.proc.job.None? && !t.proc.blocked && t.w.src.Some?
            && t.w.src.value.phase == RolledBack && t.w.src.value.authority == Source && Restored(plan, t.w)
  {
    var down := Step(plan, s, Crash);
    BootKeeps(plan, down);
    SettlingRuns(plan, Step(plan, down, Boot), os, 3);
  }

  /** Restart Catch, ask for recovery, and restart once more if a hand-over is left. */
  function Undone(plan: Plan, s: State, os: seq<Outcome>, more: seq<Outcome>): State {
    var up := Step(plan, Step(plan, s, Crash), Boot);
    var t := Run(plan, Step(plan, up, Invoke(Recover)), Execs(os));
    if t.w.src.Some? && t.w.src.value.phase == SourceRestartPending
    then Run(plan, Step(plan, Step(plan, t, Crash), Boot), Execs(more)) else t
  }

  predicate BackToNormal(plan: Plan, s: State) {
    && s.proc.Up? && s.proc.job.None? && !s.proc.blocked && s.w.src.Some?
    && s.w.src.value.phase == RolledBack && s.w.src.value.authority == Source && Restored(plan, s.w)
  }

  /** However far an unfinished migration went, crashes and interrupted rollbacks included:
      restart Catch, ask for recovery, and if the steps succeed, the host is as it was before,
      the journal says so and nothing is blocked, at the latest after the restart that a
      hand-over waits for. This holds exactly when no service of the plan is running that was
      not running before. */
  lemma EveryMigrationCanBeUndone(plan: Plan, s0: State, acts: seq<Action>, os: seq<Outcome>, more: seq<Outcome>)
    requires Reachable(plan, s0, acts)
    requires var s := Run(plan, s0, acts);
             && s.w.src.Some? && !Terminal(s.w.src.value.phase)
             && AllSucceed(os) && |os| > Work(RollbackCode(plan, s.w.src.value))
    requires AllSucceed(more) && |more| >= 3
    ensures var s := Run(plan, s0, acts);
            BackToNormal(plan, Undone(plan, s, os, more)) <==> Clear(plan, s.w.running)
  {
    ReachableInv(plan, s0, acts);
    RestartSeesUnfinished(plan, s0, acts);
    var s := Run(plan, s0, acts);
    hide Run, RollbackCode, Work, Restored;
    BootKeeps(plan, Step(plan, s, Crash));
    if s.w.src.value.phase == SourceRestartPending {
      RollbackWork(plan, s.w.src.value);
      HandOverUndone(plan, s, os, more);
    } else {
      UndoneFrom(plan, s, os, more);
    }
  }

  lemma RollbackOpens(plan: Plan, tx: Tx)
    ensures |RollbackCode(plan, tx)| >= 2
    ensures RollbackCode(plan, tx)[0] == Persist(Cause) && RollbackCode(plan, tx)[1] == CancelRestarts
  {
    hide Stops, Starts, RestoreUnits, UniqueSorted;
  }

  lemma RollbackWork(plan: Plan, tx: Tx)
    ensures Work(RollbackCode(plan, tx)) >= 3
  {
    RollbackOpens(plan, tx);
    hide RollbackCode;
    var code := RollbackCode(plan, tx);
    assert code == [Persist(Cause)] + ([CancelRestarts] + code[2..]);
    Costs(CancelRestarts, code[2..]);
    Costs(Persist(Cause), [CancelRestarts] + code[2..]);
  }

  lemma HandOverUndone(plan: Plan, s: State, os: seq<Outcome>, more: seq<Outcome>)
    requires ValidPlan(plan) && Inv(plan, s) && s.w.src.Some? && s.w.src.value.phase == SourceRestartPending
    requires AllSucceed(os) && |os| >= 3
    ensures Clear(plan, s.w.running) && BackToNormal(plan, Undone(plan, s, os, more))
  {
    var up := Step(plan, Step(plan, s, Crash), Boot);
    assert Truthful(plan, s.w);
    assert Step(plan, up, Invoke(Recover)) == up;
    HandOverCompletes(plan, s, os);
  }

  lemma UndoneFrom(plan: Plan, s: State, os: seq<Outcome>, more: seq<Outcome>)
    requires ValidPlan(plan) && Recovering(plan, Step(plan, Step(plan, s, Crash), Boot))
    requires s.w.src.Some? && AllSucceed(os) && |os| > Work(RollbackCode(plan, s.w.src.value))
    requires AllSucceed(more) && |more| >= 3
    ensures BackToNormal(plan, Undone(plan, s, os, more)) <==> Clear(plan, s.w.running)
  {
    hide Run, RollbackCode, Work, Restored, Inv;
    var up := Step(plan, Step(plan, s, Crash), Boot);
    assert up.w == s.w;
    RecoverLandsIffClear(plan, up, os);
    var t := Run(plan, Step(plan, up, Invoke(Recover)), Execs(os));
    if Clear(plan, s.w.running) && t.w.src.value.phase == SourceRestartPending {
      HandOverCompletes(plan, t, more);
    }
  }

  // ----- a rollback after final validation -----

  /** The final validation does not pass: it fails, or it finds another running set. */
  predicate Rejects(plan: Plan, s: State, check: Outcome)
    requires s.proc.Up? && s.proc.job.Some?
  {
    var job := s.proc.job.value;
    Perform(plan, CheckFinal, s.w, job.tx, s.log, job.runningAs, check).control.Fail?
  }

  /** It does so when the environment says so, and whenever the running set is not the one
      from before, whatever the environment says. */
  lemma RejectsWrongSet(plan: Plan, s: State, check: Outcome)
    requires s.proc.Up? && s.proc.job.Some?
    ensures !check.ok ==> Rejects(plan, s, check)
    ensures !Matches(plan, s.w.running, Tracked(plan, s.proc.job.value.tx)) ==> Rejects(plan, s, check)
  {
  }

  lemma FinalFails(plan: Plan, s: State, check: Outcome)
    requires s.proc.Up? && s.proc.job.Some?
    requires var job := s.proc.job.value;
             job.mode == Finalizing && job.code != [] && job.code[0] == CheckFinal && job.tx.phase == CatchSwitched
    requires Rejects(plan, s, check)
    ensures var job := s.proc.job.value;
            Step(plan, s, Exec(check)) == StartJob(s, FinalRollbackJob(plan, job.tx, job.runningAs))
  {
    hide Matches, FinalRollbackJob;
  }

  lemma FinalOnCourse(plan: Plan, s: State, tx: Tx, runningAs: Side)
    requires ValidPlan(plan) && Booked(plan, tx) && s.proc.Up?
    requires s.proc.job == Some(FinalRollbackJob(plan, tx, runningAs)) && Inv(plan, s)
    ensures OnCourse(plan, s)
  {
    hide Inv;
    ListKinds(UniqueSorted(tx.stopped + plan.planned));
    RollbackLands(plan, tx, Unexpected(UniqueSorted(tx.stopped + plan.planned)));
    FinalRollbackMatches(plan, s.w.running, tx);
  }

  /** When final validation does not pass, the rollback first stops what should not be running; if
      all its steps succeed it lands, whatever was running. */
  lemma FinalRollbackLands(plan: Plan, s: State, check: Outcome, os: seq<Outcome>)
    requires ValidPlan(plan) && Inv(plan, s) && s.proc.Up? && s.proc.job.Some?
    requires var job := s.proc.job.value;
             job.mode == Finalizing && job.code != [] && job.code[0] == CheckFinal && job.tx.phase == CatchSwitched
    requires Rejects(plan, s, check) && AllSucceed(os)
    requires |os| > Work(FinalRollbackJob(plan, s.proc.job.value.tx, Source).code)
    ensures var t := Run(plan, Step(plan, s, Exec(check)), Execs(os));
            Landed(plan, t) && Restored(plan, t.w)
  {
    var tx, runningAs := s.proc.job.value.tx, s.proc.job.value.runningAs;
    FinalCheck(plan, s, check);
    FinalFails(plan, s, check);
    var t := StartJob(s, FinalRollbackJob(plan, tx, runningAs));
    FinalOnCourse(plan, t, tx, runningAs);
    FinalLandsFrom(plan, t, os, Work(FinalRollbackJob(plan, tx, Source).code));
  }

  lemma FinalLandsFrom(plan: Plan, t: State, os: seq<Outcome>, work: nat)
    requires ValidPlan(plan) && OnCourse(plan, t) && AllSucceed(os)
    requires Work(t.proc.job.value.code) <= work < |os|
    ensures Landed(plan, Run(plan, t, Execs(os))) && Restored(plan, Run(plan, t, Execs(os)).w)
  {
    CourseRuns(plan, t, os, work);
  }
}
