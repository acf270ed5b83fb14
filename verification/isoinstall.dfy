/** Installing a Compose project into an isolated network: the order of its phases, the
    host-wide lock that is taken and given back in between, and what a failure leaves. */
module IsoInstall {

  datatype Phase =
    | ResolveBase | AdmitBase | Reserve | RenderOverlay | ResolveMerged | AdmitMerged | InstallDNS
    | EnsurePolicy | VerifyPolicy | EnsureTopology | VerifyTopology | InstallTailscale | Pull | Build
    | AttachNetwork | StartAux | ComposeUp | InspectRuntime | MarkReady

  const FIRST_PHASES := [ResolveBase, AdmitBase, Reserve]

  const REMAINING_PHASES := [
    RenderOverlay, ResolveMerged, AdmitMerged, InstallDNS, EnsurePolicy, VerifyPolicy, EnsureTopology, VerifyTopology,
    InstallTailscale, Pull, Build, AttachNetwork, StartAux, ComposeUp, InspectRuntime, MarkReady]

  /** What is looked at again before containers are created or started. */
  datatype Check = Record | Policy | Topology | Inputs

  const ALL_CHECKS := {Record, Policy, Topology, Inputs}

  /** What happens on the host. Ready and Checked happen only if they succeed; the others are
      noted when they are attempted. */
  datatype Event =
    | Acquired | Released | Checked(check: Check) | CreateContainers | StartAuxiliary | StartContainers
    | Ready | TakeDown | PutInQuarantine | Other(phase: Phase)

  // ----- the discipline -----

  predicate Held(trace: seq<Event>) {
    if trace == [] then false
    else
      match trace[|trace| - 1]
      case Acquired => true
      case Released => false
      case _ => Held(trace[..|trace| - 1])
  }

  /** The checks made since the lock was last taken. */
  function Fresh(trace: seq<Event>): set<Check> {
    if trace == [] then {}
    else
      match trace[|trace| - 1]
      case Acquired => {}
      case Released => {}
      case Checked(c) => Fresh(trace[..|trace| - 1]) + {c}
      case _ => Fresh(trace[..|trace| - 1])
  }

  predicate Allowed(before: seq<Event>, e: Event) {
    match e
    case Acquired => !Held(before)
    case Released => Held(before)
    case CreateContainers => Held(before) && Fresh(before) == ALL_CHECKS
    case StartContainers => Held(before) && Fresh(before) == ALL_CHECKS
    case StartAuxiliary => !Held(before)
    case TakeDown => !Held(before)
    case PutInQuarantine => !Held(before)
    case _ => true
  }

  /** The lock is taken only when it is free, auxiliary units start only without it, and
      containers are created or started only with it, everything having been looked at again
      since it was taken. */
  predicate Disciplined(trace: seq<Event>) {
    forall i :: 0 <= i < |trace| ==> Allowed(trace[..i], trace[i])
  }

  lemma Snoc(trace: seq<Event>, e: Event)
    requires Disciplined(trace) && Allowed(trace, e)
    ensures Disciplined(trace + [e])
    ensures (trace + [e])[..|trace|] == trace
  {
    forall i | 0 <= i < |trace + [e]| ensures Allowed((trace + [e])[..i], (trace + [e])[i]) {
      if i < |trace| {
        assert (trace + [e])[..i] == trace[..i];
      } else {
        assert (trace + [e])[..i] == trace;
      }
    }
  }

  /** Whether the lock is held before this phase, when all earlier ones have succeeded. */
  predicate HeldBefore(p: Phase) {
    p == VerifyPolicy || p == EnsureTopology || p == VerifyTopology || p == StartAux || p == InspectRuntime ||
    p == MarkReady
  }

  /** Whether it is held after this phase has succeeded. */
  predicate HeldAfter(p: Phase) {
    p == EnsurePolicy || p == VerifyPolicy || p == EnsureTopology || p == AttachNetwork || p == ComposeUp ||
    p == InspectRuntime
  }

  predicate Chained(p: Phase, q: Phase) {
    HeldAfter(p) == HeldBefore(q)
  }

  // ----- what a run leaves -----

  const RECHECKED: seq<Event> :=
    [Acquired, Checked(Record), Checked(Policy), Checked(Topology), Checked(Inputs)]

  /** What a phase leaves when it succeeds. */
  function Log(p: Phase): seq<Event> {
    match p
    case EnsurePolicy => [Acquired, Other(EnsurePolicy)]
    case VerifyPolicy => [Checked(Policy)]
    case VerifyTopology => [Checked(Topology), Released]
    case AttachNetwork => RECHECKED + [CreateContainers]
    case StartAux => [Released, StartAuxiliary]
    case ComposeUp => RECHECKED + [StartContainers]
    case MarkReady => [Ready, Released]
    case _ => [Other(p)]
  }

  function Logs(phases: seq<Phase>): seq<Event> {
    if phases == [] then [] else Logs(phases[..|phases| - 1]) + Log(phases[|phases| - 1])
  }

  /** The one successful installation. */
  const COMPLETE: seq<Event> :=
    [Other(ResolveBase), Other(AdmitBase), Other(Reserve)] +
    [Other(RenderOverlay), Other(ResolveMerged), Other(AdmitMerged), Other(InstallDNS)] +
    [Acquired, Other(EnsurePolicy), Checked(Policy), Other(EnsureTopology), Checked(Topology), Released] +
    [Other(InstallTailscale), Other(Pull), Other(Build)] +
    [Acquired, Checked(Record), Checked(Policy), Checked(Topology), Checked(Inputs), CreateContainers, Released,
     StartAuxiliary, Acquired, Checked(Record), Checked(Policy), Checked(Topology), Checked(Inputs),
     StartContainers] +
    [Other(InspectRuntime), Ready, Released]

  /** A beginning of the log, after which the lock may have been given back. */
  predicate CutAt(base: seq<Event>, log: seq<Event>, trace: seq<Event>, k: nat) {
    k <= |log| && (trace == base + log[..k] || trace == base + log[..k] + [Released])
  }

  predicate Cut(base: seq<Event>, log: seq<Event>, trace: seq<Event>) {
    exists k: nat :: k <= |log| && CutAt(base, log, trace, k)
  }

  lemma CutHere(base: seq<Event>, log: seq<Event>, trace: seq<Event>, k: nat)
    requires CutAt(base, log, trace, k)
    ensures Cut(base, log, trace)
  {
  }

  function GivenBack(trace: seq<Event>): seq<Event> {
    if Held(trace) then [Released] else []
  }

  lemma NothingDone(base: seq<Event>, p: Phase, trace: seq<Event>)
    requires trace == base || trace == base + [Released]
    ensures Cut(base, Log(p), trace)
  {
    hide Log;
    assert base + Log(p)[..0] == base;
    CutHere(base, Log(p), trace, 0);
  }

  lemma SimpleLog(p: Phase)
    ensures Log(VerifyPolicy) == [Checked(Policy)]
    ensures p !in [EnsurePolicy, VerifyPolicy, VerifyTopology, AttachNetwork, StartAux, ComposeUp, MarkReady] ==>
              Log(p) == [Other(p)]
  {
  }

  lemma CutEarlier(base: seq<Event>, log: seq<Event>, more: seq<Event>, trace: seq<Event>)
    requires Cut(base, log, trace)
    ensures Cut(base, log + more, trace)
  {
    var k: nat :| k <= |log| && CutAt(base, log, trace, k);
    assert (log + more)[..k] == log[..k];
    assert CutAt(base, log + more, trace, k);
  }

  lemma CutLater(base: seq<Event>, log: seq<Event>, more: seq<Event>, trace: seq<Event>)
    requires Cut(base + log, more, trace)
    ensures Cut(base, log + more, trace)
  {
    var k: nat :| k <= |more| && CutAt(base + log, more, trace, k);
    assert (log + more)[..|log| + k] == log + more[..k];
    assert base + log + more[..k] == base + (log + more[..k]);
    assert CutAt(base, log + more, trace, |log| + k);
  }

  lemma CutPrefix(base: seq<Event>, log: seq<Event>, all: seq<Event>, trace: seq<Event>)
    requires Cut(base, log, trace) && log <= all
    ensures Cut(base, all, trace)
  {
    CutEarlier(base, log, all[|log|..], trace);
    assert log + all[|log|..] == all;
  }

  lemma LogsNone(phases: seq<Phase>)
    ensures Logs(phases[..0]) == []
  {
  }

  lemma {:induction false} OnlyTheLastMarks(phases: seq<Phase>)
    requires forall i :: 0 <= i < |phases| ==> phases[i] != MarkReady
    ensures Ready !in Logs(phases)
  {
    if phases != [] {
      OnlyTheLastMarks(phases[..|phases| - 1]);
      assert Ready !in Log(phases[|phases| - 1]);
    }
  }

  /** A phase that fails does not leave the mark. */
  lemma NotReady(base: seq<Event>, phases: seq<Phase>, i: nat, before: seq<Event>, trace: seq<Event>)
    requires i < |phases| && forall j :: 0 <= j < |phases| - 1 ==> phases[j] != MarkReady
    requires before == base + Logs(phases[..i]) && Cut(before, Log(phases[i]), trace)
    requires phases[i] == MarkReady ==> trace == before || trace == before + [Released]
    ensures Ready in trace ==> Ready in base
  {
    OnlyTheLastMarks(phases[..i]);
    if phases[i] != MarkReady {
      var k: nat :| k <= |Log(phases[i])| && CutAt(before, Log(phases[i]), trace, k);
      assert Ready !in Log(phases[i]);
    }
  }

  lemma EndsWithCut(trace: seq<Event>)
    requires Cut([], COMPLETE, trace) && Disciplined(trace)
    ensures exists k: nat :: k <= |COMPLETE| && trace + GivenBack(trace) == COMPLETE[..k] + GivenBack(COMPLETE[..k])
  {
    hide COMPLETE, Fresh;
    var k: nat :| k <= |COMPLETE| && CutAt([], COMPLETE, trace, k);
    assert [] + COMPLETE[..k] == COMPLETE[..k];
    if trace != COMPLETE[..k] {
      assert trace[|trace| - 1] == Released && trace[..|trace| - 1] == COMPLETE[..k];
      assert Allowed(trace[..|trace| - 1], trace[|trace| - 1]);
      assert trace + [] == trace;
    }
  }

  lemma CutStart(log: seq<Event>, trace: seq<Event>)
    requires trace == log
    ensures Cut([], log, trace)
  {
    assert [] + log[..|log|] == log;
    CutHere([], log, trace, |log|);
  }

  lemma NoReadyGivenBack(trace: seq<Event>)
    ensures Ready !in GivenBack(trace)
  {
    hide Held;
  }

  lemma ReadyInComplete()
    ensures Ready in COMPLETE
  {
    assert COMPLETE[|COMPLETE| - 2] == Ready;
  }

  /** A list of phases that can be run: each leaves the lock as the next one finds it, and
      only the last one marks the service ready. */
  predicate Runnable(phases: seq<Phase>) {
    && phases != []
    && (forall i :: 0 <= i < |phases| - 1 ==> Chained(phases[i], phases[i + 1]))
    && (forall i :: 0 <= i < |phases| - 1 ==> phases[i] != MarkReady)
  }

  lemma FirstRunnable()
    ensures Runnable(FIRST_PHASES) && FIRST_PHASES[0] == ResolveBase && FIRST_PHASES[|FIRST_PHASES| - 1] == Reserve
  {
  }

  lemma RunnableConcat(a: seq<Phase>, b: seq<Phase>)
    requires Runnable(a) && Runnable(b) && Chained(a[|a| - 1], b[0]) && a[|a| - 1] != MarkReady
    ensures Runnable(a + b)
  {
    hide Chained;
    forall i | 0 <= i < |a + b| - 1 ensures Chained((a + b)[i], (a + b)[i + 1]) && (a + b)[i] != MarkReady {
    }
  }

  lemma NetworkRunnable()
    ensures Runnable([EnsurePolicy, VerifyPolicy, EnsureTopology] + [VerifyTopology])
    ensures Runnable([RenderOverlay, ResolveMerged, AdmitMerged] + [InstallDNS])
  {
  }

  lemma ContainersRunnable()
    ensures Runnable([InstallTailscale, Pull, Build]) && Runnable([AttachNetwork, StartAux, ComposeUp])
    ensures Runnable([InspectRuntime, MarkReady])
  {
  }

  lemma RemainingRunnable()
    ensures Runnable(REMAINING_PHASES) && REMAINING_PHASES[0] == RenderOverlay
    ensures REMAINING_PHASES[|REMAINING_PHASES| - 1] == MarkReady
  {
    NetworkRunnable();
    ContainersRunnable();
    RemainingGroups();
    hide Runnable, REMAINING_PHASES;
    var a, b := [RenderOverlay, ResolveMerged, AdmitMerged] + [InstallDNS],
                [EnsurePolicy, VerifyPolicy, EnsureTopology] + [VerifyTopology];
    var c, d := [InstallTailscale, Pull, Build], [AttachNetwork, StartAux, ComposeUp];
    RunnableConcat(a, b);
    RunnableConcat(a + b, c);
    RunnableConcat(a + b + c, d);
    RunnableConcat(a + b + c + d, [InspectRuntime, MarkReady]);
  }

  lemma FirstUnmarked()
    ensures Ready !in Logs(FIRST_PHASES)
  {
    OnlyTheLastMarks(FIRST_PHASES);
  }

  lemma LogsNext(phases: seq<Phase>, i: nat)
    requires i < |phases|
    ensures Logs(phases[..i + 1]) == Logs(phases[..i]) + Log(phases[i])
  {
    assert phases[..i + 1][..i] == phases[..i];
  }

  /** The logs of the first phases are a beginning of all logs. */
  lemma {:induction false} LogsSplit(phases: seq<Phase>, i: nat)
    requires i <= |phases|
    ensures Logs(phases[..i]) <= Logs(phases)
    decreases |phases| - i
  {
    if i < |phases| {
      LogsNext(phases, i);
      LogsSplit(phases, i + 1);
    } else {
      assert phases[..i] == phases;
    }
  }

  lemma {:induction false} LogsConcat(a: seq<Phase>, b: seq<Phase>)
    ensures Logs(a + b) == Logs(a) + Logs(b)
    decreases |b|
  {
    hide Log;
    if b == [] {
      assert a + b == a;
    } else {
      var n := |b| - 1;
      assert (a + b)[..|a| + n] == a + b[..n];
      LogsConcat(a, b[..n]);
    }
  }

  lemma LogsOfThree(a: Phase, b: Phase, c: Phase)
    ensures Logs([a]) == Log(a) && Logs([a, b]) == Log(a) + Log(b) && Logs([a, b, c]) == Log(a) + Log(b) + Log(c)
  {
    LogsNext([a, b, c], 0);
    LogsNext([a, b, c], 1);
    LogsNext([a, b, c], 2);
    assert [a, b, c][..0] == [] && [a, b, c][..1] == [a] && [a, b, c][..2] == [a, b] && [a, b, c][..3] == [a, b, c];
  }

  lemma LogsOfGroups(a: seq<Phase>, b: seq<Phase>, c: seq<Phase>, d: seq<Phase>, e: seq<Phase>)
    ensures Logs(a + b + c + d + e) == Logs(a) + Logs(b) + Logs(c) + Logs(d) + Logs(e)
  {
    hide Logs;
    LogsConcat(a, b);
    LogsConcat(a + b, c);
    LogsConcat(a + b + c, d);
    LogsConcat(a + b + c + d, e);
  }

  lemma MergedLogs()
    ensures Logs([RenderOverlay, ResolveMerged, AdmitMerged] + [InstallDNS]) ==
            [Other(RenderOverlay), Other(ResolveMerged), Other(AdmitMerged), Other(InstallDNS)]
  {
    LogsOfThree(RenderOverlay, ResolveMerged, AdmitMerged);
    LogsOfThree(InstallDNS, InstallDNS, InstallDNS);
    hide Logs;
    LogsConcat([RenderOverlay, ResolveMerged, AdmitMerged], [InstallDNS]);
  }

  lemma NetworkLogs()
    ensures Logs([EnsurePolicy, VerifyPolicy, EnsureTopology] + [VerifyTopology]) ==
            [Acquired, Other(EnsurePolicy), Checked(Policy), Other(EnsureTopology), Checked(Topology), Released]
  {
    LogsOfThree(EnsurePolicy, VerifyPolicy, EnsureTopology);
    LogsOfThree(VerifyTopology, VerifyTopology, VerifyTopology);
    hide Logs;
    LogsConcat([EnsurePolicy, VerifyPolicy, EnsureTopology], [VerifyTopology]);
  }

  lemma ContainerLogs()
    ensures Logs([AttachNetwork, StartAux, ComposeUp]) ==
            [Acquired, Checked(Record), Checked(Policy), Checked(Topology), Checked(Inputs), CreateContainers, Released,
             StartAuxiliary, Acquired, Checked(Record), Checked(Policy), Checked(Topology), Checked(Inputs),
             StartContainers]
  {
    LogsOfThree(AttachNetwork, StartAux, ComposeUp);
    hide Logs;
    assert Log(AttachNetwork) == RECHECKED + [CreateContainers] && Log(ComposeUp) == RECHECKED + [StartContainers];
  }

  lemma SimpleLogs()
    ensures Logs(FIRST_PHASES) == [Other(ResolveBase), Other(AdmitBase), Other(Reserve)]
    ensures Logs([InstallTailscale, Pull, Build]) == [Other(InstallTailscale), Other(Pull), Other(Build)]
    ensures Logs([InspectRuntime, MarkReady]) == [Other(InspectRuntime), Ready, Released]
  {
    LogsOfThree(ResolveBase, AdmitBase, Reserve);
    LogsOfThree(InstallTailscale, Pull, Build);
    LogsOfThree(InspectRuntime, MarkReady, MarkReady);
    hide Logs;
    assert FIRST_PHASES == [ResolveBase, AdmitBase, Reserve];
    hide FIRST_PHASES;
    assert Log(MarkReady) == [Ready, Released];
    OneEach(ResolveBase, AdmitBase, Reserve);
    OneEach(InstallTailscale, Pull, Build);
  }

  lemma OneEach(a: Phase, b: Phase, c: Phase)
    requires Log(a) == [Other(a)] && Log(b) == [Other(b)] && Log(c) == [Other(c)]
    ensures Log(a) + Log(b) + Log(c) == [Other(a), Other(b), Other(c)]
  {
  }

  lemma CompleteIsLogs()
    ensures Logs(FIRST_PHASES) + Logs(REMAINING_PHASES) == COMPLETE
  {
    SimpleLogs();
    MergedLogs();
    NetworkLogs();
    ContainerLogs();
    RemainingGroups();
    hide Logs;
    LogsOfGroups([RenderOverlay, ResolveMerged, AdmitMerged] + [InstallDNS],
                 [EnsurePolicy, VerifyPolicy, EnsureTopology] + [VerifyTopology],
                 [InstallTailscale, Pull, Build], [AttachNetwork, StartAux, ComposeUp], [InspectRuntime, MarkReady]);
    Regrouped([Other(ResolveBase), Other(AdmitBase), Other(Reserve)],
              [Other(RenderOverlay), Other(ResolveMerged), Other(AdmitMerged), Other(InstallDNS)],
              [Acquired, Other(EnsurePolicy), Checked(Policy), Other(EnsureTopology), Checked(Topology), Released],
              [Other(InstallTailscale), Other(Pull), Other(Build)],
              Logs([AttachNetwork, StartAux, ComposeUp]), [Other(InspectRuntime), Ready, Released]);
  }

  lemma Regrouped<T>(a: seq<T>, b: seq<T>, c: seq<T>, d: seq<T>, e: seq<T>, f: seq<T>)
    ensures a + (b + c + d + e + f) == a + b + c + d + e + f
  {
  }

  lemma RemainingGroups()
    ensures REMAINING_PHASES ==
            ([RenderOverlay, ResolveMerged, AdmitMerged] + [InstallDNS]) +
            ([EnsurePolicy, VerifyPolicy, EnsureTopology] + [VerifyTopology]) +
            [InstallTailscale, Pull, Build] + [AttachNetwork, StartAux, ComposeUp] + [InspectRuntime, MarkReady]
  {
  }

  /** In every beginning of the complete trace, nothing is created or started before both
      versions of the Compose document have been admitted and everything has been looked at. */
  lemma AdmittedFirst(k: nat, i: nat)
    requires k <= |COMPLETE| && i < |COMPLETE[..k]|
    requires COMPLETE[..k][i] in [CreateContainers, StartAuxiliary, StartContainers, Other(InspectRuntime), Ready]
    ensures forall e ::
              e in [Other(AdmitBase), Other(AdmitMerged), Other(InstallDNS), Checked(Policy), Checked(Topology)] ==>
              e in COMPLETE[..k][..i]
  {
    assert i >= 21 && COMPLETE[..k][..i] == COMPLETE[..i];
    assert COMPLETE[1] == Other(AdmitBase) && COMPLETE[5] == Other(AdmitMerged) && COMPLETE[6] == Other(InstallDNS);
    assert COMPLETE[9] == Checked(Policy) && COMPLETE[11] == Checked(Topology);
    assert forall j :: 0 <= j < 21 ==> COMPLETE[..i][j] == COMPLETE[j];
  }

  /** No container is created or started before both versions have been admitted. */
  predicate Admitted(trace: seq<Event>) {
    forall i :: 0 <= i < |trace| && (trace[i].CreateContainers? || trace[i].StartContainers?) ==>
      Other(AdmitBase) in trace[..i] && Other(AdmitMerged) in trace[..i]
  }

  lemma AdmittedIn(k: nat, tail: seq<Event>)
    requires k <= |COMPLETE| && CreateContainers !in tail && StartContainers !in tail
    ensures Admitted(COMPLETE[..k] + tail)
  {
    hide COMPLETE;
    var trace := COMPLETE[..k] + tail;
    forall i | 0 <= i < |trace| && (trace[i].CreateContainers? || trace[i].StartContainers?)
      ensures Other(AdmitBase) in trace[..i] && Other(AdmitMerged) in trace[..i]
    {
      if i < k {
        AdmittedFirst(k, i);
        assert trace[..i] == COMPLETE[..k][..i];
      }
    }
  }

  lemma AdmittedEnd(trace: seq<Event>, end: seq<Event>)
    requires Cut([], COMPLETE, trace) && Disciplined(trace)
    requires end == trace + GivenBack(trace) + [TakeDown, PutInQuarantine]
    ensures Admitted(end)
    ensures exists k: nat :: k <= |COMPLETE| &&
              end == COMPLETE[..k] + GivenBack(COMPLETE[..k]) + [TakeDown, PutInQuarantine]
  {
    EndsWithCut(trace);
    hide COMPLETE, Cut, Disciplined, Held, Admitted;
    var k: nat :| k <= |COMPLETE| && trace + GivenBack(trace) == COMPLETE[..k] + GivenBack(COMPLETE[..k]);
    var tail := GivenBack(COMPLETE[..k]) + [TakeDown, PutInQuarantine];
    assert end == COMPLETE[..k] + tail;
    AdmittedIn(k, tail);
  }

  class ComposeInstall {
    const env: nat -> bool        // whether each thing asked for succeeds
    var now: nat
    var unlock: bool              // the release function of the lock is at hand
    ghost var trace: seq<Event>

    ghost predicate Valid()
      reads this
    {
      Disciplined(trace) && unlock == Held(trace)
    }

    /** Everything that is asked for succeeds. */
    ghost predicate Agrees() {
      forall n :: env(n)
    }

    constructor (env: nat -> bool)
      ensures Valid() && trace == [] && !unlock
    {
      this.env, now, unlock, trace := env, 0, false, [];
    }

    method Ask() returns (ok: bool)
      modifies `now
      ensures Agrees() ==> ok
    {
      ok := env(now);
      now := now + 1;
    }

    ghost method Note(e: Event)
      requires Valid() && Allowed(trace, e) && !e.Acquired? && !e.Released?
      modifies `trace
      ensures Valid() && trace == old(trace) + [e]
      ensures Fresh(trace) == Fresh(old(trace)) + if e.Checked? then {e.check} else {}
    {
      Snoc(trace, e);
      trace := trace + [e];
    }

    method Acquire() returns (ok: bool)
      requires Valid() && !unlock
      modifies this
      ensures Agrees() ==> ok
      ensures Valid() && unlock == ok
      ensures trace == if ok then old(trace) + [Acquired] else old(trace)
      ensures ok ==> Fresh(trace) == {}
    {
      ok := Ask();
      if ok {
        Snoc(trace, Acquired);
        unlock := true;
        trace := trace + [Acquired];
      }
    }

    /** Giving the lock back is harmless when it is not held. */
    method Release()
      requires Valid()
      modifies `unlock, `trace
      ensures Valid() && !unlock
      ensures trace == if old(unlock) then old(trace) + [Released] else old(trace)
    {
      if unlock {
        Snoc(trace, Released);
        unlock := false;
        trace := trace + [Released];
      }
    }

    /** Asks for something that is done under the lock, which is given back on failure. */
    method AskOrRelease(ghost done: Event) returns (ok: bool)
      requires Valid() && unlock && !done.Acquired? && !done.Released? && Allowed(trace, done)
      modifies this
      ensures Agrees() ==> ok
      ensures Valid() && unlock == ok
      ensures ok ==>
                && trace == old(trace) + [done]
                && Fresh(trace) == Fresh(old(trace)) + if done.Checked? then {done.check} else {}
      ensures !ok ==> trace == old(trace) + [Released]
    {
      ok := Ask();
      if ok {
        Note(done);
      } else {
        Release();
      }
    }

    method EnsurePolicyPhase() returns (ok: bool)
      requires Valid() && !unlock
      modifies this
      ensures Agrees() ==> ok
      ensures Valid() && unlock == ok
      ensures ok ==> trace == old(trace) + Log(EnsurePolicy)
      ensures !ok ==> Cut(old(trace), Log(EnsurePolicy), trace)
    {
      ok := Acquire();
      if !ok {
        CutHere(old(trace), Log(EnsurePolicy), trace, 0);
        return;
      }
      ok := AskOrRelease(Other(EnsurePolicy));
      if !ok {
        CutHere(old(trace), Log(EnsurePolicy), trace, 1);
      }
    }

    method VerifyTopologyPhase() returns (ok: bool)
      requires Valid() && unlock
      modifies this
      ensures Agrees() ==> ok
      ensures Valid() && !unlock
      ensures ok ==> trace == old(trace) + Log(VerifyTopology)
      ensures !ok ==> Cut(old(trace), Log(VerifyTopology), trace)
    {
      ok := Ask();
      if ok {
        Note(Checked(Topology));
      }
      Release();
      if !ok {
        CutHere(old(trace), Log(VerifyTopology), trace, 0);
      }
    }

    /** Takes the lock again and looks at the record, the policy, the topology and the Compose
        input once more; any of them may give it back. */
    method Reacquire() returns (ok: bool)
      requires Valid() && !unlock
      modifies this
      ensures Agrees() ==> ok
      ensures Valid() && unlock == ok
      ensures ok ==> Fresh(trace) == ALL_CHECKS
      ensures ok ==>
                trace == old(trace) + [Acquired, Checked(Record), Checked(Policy), Checked(Topology), Checked(Inputs)]
      ensures !ok ==> Cut(old(trace), RECHECKED, trace)
    {
      hide Disciplined, Held, Fresh;
      ok := Acquire();
      if !ok {
        CutHere(old(trace), RECHECKED, trace, 0);
        return;
      }
      ok := AskOrRelease(Checked(Record));
      if !ok {
        CutHere(old(trace), RECHECKED, trace, 1);
        return;
      }
      ok := AskOrRelease(Checked(Policy));
      if !ok {
        CutHere(old(trace), RECHECKED, trace, 2);
        return;
      }
      ok := AskOrRelease(Checked(Topology));
      if !ok {
        CutHere(old(trace), RECHECKED, trace, 3);
        return;
      }
      ok := AskOrRelease(Checked(Inputs));
      if !ok {
        CutHere(old(trace), RECHECKED, trace, 4);
      }
    }

    method AttachNetworkPhase() returns (ok: bool)
      requires Valid() && !unlock
      modifies this
      ensures Agrees() ==> ok
      ensures Valid() && (ok ==> unlock)
      ensures ok ==> trace == old(trace) + Log(AttachNetwork)
      ensures !ok ==> Cut(old(trace), Log(AttachNetwork), trace)
    {
      ok := Reacquire();
      if !ok {
        CutEarlier(old(trace), RECHECKED, [CreateContainers], trace);
        return;
      }
      Note(CreateContainers);
      ok := Ask();
      if !ok {
        CutHere(old(trace), Log(AttachNetwork), trace, 6);
      }
    }

    method StartAuxPhase() returns (ok: bool)
      requires Valid() && unlock
      modifies this
      ensures Agrees() ==> ok
      ensures Valid() && !unlock
      ensures ok ==> trace == old(trace) + Log(StartAux)
      ensures !ok ==> Cut(old(trace), Log(StartAux), trace)
    {
      hide Disciplined, Fresh;
      Release();
      ok := Ask();
      if !ok {
        CutHere(old(trace), Log(StartAux), trace, 1);
        return;
      }
      Note(StartAuxiliary);
      ok := Ask();
      if !ok {
        CutHere(old(trace), Log(StartAux), trace, 2);
      }
    }

    method ComposeUpPhase() returns (ok: bool)
      requires Valid() && !unlock
      modifies this
      ensures Agrees() ==> ok
      ensures Valid() && (ok ==> unlock)
      ensures ok ==> trace == old(trace) + Log(ComposeUp)
      ensures !ok ==> Cut(old(trace), Log(ComposeUp), trace)
    {
      ok := Reacquire();
      if !ok {
        CutEarlier(old(trace), RECHECKED, [StartContainers], trace);
        return;
      }
      Note(StartContainers);
      ok := Ask();
      if !ok {
        CutHere(old(trace), Log(ComposeUp), trace, 6);
      }
    }

    method MarkReadyPhase() returns (ok: bool)
      requires Valid() && unlock
      modifies this
      ensures Agrees() ==> ok
      ensures Valid() && !unlock
      ensures ok ==> trace == old(trace) + Log(MarkReady)
      ensures !ok ==> trace == old(trace) + [Released]
    {
      hide Disciplined, Held, Fresh;
      ok := Ask();
      if ok {
        Note(Ready);
      }
      Release();
    }

    /** What a phase does, once the context is known to be alive. */
    method DoPhase(p: Phase) returns (ok: bool)
      requires Valid() && unlock == HeldBefore(p)
      modifies this
      ensures Agrees() ==> ok
      ensures Valid() && (ok ==> unlock == HeldAfter(p))
      ensures ok ==> trace == old(trace) + Log(p)
      ensures !ok ==> Cut(old(trace), Log(p), trace) && (p == MarkReady ==> trace == old(trace) + [Released])
    {
      hide Disciplined, Held, Fresh, Cut, Log;
      SimpleLog(p);
      match p {
        case EnsurePolicy => ok := EnsurePolicyPhase();
        case VerifyPolicy => ok := AskOrRelease(Checked(Policy));
        case EnsureTopology => ok := AskOrRelease(Other(EnsureTopology));
        case VerifyTopology => ok := VerifyTopologyPhase();
        case AttachNetwork => ok := AttachNetworkPhase();
        case StartAux => ok := StartAuxPhase();
        case ComposeUp => ok := ComposeUpPhase();
        case MarkReady => ok := MarkReadyPhase();
        case _ =>
          ok := Ask();
          if ok {
            Note(Other(p));
          }
      }
      if !ok && p != EnsurePolicy && p != VerifyTopology && p != AttachNetwork && p != StartAux && p != ComposeUp {
        NothingDone(old(trace), p, trace);
      }
    }

    /** Runs one phase, unless the context has been cancelled. */
    method RunPhase(p: Phase) returns (ok: bool)
      requires Valid() && unlock == HeldBefore(p)
      modifies this
      ensures Agrees() ==> ok
      ensures Valid() && (ok ==> unlock == HeldAfter(p))
      ensures ok ==> trace == old(trace) + Log(p)
      ensures !ok ==> Cut(old(trace), Log(p), trace)
      ensures !ok && p == MarkReady ==> trace == old(trace) || trace == old(trace) + [Released]
    {
      hide Disciplined, Held, Fresh, Log;
      ok := Ask();
      if !ok {
        CutHere(old(trace), Log(p), trace, 0);
        return;
      }
      ok := DoPhase(p);
    }

    /** Takes the project down and marks it, whatever the first of these reports. */
    method QuarantineFailure()
      requires Valid()
      modifies this
      ensures Valid() && !unlock
      ensures trace == old(trace) + GivenBack(old(trace)) + [TakeDown, PutInQuarantine]
    {
      hide Disciplined, Held, Fresh;
      Release();
      Note(TakeDown);
      var down := Ask();
      Release();
      Note(PutInQuarantine);
      var marked := Ask();
    }

    method RunPhases(phases: seq<Phase>) returns (ok: bool)
      requires Valid() && Runnable(phases) && unlock == HeldBefore(phases[0])
      modifies this
      ensures Agrees() ==> ok
      ensures Valid()
      ensures ok ==> unlock == HeldAfter(phases[|phases| - 1]) && trace == old(trace) + Logs(phases)
      ensures !ok ==> Cut(old(trace), Logs(phases), trace) && (Ready in trace ==> Ready in old(trace))
    {
      hide Disciplined, Held, Fresh, Log, Logs, Cut;
      var i := 0;
      LogsNone(phases);
      while i < |phases|
        invariant 0 <= i <= |phases| && Valid() && trace == old(trace) + Logs(phases[..i])
        invariant i < |phases| ==> unlock == HeldBefore(phases[i])
        invariant i == |phases| ==> unlock == HeldAfter(phases[|phases| - 1])
      {
        ghost var before := trace;
        ok := RunPhase(phases[i]);
        LogsNext(phases, i);
        if !ok {
          CutLater(old(trace), Logs(phases[..i]), Log(phases[i]), trace);
          LogsSplit(phases, i + 1);
          CutPrefix(old(trace), Logs(phases[..i + 1]), Logs(phases), trace);
          NotReady(old(trace), phases, i, before, trace);
          return;
        }
        i := i + 1;
      }
      assert phases[..i] == phases;
      ok := true;
    }

    /** The whole installation, for every pattern of failures: the discipline is kept and the
        lock is free at the end. Success leaves the one complete trace, and a failure leaves a
        beginning of it in which the service is not marked ready, gives the lock back if it is
        held there, and ends with the attempts to take the project down and to quarantine it. */
    method Install() returns (ok: bool)
      requires Valid() && !unlock && trace == []
      modifies this
      ensures Agrees() ==> ok
      ensures Disciplined(trace) && !Held(trace) && !unlock
      ensures ok <==> Ready in trace
      ensures ok ==> trace == COMPLETE
      ensures Admitted(trace)
      ensures !ok ==>
                exists k: nat :: k <= |COMPLETE| &&
                  trace == COMPLETE[..k] + GivenBack(COMPLETE[..k]) + [TakeDown, PutInQuarantine]
    {
      hide Disciplined, Held, Fresh, Logs, Cut, Admitted, GivenBack, COMPLETE;
      hide FIRST_PHASES, REMAINING_PHASES, Runnable, Agrees;
      FirstRunnable();
      RemainingRunnable();
      CompleteIsLogs();
      ReadyInComplete();
      FirstUnmarked();
      ghost var first, rest := Logs(FIRST_PHASES), Logs(REMAINING_PHASES);
      assert [] + first == first;
      ok := RunPhases(FIRST_PHASES);
      if ok {
        ok := Ask();
        if ok {
          ok := RunPhases(REMAINING_PHASES);
          if !ok {
            CutLater([], first, rest, trace);
          }
        } else {
          CutStart(first, trace);
          CutEarlier([], first, rest, trace);
        }
      } else {
        CutEarlier([], first, rest, trace);
      }
      if !ok {
        ghost var before := trace;
        NoReadyGivenBack(before);
        QuarantineFailure();
        AdmittedEnd(before, trace);
      } else {
        assert COMPLETE[..|COMPLETE|] + [] == COMPLETE;
        AdmittedIn(|COMPLETE|, []);
      }
    }
  }
}
