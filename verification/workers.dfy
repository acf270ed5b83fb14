/** The pool that scans all Compose services: one sender, some workers, an unbuffered channel of
    jobs and a channel of results with room for one result per service. Any schedule is a
    sequence of steps. */
module WorkerPool {

  datatype Worker = Idle | Received(job: string) | Scanning(job: string) | Sending(job: string) | Stopped

  datatype Result = Pending | Failed | Rows(services: seq<string>)

  /** next: how many services the sender has handed out; gaveUp: it saw the cancellation. */
  datatype Pool = Pool(
    names: seq<string>, next: nat, closed: bool, gaveUp: bool, cancelled: bool,
    workers: seq<Worker>, results: seq<string>, result: Result)

  datatype Step =
    | Cancel | Hand(w: nat) | GiveUp | CloseJobs | Start(w: nat) | ScanReturns(w: nat)
    | Deliver(w: nat) | Abort(w: nat) | NoMoreJobs(w: nat) | Return

  function Started(names: seq<string>, limit: int): Pool {
    var want := if limit < 1 then 1 else limit;
    var count := if want > |names| then |names| else want;
    Pool(names, 0, false, false, false, seq(count, i => Idle), [], Pending)
  }

  predicate Enabled(p: Pool, s: Step) {
    match s
    case Cancel => !p.cancelled
    case Hand(w) => !p.closed && p.next < |p.names| && w < |p.workers| && p.workers[w].Idle?
    case GiveUp => !p.closed && p.next < |p.names| && p.cancelled
    case CloseJobs => !p.closed && p.next == |p.names|
    case Start(w) => w < |p.workers| && p.workers[w].Received?
    case ScanReturns(w) => w < |p.workers| && p.workers[w].Scanning?
    case Deliver(w) => w < |p.workers| && p.workers[w].Sending? && |p.results| < |p.names|
    case Abort(w) => w < |p.workers| && p.workers[w].Sending? && p.cancelled
    case NoMoreJobs(w) => w < |p.workers| && p.workers[w].Idle? && p.closed
    case Return => p.closed && p.result.Pending? && forall w :: 0 <= w < |p.workers| ==> p.workers[w].Stopped?
  }

  function Take(p: Pool, s: Step): Pool
    requires Enabled(p, s)
  {
    match s
    case Cancel => p.(cancelled := true)
    case Hand(w) => p.(next := p.next + 1, workers := p.workers[w := Received(p.names[p.next])])
    case GiveUp => p.(closed := true, gaveUp := true)
    case CloseJobs => p.(closed := true)
    case Start(w) => p.(workers := p.workers[w := if p.cancelled then Stopped else Scanning(p.workers[w].job)])
    case ScanReturns(w) => p.(workers := p.workers[w := Sending(p.workers[w].job)])
    case Deliver(w) => p.(workers := p.workers[w := Idle], results := p.results + [p.workers[w].job])
    case Abort(w) => p.(workers := p.workers[w := Stopped])
    case NoMoreJobs(w) => p.(workers := p.workers[w := Stopped])
    case Return => p.(result := if p.gaveUp || p.cancelled then Failed else Rows(p.results))
  }

  /** A schedule that stops where no step is enabled; a disabled step is passed over. */
  function Schedule(p: Pool, steps: seq<Step>): Pool
    decreases |steps|
  {
    if steps == [] then p
    else Schedule(if Enabled(p, steps[0]) then Take(p, steps[0]) else p, steps[1..])
  }

  // ----- what every schedule keeps -----

  predicate Busy(w: Worker) {
    w.Received? || w.Scanning? || w.Sending?
  }

  /** Something that the workers have, added up. */
  function Sum(workers: seq<Worker>, f: Worker -> nat): nat {
    if workers == [] then 0 else f(workers[0]) + Sum(workers[1..], f)
  }

  const BUSY: Worker -> nat := (w: Worker) => if Busy(w) then 1 else 0

  function Holding(name: string): Worker -> nat {
    (w: Worker) => if Busy(w) && w.job == name then 1 else 0
  }

  function Count(s: seq<string>, name: string): nat {
    if s == [] then 0 else Count(s[..|s| - 1], name) + (if s[|s| - 1] == name then 1 else 0)
  }

  lemma {:induction false} SumUpdate(workers: seq<Worker>, w: nat, x: Worker, f: Worker -> nat)
    requires w < |workers|
    ensures Sum(workers[w := x], f) + f(workers[w]) == Sum(workers, f) + f(x)
    decreases |workers|
  {
    if w == 0 {
      assert workers[0 := x][1..] == workers[1..];
    } else {
      assert workers[w := x][1..] == workers[1..][w - 1 := x];
      SumUpdate(workers[1..], w - 1, x, f);
    }
  }

  lemma {:induction false} SumHas(workers: seq<Worker>, w: nat, f: Worker -> nat)
    requires w < |workers|
    ensures f(workers[w]) <= Sum(workers, f)
  {
    if w > 0 {
      SumHas(workers[1..], w - 1, f);
    }
  }

  lemma {:induction false} SumNone(workers: seq<Worker>, f: Worker -> nat)
    requires forall w :: 0 <= w < |workers| ==> f(workers[w]) == 0
    ensures Sum(workers, f) == 0
  {
    if workers != [] {
      SumNone(workers[1..], f);
    }
  }

  lemma CountSnoc(s: seq<string>, x: string, name: string)
    ensures Count(s + [x], name) == Count(s, name) + if x == name then 1 else 0
  {
    assert (s + [x])[..|s|] == s;
  }

  /** Every time a name was handed out, it is in one worker's hand, among the results, or,
      after a cancellation only, dropped. */
  predicate CountedFor(p: Pool, name: string)
    requires p.next <= |p.names|
  {
    var seen, handed := Count(p.results, name) + Sum(p.workers, Holding(name)), Count(p.names[..p.next], name);
    seen <= handed && (!p.cancelled ==> seen == handed)
  }

  ghost predicate Counted(p: Pool) {
    && p.next <= |p.names| && |p.results| + Sum(p.workers, BUSY) <= p.next
    && forall name :: CountedFor(p, name)
  }

  predicate AllStopped(p: Pool) {
    forall w :: 0 <= w < |p.workers| ==> p.workers[w].Stopped?
  }

  predicate Ordered(p: Pool) {
    && (p.names != [] ==> p.workers != [])
    && (p.gaveUp ==> p.cancelled)
    && (p.closed && !p.gaveUp ==> p.next == |p.names|)
    && (forall w :: 0 <= w < |p.workers| && p.workers[w].Stopped? ==> p.closed || p.cancelled)
    && (!p.result.Pending? ==> p.closed && AllStopped(p))
  }

  /** The rows of each service as often as it was asked for. */
  ghost predicate Complete(p: Pool) {
    p.result.Rows? ==> forall name :: Count(p.result.services, name) == Count(p.names, name)
  }

  ghost predicate Sound(p: Pool) {
    Counted(p) && Ordered(p) && Complete(p)
  }

  lemma StepBusy(p: Pool, s: Step)
    requires Enabled(p, s) && p.next <= |p.names| && |p.results| + Sum(p.workers, BUSY) <= p.next
    ensures var q := Take(p, s); q.next <= |q.names| && |q.results| + Sum(q.workers, BUSY) <= q.next
  {
    match s
    case Hand(w) => SumUpdate(p.workers, w, Received(p.names[p.next]), BUSY);
    case Start(w) => SumUpdate(p.workers, w, if p.cancelled then Stopped else Scanning(p.workers[w].job), BUSY);
    case ScanReturns(w) => SumUpdate(p.workers, w, Sending(p.workers[w].job), BUSY);
    case Deliver(w) => SumUpdate(p.workers, w, Idle, BUSY);
    case Abort(w) => SumUpdate(p.workers, w, Stopped, BUSY);
    case NoMoreJobs(w) => SumUpdate(p.workers, w, Stopped, BUSY);
    case _ =>
  }

  lemma StepCounted(p: Pool, s: Step, name: string)
    requires Enabled(p, s) && p.next <= |p.names| && CountedFor(p, name)
    ensures Take(p, s).next <= |p.names| && CountedFor(Take(p, s), name)
  {
    hide Count;
    var f := Holding(name);
    match s
    case Hand(w) =>
      SumUpdate(p.workers, w, Received(p.names[p.next]), f);
      assert p.names[..p.next + 1] == p.names[..p.next] + [p.names[p.next]];
      CountSnoc(p.names[..p.next], p.names[p.next], name);
    case Start(w) => SumUpdate(p.workers, w, if p.cancelled then Stopped else Scanning(p.workers[w].job), f);
    case ScanReturns(w) => SumUpdate(p.workers, w, Sending(p.workers[w].job), f);
    case Deliver(w) =>
      SumUpdate(p.workers, w, Idle, f);
      CountSnoc(p.results, p.workers[w].job, name);
    case Abort(w) => SumUpdate(p.workers, w, Stopped, f);
    case NoMoreJobs(w) => SumUpdate(p.workers, w, Stopped, f);
    case _ =>
  }

  lemma StepOrdered(p: Pool, s: Step)
    requires Ordered(p) && Enabled(p, s)
    ensures Ordered(Take(p, s)) && Take(p, s).names == p.names
  {
  }

  lemma ReturnComplete(p: Pool)
    requires Counted(p) && Ordered(p) && Enabled(p, Return)
    ensures Complete(Take(p, Return))
  {
    if !p.gaveUp && !p.cancelled {
      assert p.names[..p.next] == p.names;
      forall name ensures Count(p.results, name) == Count(p.names, name) {
        SumNone(p.workers, Holding(name));
        assert CountedFor(p, name);
      }
    }
  }

  lemma StepKeeps(p: Pool, s: Step)
    requires Sound(p) && Enabled(p, s)
    ensures Sound(Take(p, s)) && Take(p, s).names == p.names
  {
    StepBusy(p, s);
    StepOrdered(p, s);
    forall name ensures CountedFor(Take(p, s), name) {
      StepCounted(p, s, name);
    }
    if s.Return? {
      ReturnComplete(p);
    }
  }

  lemma StartSound(names: seq<string>, limit: int)
    ensures Sound(Started(names, limit))
  {
    var p := Started(names, limit);
    SumNone(p.workers, BUSY);
    forall name ensures CountedFor(p, name) {
      SumNone(p.workers, Holding(name));
    }
  }

  lemma {:induction false} ScheduleKeeps(p: Pool, steps: seq<Step>)
    requires Sound(p)
    ensures Sound(Schedule(p, steps)) && Schedule(p, steps).names == p.names
    decreases |steps|
  {
    hide Sound, Enabled, Take;
    if steps != [] {
      if Enabled(p, steps[0]) {
        StepKeeps(p, steps[0]);
        ScheduleKeeps(Take(p, steps[0]), steps[1..]);
      } else {
        ScheduleKeeps(p, steps[1..]);
      }
    }
  }

  // ----- it cannot get stuck, and it ends -----

  const WEIGHT: Worker -> nat := (w: Worker) =>
    if w.Received? then 4 else if w.Scanning? then 3 else if w.Sending? then 2 else if w.Idle? then 1 else 0

  /** Work ahead. */
  function Ahead(p: Pool): int {
    4 * (|p.names| - p.next) + Sum(p.workers, WEIGHT)
    + (if p.closed then 0 else 1) + (if p.result.Pending? then 1 else 0) + (if p.cancelled then 0 else 1)
  }

  /** Every step leaves less work, so every schedule is over after a bounded number of steps. */
  lemma StepsEnd(p: Pool, s: Step)
    requires Enabled(p, s) && p.next <= |p.names|
    ensures 0 <= Ahead(Take(p, s)) < Ahead(p)
  {
    match s
    case Hand(w) => SumUpdate(p.workers, w, Received(p.names[p.next]), WEIGHT);
    case Start(w) => SumUpdate(p.workers, w, if p.cancelled then Stopped else Scanning(p.workers[w].job), WEIGHT);
    case ScanReturns(w) => SumUpdate(p.workers, w, Sending(p.workers[w].job), WEIGHT);
    case Deliver(w) => SumUpdate(p.workers, w, Idle, WEIGHT);
    case Abort(w) => SumUpdate(p.workers, w, Stopped, WEIGHT);
    case NoMoreJobs(w) => SumUpdate(p.workers, w, Stopped, WEIGHT);
    case _ =>
  }

  /** Until it has returned, the pool can always move on without a cancellation, provided that
      a scan that was begun returns: there is room for every result, somebody takes every job,
      and everybody is told when there are no more. */
  lemma NeverStuck(p: Pool) returns (s: Step)
    requires Sound(p) && p.result.Pending? && p.names != []
    ensures Enabled(p, s) && s != Cancel
  {
    if w: nat :| w < |p.workers| && p.workers[w].Received? {
      s := Start(w);
    } else if w: nat :| w < |p.workers| && p.workers[w].Scanning? {
      s := ScanReturns(w);
    } else if w: nat :| w < |p.workers| && p.workers[w].Sending? {
      SumHas(p.workers, w, BUSY);
      s := Deliver(w);
    } else if !p.closed && p.next == |p.names| {
      s := CloseJobs;
    } else if w: nat :| w < |p.workers| && p.workers[w].Idle? {
      s := if p.closed then NoMoreJobs(w) else Hand(w);
    } else if p.closed {
      s := Return;
    } else {
      assert p.workers[0].Stopped?;
      s := GiveUp;
    }
  }

  /** Whatever the schedule, an error-free return has the rows of every service exactly as
      often as it was asked for. */
  lemma RowsOfEachServiceOnce(names: seq<string>, limit: int, steps: seq<Step>, name: string)
    requires Schedule(Started(names, limit), steps).result.Rows?
    ensures Count(Schedule(Started(names, limit), steps).result.services, name) == Count(names, name)
  {
    StartSound(names, limit);
    ScheduleKeeps(Started(names, limit), steps);
  }

  /** Without a cancellation a schedule that has returned has not failed. */
  lemma {:induction false} UncancelledReturnsRows(names: seq<string>, limit: int, steps: seq<Step>)
    requires Cancel !in steps && !Schedule(Started(names, limit), steps).result.Pending?
    ensures Schedule(Started(names, limit), steps).result.Rows?
  {
    UncancelledStays(Started(names, limit), steps);
  }

  predicate Calm(p: Pool) {
    !p.cancelled && !p.gaveUp && !p.result.Failed?
  }

  lemma {:induction false} UncancelledStays(p: Pool, steps: seq<Step>)
    requires Cancel !in steps && Calm(p)
    ensures Calm(Schedule(p, steps))
    decreases |steps|
  {
    if steps != [] {
      assert steps[0] != Cancel && forall s :: s in steps[1..] ==> s in steps;
      UncancelledStays(if Enabled(p, steps[0]) then Take(p, steps[0]) else p, steps[1..]);
    }
  }

  /** Once cancelled, a pool that has not returned yet fails and begins no further scan. */
  lemma {:induction false} CancelledFails(p: Pool, steps: seq<Step>)
    requires p.cancelled && !p.result.Rows?
    ensures var q := Schedule(p, steps);
            && !q.result.Rows? && |q.workers| == |p.workers|
            && forall w :: 0 <= w < |p.workers| && q.workers[w].Scanning? ==> q.workers[w] == p.workers[w]
    decreases |steps|
  {
    if steps != [] {
      CancelledFails(if Enabled(p, steps[0]) then Take(p, steps[0]) else p, steps[1..]);
    }
  }

  /** There are as many workers as allowed, at least one, and no more than services, throughout. */
  lemma {:induction false} WorkersBounded(names: seq<string>, limit: int, steps: seq<Step>)
    ensures var n := |Schedule(Started(names, limit), steps).workers|;
            && n <= |names| && (n <= limit || n <= 1)
            && (n == |names| || n == limit || (limit < 1 && n == 1))
  {
    WorkersStay(Started(names, limit), steps);
  }

  lemma {:induction false} WorkersStay(p: Pool, steps: seq<Step>)
    ensures |Schedule(p, steps).workers| == |p.workers|
    decreases |steps|
  {
    if steps != [] {
      WorkersStay(if Enabled(p, steps[0]) then Take(p, steps[0]) else p, steps[1..]);
    }
  }
}
