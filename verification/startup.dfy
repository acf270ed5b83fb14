/** What a starting Catch finds in the journals below its data dir. Journals name their own
    source and target copies, and the scan follows these names. */
module Startup {
  import opened Artifacts
  import opened Transaction

  datatype Config = Config(root: string, servicesRoot: string)

  /** Where the journal of a transaction lies below a data dir. */
  datatype Location = At(root: string, id: string)

  /** The part of a journal that startup reads. */
  datatype Journal = Journal(
    id: string, source: Location, target: Option<Location>, phase: Phase, authority: Side, current: Config)

  datatype File = Broken | Written(tx: Journal)

  type Disk = map<Location, File>

  datatype Verdict = NothingToRecover | Unfinished(tx: Journal) | Unreadable

  /** A journal lies under its own id and names its places: the source below the data dir it
      moves from, the target, if any, below another one. */
  predicate Placed(p: Location, tx: Journal) {
    && tx.id == p.id && tx.source == At(tx.current.root, p.id)
    && (tx.target.Some? ==> tx.target.value.id == p.id && tx.target.value != tx.source)
  }

  /** The place where it was found is one of those it names. */
  predicate NamesPlace(p: Location, tx: Journal) {
    p == tx.source || tx.target == Some(p)
  }

  /** A file that is malformed, or that names other places, is refused. */
  function Load(disk: Disk, path: Location): Option<Journal> {
    if path in disk && disk[path].Written? && Placed(path, disk[path].tx) && NamesPlace(path, disk[path].tx)
    then Some(disk[path].tx) else None
  }

  /** A journal found elsewhere defers to the one at the path it names as its source. */
  function Authoritative(disk: Disk, path: Location): Option<Journal> {
    match Load(disk, path)
    case None => None
    case Some(tx) =>
      if path == tx.source then Some(tx)
      else
        match Load(disk, tx.source)
        case None => None
        case Some(other) => if other.id == tx.id then Some(other) else None
  }

  predicate Counterpart(disk: Disk, tx: Journal, path: Location) {
    (path == tx.source || tx.target == Some(path)) && path in disk
  }

  /** The transaction behind this path needs no recovery. */
  predicate Settled(disk: Disk, path: Location) {
    Authoritative(disk, path).Some? && Terminal(Authoritative(disk, path).value.phase)
  }

  /** Following the names from the listed paths leads here. */
  ghost predicate Reached(disk: Disk, listed: seq<Location>, path: Location, steps: nat)
    decreases steps, 1
  {
    if steps == 0 then path in listed
    else exists via: Location :: Leads(disk, listed, via, path, steps)
  }

  ghost predicate Leads(disk: Disk, listed: seq<Location>, via: Location, path: Location, steps: nat)
    requires steps > 0
    decreases steps, 0
  {
    && Reached(disk, listed, via, steps - 1)
    && Authoritative(disk, via).Some? && Counterpart(disk, Authoritative(disk, via).value, path)
  }

  /** A journal that another one names as its source names itself as its source. */
  predicate SelfNamed(disk: Disk) {
    forall p :: p in disk && Load(disk, p).Some? ==>
      var s := Load(disk, p).value.source;
      Load(disk, s).Some? ==> Load(disk, s).value.source == s
  }

  /** The path is settled, and what it names has been seen or is queued. */
  ghost predicate Done(disk: Disk, seen: set<Location>, queue: seq<Location>, path: Location) {
    && Settled(disk, path)
    && forall c :: Counterpart(disk, Authoritative(disk, path).value, c) ==> c in seen || c in queue
  }

  ghost predicate Explored(disk: Disk, seen: set<Location>, queue: seq<Location>) {
    forall p :: p in seen ==> Done(disk, seen, queue, p)
  }

  ghost predicate AllReached(disk: Disk, listed: seq<Location>, queue: seq<Location>) {
    forall p :: p in queue ==> exists n: nat :: Reached(disk, listed, p, n)
  }

  lemma {:induction false} ExploredIsAll(disk: Disk, listed: seq<Location>, seen: set<Location>, path: Location,
                                         steps: nat)
    requires Explored(disk, seen, []) && (forall p :: p in listed ==> p in seen)
    requires Reached(disk, listed, path, steps)
    ensures path in seen
    decreases steps
  {
    if steps > 0 {
      var via :| Leads(disk, listed, via, path, steps);
      ExploredIsAll(disk, listed, seen, via, steps - 1);
    }
  }

  /** The journals that a transaction names and that exist, in the order source, target. */
  function Pending(disk: Disk, tx: Journal, seen: set<Location>): (r: seq<Location>)
    ensures forall c :: c in r <==> Counterpart(disk, tx, c) && c !in seen
  {
    (if tx.source in disk && tx.source !in seen then [tx.source] else [])
    + (if tx.target.Some? && tx.target.value in disk && tx.target.value !in seen then [tx.target.value] else [])
  }

  lemma SourceSettles(disk: Disk, path: Location)
    requires SelfNamed(disk) && Authoritative(disk, path).Some?
    ensures Authoritative(disk, Authoritative(disk, path).value.source) == Authoritative(disk, path)
    ensures Load(disk, path).Some? && Load(disk, path).value.source == Authoritative(disk, path).value.source
  {
  }

  /** Exploring one more path keeps what was explored. */
  lemma ExploreOne(disk: Disk, seen: set<Location>, path: Location, queue: seq<Location>, seen': set<Location>,
                   queue': seq<Location>)
    requires SelfNamed(disk) && Explored(disk, seen, [path] + queue) && Settled(disk, path)
    requires var tx := Authoritative(disk, path).value;
             seen' == seen + {path} + {tx.source} && queue' == queue + Pending(disk, tx, seen')
    ensures Explored(disk, seen', queue')
  {
    var tx := Authoritative(disk, path).value;
    SourceSettles(disk, path);
    forall p | p in seen' ensures Done(disk, seen', queue', p) {
      if p in seen {
        assert Done(disk, seen, [path] + queue, p);
      }
    }
  }

  lemma ReachMore(disk: Disk, listed: seq<Location>, path: Location, n: nat, c: Location)
    requires Reached(disk, listed, path, n)
    requires Authoritative(disk, path).Some? && Counterpart(disk, Authoritative(disk, path).value, c)
    ensures Reached(disk, listed, c, n + 1)
  {
    assert Leads(disk, listed, path, c, n + 1);
  }

  lemma AllReachedGrows(disk: Disk, listed: seq<Location>, path: Location, queue: seq<Location>, more: seq<Location>)
    requires AllReached(disk, listed, [path] + queue) && Authoritative(disk, path).Some?
    requires forall c :: c in more ==> Counterpart(disk, Authoritative(disk, path).value, c)
    ensures AllReached(disk, listed, queue + more)
  {
    assert path in [path] + queue;
    var n: nat :| Reached(disk, listed, path, n);
    forall p | p in queue + more ensures exists m: nat :: Reached(disk, listed, p, m) {
      if p in queue {
        assert p in [path] + queue;
      } else {
        ReachMore(disk, listed, path, n, p);
      }
    }
  }

  /** Everything that the names lead to needs no recovery. */
  ghost predicate AllSettled(disk: Disk, listed: seq<Location>) {
    forall p, n: nat :: Reached(disk, listed, p, n) ==> Settled(disk, p)
  }

  /** Everything that the names lead to can be read. */
  ghost predicate AllReadable(disk: Disk, listed: seq<Location>) {
    forall p, n: nat :: Reached(disk, listed, p, n) ==> Authoritative(disk, p).Some?
  }

  /** The worklist of journals. It ends, because a path is opened once; it finds nothing
      exactly when nothing that the names lead to is unfinished or unreadable. It reports a
      journal as unreadable only if one is, so where all can be read and one is unfinished it
      reports an unfinished transaction. */
  method Scan(disk: Disk, listed: seq<Location>) returns (verdict: Verdict)
    ensures AllSettled(disk, listed) ==> verdict.NothingToRecover?
    ensures SelfNamed(disk) && verdict.NothingToRecover? ==> AllSettled(disk, listed)
    ensures verdict.Unfinished? ==>
              !Terminal(verdict.tx.phase) &&
              exists p, n: nat :: Reached(disk, listed, p, n) && Authoritative(disk, p) == Some(verdict.tx)
    ensures verdict.Unreadable? ==>
              exists p, n: nat :: Reached(disk, listed, p, n) && Authoritative(disk, p).None?
    ensures SelfNamed(disk) && AllReadable(disk, listed) && !AllSettled(disk, listed) ==> verdict.Unfinished?
  {
    var queue, seen: set<Location> := listed, {};
    assert forall p :: p in queue ==> Reached(disk, listed, p, 0);
    while queue != []
      invariant forall p :: p in listed ==> p in seen || p in queue
      invariant SelfNamed(disk) ==> Explored(disk, seen, queue)
      invariant AllReached(disk, listed, queue)
      decreases disk.Keys - seen, |queue|
    {
      var path, rest := queue[0], queue[1..];
      assert queue == [path] + rest && path in queue;
      if path in seen {
        assert forall p :: p in rest ==> p in queue;
        queue := rest;
        continue;
      }
      ghost var n: nat :| Reached(disk, listed, path, n);
      var found := Authoritative(disk, path);
      if found.None? {
        return Unreadable;
      }
      var tx := found.value;
      ghost var before := seen;
      seen := seen + {path} + {Load(disk, path).value.source};
      var more := Pending(disk, tx, seen);
      if !Terminal(tx.phase) {
        return Unfinished(tx);
      }
      if SelfNamed(disk) {
        SourceSettles(disk, path);
        ExploreOne(disk, before, path, rest, seen, rest + more);
      }
      AllReachedGrows(disk, listed, path, rest, more);
      assert path in disk.Keys - before;
      queue := rest + more;
    }
    if SelfNamed(disk) {
      forall p, n: nat | Reached(disk, listed, p, n) ensures Settled(disk, p) {
        ExploredIsAll(disk, listed, seen, p, n);
      }
    }
    return NothingToRecover;
  }

  /** A listed file that lies under another id than its own, or does not name its own data dir
      as its source, or names a target with another id or in the same place, is refused, so a
      start that finds it is held up. */
  lemma MisplacedHoldsUp(disk: Disk, listed: seq<Location>, p: Location)
    requires p in listed
    requires p !in disk || disk[p].Broken? ||
             var tx := disk[p].tx;
             || tx.id != p.id || tx.source != At(tx.current.root, p.id)
             || (tx.target.Some? && (tx.target.value.id != p.id || tx.target.value == tx.source))
             || (p != tx.source && tx.target != Some(p))
    ensures Load(disk, p).None? && !AllSettled(disk, listed) && !AllReadable(disk, listed)
  {
    assert Reached(disk, listed, p, 0);
  }

  // ----- journals as the migrations write them -----

  /** All journals of one id are versions of one transaction. */
  predicate WellKept(disk: Disk) {
    forall p, q :: p in disk && q in disk && disk[p].Written? && disk[q].Written? ==>
      && Placed(p, disk[p].tx)
      && (p.id == q.id ==> disk[p].tx.source == disk[q].tx.source && disk[p].tx.target == disk[q].tx.target)
  }

  lemma WellKeptIsSelfNamed(disk: Disk)
    requires WellKept(disk)
    ensures SelfNamed(disk)
  {
  }

  /** One write of one copy, by a transaction that is new or already there. */
  lemma WriteKeepsOrder(disk: Disk, p: Location, tx: Journal)
    requires WellKept(disk) && Placed(p, tx)
    requires forall q :: q in disk && disk[q].Written? && q.id == p.id ==>
               disk[q].tx.source == tx.source && disk[q].tx.target == tx.target
    ensures WellKept(disk[p := Written(tx)])
  {
  }

  /** Copying the data dir carries the journals of earlier migrations along. */
  lemma CopyKeepsOrder(disk: Disk, from: string, to: string, copied: set<string>)
    requires WellKept(disk)
    ensures WellKept(Copied(disk, from, to, copied))
  {
  }

  /** The journals with these ids below one data dir are now below another one, too. */
  function Copied(disk: Disk, from: string, to: string, ids: set<string>): Disk {
    disk + map id | id in ids && At(from, id) in disk :: At(to, id) := disk[At(from, id)]
  }

  /** The file is readable where it is, its source journal is there and as wanted, and its
      target journal, if there is one, is readable. */
  predicate OkAt(disk: Disk, p: Location, good: Journal -> bool) {
    && p in disk && disk[p].Written?
    && var tx := disk[p].tx;
    && NamesPlace(p, tx)
    && tx.source in disk && disk[tx.source].Written? && good(disk[tx.source].tx)
    && (tx.target.Some? && tx.target.value in disk ==> disk[tx.target.value].Written?)
  }

  const OVER: Journal -> bool := (tx: Journal) => Terminal(tx.phase)

  /** A start that finds this journal is not held up by its transaction. */
  predicate StartsClear(disk: Disk, p: Location) {
    OkAt(disk, p, OVER)
  }

  /** Everything that the names lead to is readable and as wanted. */
  ghost predicate AllFound(disk: Disk, listed: seq<Location>, good: Journal -> bool) {
    forall p, n: nat :: Reached(disk, listed, p, n) ==>
      Authoritative(disk, p).Some? && good(Authoritative(disk, p).value)
  }

  lemma OkIsFound(disk: Disk, p: Location, good: Journal -> bool)
    requires WellKept(disk) && OkAt(disk, p, good)
    ensures Authoritative(disk, p).Some? && good(Authoritative(disk, p).value)
    ensures forall c :: Counterpart(disk, Authoritative(disk, p).value, c) ==> OkAt(disk, c, good)
  {
    var tx := disk[p].tx;
    assert Placed(p, tx) && Placed(tx.source, disk[tx.source].tx);
    forall c | Counterpart(disk, Authoritative(disk, p).value, c) ensures OkAt(disk, c, good) {
      assert Placed(c, disk[c].tx);
    }
  }

  lemma {:induction false} OkReaches(disk: Disk, listed: seq<Location>, good: Journal -> bool, p: Location, n: nat)
    requires WellKept(disk) && (forall q :: q in listed ==> OkAt(disk, q, good))
    requires Reached(disk, listed, p, n)
    ensures OkAt(disk, p, good)
    decreases n
  {
    if n > 0 {
      var via :| Leads(disk, listed, via, p, n);
      OkReaches(disk, listed, good, via, n - 1);
      OkIsFound(disk, via, good);
    }
  }

  lemma FoundIsOk(disk: Disk, listed: seq<Location>, good: Journal -> bool, p: Location)
    requires WellKept(disk) && p in listed && AllFound(disk, listed, good)
    ensures OkAt(disk, p, good)
  {
    assert Reached(disk, listed, p, 0);
    var tx := disk[p].tx;
    assert Placed(p, tx);
    if tx.target.Some? && tx.target.value in disk {
      ReachMore(disk, listed, p, 0, tx.target.value);
      assert Authoritative(disk, tx.target.value).Some?;
    }
  }

  lemma AllFoundIffEachOk(disk: Disk, listed: seq<Location>, good: Journal -> bool)
    requires WellKept(disk)
    ensures AllFound(disk, listed, good) <==> forall p :: p in listed ==> OkAt(disk, p, good)
  {
    if forall p :: p in listed ==> OkAt(disk, p, good) {
      forall p, n: nat | Reached(disk, listed, p, n)
        ensures Authoritative(disk, p).Some? && good(Authoritative(disk, p).value)
      {
        OkReaches(disk, listed, good, p, n);
        OkIsFound(disk, p, good);
      }
    }
    if AllFound(disk, listed, good) {
      forall p | p in listed ensures OkAt(disk, p, good) {
        FoundIsOk(disk, listed, good, p);
      }
    }
  }

  /** What a start asks of the journals below its data dir, journal by journal. */
  lemma AllSettledIffEachClear(disk: Disk, listed: seq<Location>)
    requires WellKept(disk)
    ensures AllSettled(disk, listed) <==> forall p :: p in listed ==> StartsClear(disk, p)
  {
    AllFoundIffEachOk(disk, listed, OVER);
    forall p, n: nat | Reached(disk, listed, p, n)
      ensures Settled(disk, p) <==> Authoritative(disk, p).Some? && OVER(Authoritative(disk, p).value)
    {
    }
    assert AllSettled(disk, listed) <==> AllFound(disk, listed, OVER);
  }

  /** Whether this file, copied below the data dir to, lets a start there through. Either the
      data dir moves back to where that migration came from, and the copy says that all is
      over; or it moves to where that migration led, and the source journal says so. */
  predicate CopyStartsClear(disk: Disk, to: string, file: File) {
    && file.Written?
    && var tx := file.tx;
    || (to == tx.current.root && Terminal(tx.phase) &&
        (tx.target.Some? && tx.target.value in disk ==> disk[tx.target.value].Written?))
    || (tx.target.Some? && to == tx.target.value.root &&
        tx.source in disk && disk[tx.source].Written? && Terminal(disk[tx.source].tx.phase))
  }

  predicate IsCopied(disk: Disk, from: string, ids: set<string>, id: string) {
    id in ids && At(from, id) in disk
  }

  lemma CopiedClearIff(disk: Disk, from: string, to: string, ids: set<string>, id: string)
    requires WellKept(disk) && IsCopied(disk, from, ids, id)
    ensures StartsClear(Copied(disk, from, to, ids), At(to, id)) <==> CopyStartsClear(disk, to, disk[At(from, id)])
  {
    var later := Copied(disk, from, to, ids);
    assert At(to, id) in later && later[At(to, id)] == disk[At(from, id)];
    if disk[At(from, id)].Written? {
      var tx := disk[At(from, id)].tx;
      assert Placed(At(from, id), tx);
      if tx.source.root != to {
        CopiedElsewhere(disk, from, to, ids, tx.source);
      }
      if tx.target.Some? && tx.target.value.root != to {
        CopiedElsewhere(disk, from, to, ids, tx.target.value);
      }
    }
  }

  lemma CopiedElsewhere(disk: Disk, from: string, to: string, ids: set<string>, p: Location)
    requires p.root != to || !IsCopied(disk, from, ids, p.id)
    ensures var later := Copied(disk, from, to, ids); (p in later <==> p in disk) && (p in disk ==> later[p] == disk[p])
  {
  }

  lemma OtherClearIff(disk: Disk, from: string, to: string, ids: set<string>, p: Location)
    requires WellKept(disk) && !IsCopied(disk, from, ids, p.id)
    ensures StartsClear(Copied(disk, from, to, ids), p) <==> StartsClear(disk, p)
  {
    CopiedElsewhere(disk, from, to, ids, p);
    if p in disk && disk[p].Written? {
      var tx := disk[p].tx;
      assert Placed(p, tx);
      CopiedElsewhere(disk, from, to, ids, tx.source);
      if tx.target.Some? {
        CopiedElsewhere(disk, from, to, ids, tx.target.value);
      }
    }
  }

  /** What lies at this place after the copy lets a start through. */
  predicate LetsIn(disk: Disk, from: string, to: string, ids: set<string>, p: Location) {
    if IsCopied(disk, from, ids, p.id) then CopyStartsClear(disk, to, disk[At(from, p.id)])
    else p in disk ==> StartsClear(disk, p)
  }

  lemma MovedClearIff(disk: Disk, from: string, to: string, ids: set<string>, p: Location)
    requires WellKept(disk) && p.root == to
    ensures var later := Copied(disk, from, to, ids);
            (p in later ==> StartsClear(later, p)) <==> LetsIn(disk, from, to, ids, p)
  {
    if IsCopied(disk, from, ids, p.id) {
      assert p == At(to, p.id) && p in Copied(disk, from, to, ids);
      CopiedClearIff(disk, from, to, ids, p.id);
    } else {
      CopiedElsewhere(disk, from, to, ids, p);
      OtherClearIff(disk, from, to, ids, p);
    }
  }

  lemma LetsInEach(disk: Disk, from: string, to: string, ids: set<string>)
    ensures (forall p: Location :: p.root == to ==> LetsIn(disk, from, to, ids, p)) <==>
              && (forall id :: IsCopied(disk, from, ids, id) ==> CopyStartsClear(disk, to, disk[At(from, id)]))
              && (forall p :: p in disk && p.root == to && !IsCopied(disk, from, ids, p.id) ==> StartsClear(disk, p))
  {
    hide CopyStartsClear, StartsClear;
    if forall p: Location :: p.root == to ==> LetsIn(disk, from, to, ids, p) {
      forall id | IsCopied(disk, from, ids, id) ensures CopyStartsClear(disk, to, disk[At(from, id)]) {
        assert LetsIn(disk, from, to, ids, At(to, id));
      }
      forall p | p in disk && p.root == to && !IsCopied(disk, from, ids, p.id) ensures StartsClear(disk, p) {
        assert LetsIn(disk, from, to, ids, p);
      }
    }
  }

  /** Exactly when Catch starts clearly on a data dir that was copied: every journal that was
      taken along is one of a migration that came from there or led there, and is over; and
      the journals that were there already let a start through, too. */
  lemma MovedStartClearIff(disk: Disk, from: string, to: string, ids: set<string>, listed: seq<Location>)
    requires WellKept(disk)
    requires forall p :: p in listed <==> p in Copied(disk, from, to, ids) && p.root == to
    ensures AllSettled(Copied(disk, from, to, ids), listed) <==>
              && (forall id :: IsCopied(disk, from, ids, id) ==> CopyStartsClear(disk, to, disk[At(from, id)]))
              && (forall p :: p in disk && p.root == to && !IsCopied(disk, from, ids, p.id) ==> StartsClear(disk, p))
  {
    var later := Copied(disk, from, to, ids);
    CopyKeepsOrder(disk, from, to, ids);
    AllSettledIffEachClear(later, listed);
    forall p: Location | p.root == to
      ensures (p in later ==> StartsClear(later, p)) <==> LetsIn(disk, from, to, ids, p)
    {
      MovedClearIff(disk, from, to, ids, p);
    }
    LetsInEach(disk, from, to, ids);
    hide LetsIn, StartsClear, AllSettled, Copied, WellKept;
  }

  /** So a data dir that is moved a second time, or to another place after a rollback, takes
      along a finished journal that keeps every later start on the new data dir from being
      clear. */
  lemma MovedAgainBlocksStartup(disk: Disk, from: string, to: string, ids: set<string>, id: string,
                                listed: seq<Location>)
    requires WellKept(disk) && IsCopied(disk, from, ids, id) && disk[At(from, id)].Written?
    requires var tx := disk[At(from, id)].tx;
             to != tx.current.root && (tx.target.Some? ==> to != tx.target.value.root)
    requires At(to, id) in listed
    ensures !AllSettled(Copied(disk, from, to, ids), listed)
  {
    CopyKeepsOrder(disk, from, to, ids);
    AllSettledIffEachClear(Copied(disk, from, to, ids), listed);
    CopiedClearIff(disk, from, to, ids, id);
  }

  /** A host that was moved from /a to /b, and then on to /c. */
  lemma MovedAgainExample()
    ensures var source, target := At("/a", "1"), At("/b", "1");
            var tx := Journal("1", source, Some(target), CleanupPending, Target, Config("/a", "/s"));
            var disk: Disk := map[source := Written(tx), target := Written(tx)];
            && WellKept(disk) && AllSettled(disk, [target])
            && !AllSettled(Copied(disk, "/b", "/c", {"1"}), [At("/c", "1")])
  {
    var source, target := At("/a", "1"), At("/b", "1");
    var tx := Journal("1", source, Some(target), CleanupPending, Target, Config("/a", "/s"));
    var disk: Disk := map[source := Written(tx), target := Written(tx)];
    assert "/c"[1] == 'c' && "/a"[1] == 'a' && "/b"[1] == 'b';
    AllSettledIffEachClear(disk, [target]);
    MovedAgainBlocksStartup(disk, "/b", "/c", {"1"}, "1", [At("/c", "1")]);
  }

  // ----- one verdict on either data dir -----

  lemma {:induction false} OnlyTheTwo(disk: Disk, tx: Journal, x: Location, p: Location, n: nat)
    requires WellKept(disk) && tx.source in disk && disk[tx.source] == Written(tx)
    requires x == tx.source || tx.target == Some(x)
    requires Reached(disk, [x], p, n)
    ensures p == tx.source || tx.target == Some(p)
    decreases n
  {
    if n > 0 {
      var via :| Leads(disk, [x], via, p, n);
      OnlyTheTwo(disk, tx, x, via, n - 1);
      assert Placed(tx.source, tx);
    }
  }

  /** While the source journal is there, starting on the source or on the target data dir
      reaches the same verdict on the transaction: that of the source journal. */
  lemma SameVerdictOnEitherRoot(disk: Disk, tx: Journal, x: Location)
    requires WellKept(disk) && tx.source in disk && disk[tx.source] == Written(tx)
    requires tx.target.Some? && tx.target.value in disk ==> disk[tx.target.value].Written?
    requires x in disk && disk[x].Written? && (x == tx.source || tx.target == Some(x))
    ensures AllSettled(disk, [x]) <==> Terminal(tx.phase)
    ensures Authoritative(disk, x) == Some(tx)
  {
    assert Placed(tx.source, tx) && Placed(x, disk[x].tx);
    assert Reached(disk, [x], x, 0);
    if Terminal(tx.phase) {
      forall p, n: nat | Reached(disk, [x], p, n) ensures Settled(disk, p) {
        OnlyTheTwo(disk, tx, x, p, n);
        ReachedExists(disk, [x], p, n);
        assert Placed(p, disk[p].tx);
      }
    } else {
      Unsettled(disk, [x], x, 0);
    }
  }

  lemma ReachedExists(disk: Disk, listed: seq<Location>, p: Location, n: nat)
    requires Reached(disk, listed, p, n) && forall q :: q in listed ==> q in disk
    ensures p in disk
  {
  }

  // ----- completing hand-overs at startup -----

  /** How one attempt to advance the journal turns out. */
  datatype Answer = Answer(sourceOk: bool, sourceDone: bool, targetReady: bool, targetOk: bool, targetDone: bool)

  function Finished(tx: Journal): Journal {
    tx.(phase := RolledBack, authority := Source)
  }

  predicate HandedOver(tx: Journal, config: Config) {
    tx.phase == SourceRestartPending && tx.current == config
  }

  /** Writes both copies; the second only if the first was written. */
  function Advanced(disk: Disk, tx: Journal, a: Answer): (r: (Disk, bool)) {
    var first := if a.sourceOk || a.sourceDone then disk[tx.source := Written(Finished(tx))] else disk;
    if !a.sourceOk then (first, false)
    else if tx.target.None? || !a.targetReady then (first, true)
    else (if a.targetOk || a.targetDone then first[tx.target.value := Written(Finished(tx))] else first, a.targetOk)
  }

  /** A hand-over that is completed without an error is rolled back under the source in both
      copies, the target's where it can be reached; no other file is touched, and the target's
      not before the source's is written. */
  lemma AdvanceWrites(disk: Disk, tx: Journal, a: Answer)
    ensures var (d, ok) := Advanced(disk, tx, a); var done := tx.(phase := RolledBack, authority := Source);
            && (forall p :: p in disk && p != tx.source && tx.target != Some(p) ==> p in d && d[p] == disk[p])
            && d.Keys <= disk.Keys + {tx.source} + (if tx.target.Some? then {tx.target.value} else {})
            && (ok ==> tx.source in d && (tx.target != Some(tx.source) ==> d[tx.source] == Written(done)))
            && (ok && tx.target.Some? && a.targetReady ==>
                  tx.target.value in d && d[tx.target.value] == Written(done))
            && (!a.sourceOk && tx.target.Some? && tx.target.value != tx.source ==>
                  (tx.target.value in d <==> tx.target.value in disk) &&
                  (tx.target.value in disk ==> d[tx.target.value] == disk[tx.target.value]))
            && (ok <==> a.sourceOk && (tx.target.Some? && a.targetReady ==> a.targetOk))
  {
  }

  /** The journals that record a hand-over. */
  function Waiting(disk: Disk): set<Location> {
    set p | p in disk && disk[p].Written? && disk[p].tx.phase == SourceRestartPending
  }

  lemma AdvanceEndsOne(disk: Disk, path: Location, tx: Journal, a: Answer)
    requires WellKept(disk) && Authoritative(disk, path) == Some(tx) && tx.phase == SourceRestartPending
    ensures WellKept(Advanced(disk, tx, a).0)
    ensures Waiting(Advanced(disk, tx, a).0) <= Waiting(disk)
    ensures Advanced(disk, tx, a).1 ==> Waiting(Advanced(disk, tx, a).0) < Waiting(disk)
  {
    WellKeptIsSelfNamed(disk);
    assert disk[tx.source] == Written(tx);
    var first := disk[tx.source := Written(Finished(tx))];
    WriteKeepsOrder(disk, tx.source, Finished(tx));
    if tx.target.Some? {
      WriteKeepsOrder(first, tx.target.value, Finished(tx));
    }
    assert tx.source in Waiting(disk) && tx.source !in Waiting(first);
  }

  /** The later disk differs only in journals that now say rolled back under the source. */
  predicate OnlyFinished(disk: Disk, later: Disk, config: Config) {
    forall p :: p in later ==> (p in disk && later[p] == disk[p]) || FinishedFor(later[p], config)
  }

  predicate FinishedFor(file: File, config: Config) {
    file.Written? && file.tx.phase == RolledBack && file.tx.authority == Source && file.tx.current == config
  }

  lemma AdvanceOnlyFinishes(disk: Disk, now: Disk, tx: Journal, a: Answer, config: Config)
    requires OnlyFinished(disk, now, config) && tx.current == config
    ensures OnlyFinished(disk, Advanced(now, tx, a).0, config)
  {
  }

  lemma Unsettled(disk: Disk, listed: seq<Location>, p: Location, n: nat)
    requires Reached(disk, listed, p, n) && !Settled(disk, p)
    ensures !AllSettled(disk, listed)
  {
  }

  /** The directory listing: the journals that lie below one data dir. */
  ghost predicate ListsBelow(list: Disk -> seq<Location>, root: string) {
    forall disk: Disk :: forall p :: p in list(disk) <==> p in disk && p.root == root
  }

  predicate AllWell(a: Answer) {
    a.sourceOk && a.targetOk
  }

  /** Over, or a hand-over to this configuration. */
  function Waived(config: Config): Journal -> bool {
    (tx: Journal) => Terminal(tx.phase) || (tx.phase == SourceRestartPending && tx.current == config)
  }

  /** Completing one hand-over leaves nothing else unfinished. */
  lemma AdvanceLeavesWaived(disk: Disk, tx: Journal, a: Answer, config: Config, list: Disk -> seq<Location>)
    requires WellKept(disk) && ListsBelow(list, config.root) && AllWell(a)
    requires tx.source in disk && disk[tx.source] == Written(tx) && HandedOver(tx, config)
    requires forall p :: p in list(disk) ==> OkAt(disk, p, Waived(config))
    ensures var d := Advanced(disk, tx, a).0; forall p :: p in list(d) ==> OkAt(d, p, Waived(config))
  {
    var d := Advanced(disk, tx, a).0;
    assert Placed(tx.source, tx);
    forall p | p in list(d) ensures OkAt(d, p, Waived(config)) {
      assert p in d && p.root == config.root;
      assert p in disk && p in list(disk);
      assert Placed(p, disk[p].tx) && OkAt(disk, p, Waived(config));
      WaivedAfter(disk, tx, a, config, p);
    }
  }

  lemma WaivedAfter(disk: Disk, tx: Journal, a: Answer, config: Config, p: Location)
    requires WellKept(disk) && tx.source in disk && disk[tx.source] == Written(tx) && HandedOver(tx, config)
    requires OkAt(disk, p, Waived(config))
    ensures OkAt(Advanced(disk, tx, a).0, p, Waived(config))
  {
    assert Placed(tx.source, tx) && Placed(p, disk[p].tx);
    var s := disk[p].tx.source;
    assert Placed(s, disk[s].tx);
  }

  /** A journal that was unfinished where it is now says rolled-back under the source. */
  predicate Completed(disk: Disk, left: Disk, p: Location, config: Config) {
    var found := Authoritative(disk, p);
    found.Some? && found.value.source in left && FinishedFor(left[found.value.source], config)
  }

  lemma CompletedAtEnd(disk: Disk, left: Disk, config: Config, list: Disk -> seq<Location>, p: Location)
    requires WellKept(disk) && WellKept(left) && ListsBelow(list, config.root) && OnlyFinished(disk, left, config)
    requires disk.Keys <= left.Keys && AllSettled(left, list(left))
    requires p in list(disk) && OkAt(disk, p, Waived(config)) && !Settled(disk, p)
    ensures Completed(disk, left, p, config)
  {
    WellKeptIsSelfNamed(disk);
    OkIsFound(disk, p, Waived(config));
    var tx := Authoritative(disk, p).value;
    SourceSettles(disk, p);
    assert Placed(tx.source, tx) && tx.source.root == config.root;
    assert tx.source in left && tx.source in list(left);
    assert Reached(left, list(left), tx.source, 0);
    assert Settled(left, tx.source);
  }

  /** Nothing but hand-overs to this configuration is unfinished. */
  ghost predicate OnlyWaived(disk: Disk, config: Config, list: Disk -> seq<Location>) {
    ListsBelow(list, config.root) && AllFound(disk, list(disk), Waived(config))
  }

  ghost predicate Unwritten(env: nat -> Answer) {
    exists k :: !AllWell(env(k))
  }

  /** One round of the loop below. */
  lemma RoundKeeps(disk: Disk, now: Disk, config: Config, list: Disk -> seq<Location>, tx: Journal, a: Answer)
    requires WellKept(now) && OnlyFinished(disk, now, config) && HandedOver(tx, config)
    requires exists p, n: nat :: Reached(now, list(now), p, n) && Authoritative(now, p) == Some(tx)
    ensures var (next, ok) := Advanced(now, tx, a);
            && WellKept(next) && OnlyFinished(disk, next, config) && now.Keys <= next.Keys
            && Waiting(next) <= Waiting(now) && (ok ==> Waiting(next) < Waiting(now)) && (AllWell(a) ==> ok)
            && (AllWell(a) && OnlyWaived(now, config, list) ==> OnlyWaived(next, config, list))
  {
    var p, n: nat :| Reached(now, list(now), p, n) && Authoritative(now, p) == Some(tx);
    WellKeptIsSelfNamed(now);
    SourceSettles(now, p);
    AdvanceEndsOne(now, p, tx, a);
    AdvanceOnlyFinishes(disk, now, tx, a, config);
    if AllWell(a) && OnlyWaived(now, config, list) {
      AllFoundIffEachOk(now, list(now), Waived(config));
      AdvanceLeavesWaived(now, tx, a, config, list);
      AllFoundIffEachOk(Advanced(now, tx, a).0, list(Advanced(now, tx, a).0), Waived(config));
    }
  }

  /** The end of the loop below: with nothing but such hand-overs the scan is clear, and each
      of them is completed. */
  lemma RoundsEnd(disk: Disk, left: Disk, config: Config, list: Disk -> seq<Location>, verdict: Verdict)
    requires WellKept(disk) && WellKept(left) && OnlyFinished(disk, left, config) && disk.Keys <= left.Keys
    requires OnlyWaived(disk, config, list) && OnlyWaived(left, config, list)
    requires verdict.NothingToRecover? <==> AllSettled(left, list(left))
    requires verdict.Unreadable? ==> !AllReadable(left, list(left))
    requires verdict.Unfinished? ==>
               !HandedOver(verdict.tx, config) && !Terminal(verdict.tx.phase) &&
               exists p, n: nat :: Reached(left, list(left), p, n) && Authoritative(left, p) == Some(verdict.tx)
    ensures verdict.NothingToRecover?
    ensures forall p :: p in list(disk) && !Settled(disk, p) ==> Completed(disk, left, p, config)
  {
    AllFoundIffEachOk(disk, list(disk), Waived(config));
    forall p | p in list(disk) && !Settled(disk, p) ensures Completed(disk, left, p, config) {
      CompletedAtEnd(disk, left, config, list, p);
    }
  }

  /** The startup loop: completes every hand-over to this very configuration, and otherwise
      reports what the scan reports. It ends, because each round leaves fewer journals that
      record a hand-over; and unless a write failed it is clear exactly when everything the
      final journals lead to is settled. Where nothing but hand-overs to this configuration is
      unfinished and no write fails, it completes them all, and the start is clear. */
  method FindRecovery(disk: Disk, config: Config, list: Disk -> seq<Location>, env: nat -> Answer)
    returns (verdict: Verdict, left: Disk, failed: bool)
    requires WellKept(disk)
    ensures WellKept(left) && Waiting(left) <= Waiting(disk) && OnlyFinished(disk, left, config)
    ensures verdict.NothingToRecover? ==> !failed
    ensures failed ==> Unwritten(env) && verdict.Unfinished?
    ensures !failed ==> (verdict.NothingToRecover? <==> AllSettled(left, list(left)))
    ensures !failed && verdict.Unfinished? ==>
              !(verdict.tx.phase == SourceRestartPending && verdict.tx.current == config)
    ensures !failed && verdict.Unreadable? ==> !AllReadable(left, list(left))
    ensures !Unwritten(env) && OnlyWaived(disk, config, list) ==> verdict.NothingToRecover?
    ensures !Unwritten(env) && OnlyWaived(disk, config, list) ==>
              forall p :: p in list(disk) && !Settled(disk, p) ==> Completed(disk, left, p, config)
  {
    hide WellKept, OnlyFinished, OnlyWaived, Waiting, Advanced, AllSettled, AllReadable, Reached, Authoritative,
        Settled;
    left, failed := disk, false;
    var round := 0;
    StartsUnchanged(disk, config);
    while true
      invariant WellKept(left) && Waiting(left) <= Waiting(disk) && !failed && disk.Keys <= left.Keys
      invariant OnlyFinished(disk, left, config)
      invariant !Unwritten(env) && OnlyWaived(disk, config, list) ==> OnlyWaived(left, config, list)
      decreases Waiting(left)
    {
      verdict := Scan(left, list(left));
      WellKeptIsSelfNamed(left);
      if !verdict.Unfinished? || !HandedOver(verdict.tx, config) {
        if OnlyWaived(disk, config, list) && OnlyWaived(left, config, list) {
          RoundsEnd(disk, left, config, list, verdict);
        }
        return;
      }
      RoundKeeps(disk, left, config, list, verdict.tx, env(round));
      var (next, ok) := Advanced(left, verdict.tx, env(round));
      left := next;
      if !ok {
        failed := true;
        return;
      }
      assert !Unwritten(env) ==> AllWell(env(round));
      round := round + 1;
    }
  }

  lemma StartsUnchanged(disk: Disk, config: Config)
    ensures OnlyFinished(disk, disk, config)
  {
  }

  // ----- the start of a process in the transaction machine -----

  /** Where the journals of the machine's transaction lie, and under which configuration its
      source Catch runs. */
  datatype Layout = Layout(id: string, current: Config, target: Option<string>)

  predicate FitsPlan(plan: Plan, l: Layout) {
    && (plan.hasTarget <==> l.target.Some?)
    && (l.target.Some? ==> l.target.value != l.current.root)
  }

  function JournalOf(l: Layout, tx: Tx): Journal {
    Journal(l.id, At(l.current.root, l.id), if l.target.None? then None else Some(At(l.target.value, l.id)),
            tx.phase, tx.authority, l.current)
  }

  /** The journal files of a world of the machine. */
  function DiskOf(l: Layout, w: World): Disk {
    (if w.tgt.Some? && l.target.Some? then map[At(l.target.value, l.id) := Written(JournalOf(l, w.tgt.value))]
     else map[])
    + (if w.src.Some? then map[At(l.current.root, l.id) := Written(JournalOf(l, w.src.value))] else map[])
  }

  /** The journals below the data dir of a process that runs as this side. */
  function ListedFor(l: Layout, w: World, config: Side): seq<Location> {
    var root := if config == Source || l.target.None? then l.current.root else l.target.value;
    if At(root, l.id) in DiskOf(l, w) then [At(root, l.id)] else []
  }

  lemma DiskFacts(l: Layout, w: World)
    requires l.target.Some? ==> l.target.value != l.current.root
    ensures var disk := DiskOf(l, w); var source := At(l.current.root, l.id);
            && WellKept(disk)
            && (source in disk <==> w.src.Some?)
            && (w.src.Some? ==> disk[source] == Written(JournalOf(l, w.src.value)))
            && (l.target.Some? ==> (At(l.target.value, l.id) in disk <==> w.tgt.Some?))
            && (forall p :: p in disk ==> disk[p].Written? && disk[p].tx.source == source && NamesPlace(p, disk[p].tx))
  {
  }

  /** Whatever is found defers to the source journal. */
  lemma FoundIsSource(l: Layout, w: World, p: Location)
    requires l.target.Some? ==> l.target.value != l.current.root
    ensures var found := Authoritative(DiskOf(l, w), p);
            && (found.Some? ==> w.src.Some? && found.value == JournalOf(l, w.src.value))
            && (p in DiskOf(l, w) && w.src.Some? ==> found.Some?)
  {
    DiskFacts(l, w);
  }

  lemma BootBlocks(plan: Plan, l: Layout, s: State)
    requires ValidPlan(plan) && FitsPlan(plan, l)
    ensures BootUp(plan, s).proc.blocked <==> !AllSettled(DiskOf(l, s.w), ListedFor(l, s.w, s.w.catchUnit))
  {
    DiskFacts(l, s.w);
    var disk, listed := DiskOf(l, s.w), ListedFor(l, s.w, s.w.catchUnit);
    AllSettledIffEachClear(disk, listed);
    if listed != [] {
      assert listed == [listed[0]];
      assert AllSettled(disk, listed) <==> StartsClear(disk, listed[0]);
      assert s.w.src.Some? ==> (StartsClear(disk, listed[0]) <==> Terminal(s.w.src.value.phase));
    } else {
      assert !Visible(plan, s.w, s.w.catchUnit);
    }
  }

  /** The machine's start of a process is a start on these files: it blocks changes exactly
      when the scan finds something unfinished or unreadable, and it sets out to complete a
      hand-over exactly when what the scan finds is one to this very configuration. */
  lemma BootIsStart(plan: Plan, l: Layout, s: State, config: Config)
    requires ValidPlan(plan) && FitsPlan(plan, l)
    requires config == l.current <==> RunsAs(plan, s.w.catchUnit, Source)
    ensures var disk, listed := DiskOf(l, s.w), ListedFor(l, s.w, s.w.catchUnit);
            && (BootUp(plan, s).proc.blocked <==> !AllSettled(disk, listed))
            && (BootUp(plan, s).proc.job.Some? <==> HandOverFound(disk, listed, config))
  {
    var disk, listed := DiskOf(l, s.w), ListedFor(l, s.w, s.w.catchUnit);
    BootBlocks(plan, l, s);
    DiskFacts(l, s.w);
    if BootUp(plan, s).proc.job.Some? {
      FoundIsSource(l, s.w, listed[0]);
      assert Reached(disk, listed, listed[0], 0);
      assert FindsHandOver(disk, listed, config, listed[0], 0);
    }
    forall p, n: nat | FindsHandOver(disk, listed, config, p, n) ensures BootUp(plan, s).proc.job.Some? {
      ReachedFromFirst(disk, listed, p, n);
      FoundIsSource(l, s.w, p);
    }
  }

  ghost predicate FindsHandOver(disk: Disk, listed: seq<Location>, config: Config, p: Location, n: nat) {
    Reached(disk, listed, p, n) && Authoritative(disk, p).Some? && HandedOver(Authoritative(disk, p).value, config)
  }

  ghost predicate HandOverFound(disk: Disk, listed: seq<Location>, config: Config) {
    exists p, n: nat :: FindsHandOver(disk, listed, config, p, n)
  }

  lemma {:induction false} ReachedFromFirst(disk: Disk, listed: seq<Location>, p: Location, n: nat)
    requires Reached(disk, listed, p, n)
    ensures listed != []
    decreases n
  {
    if n > 0 {
      var via :| Leads(disk, listed, via, p, n);
      ReachedFromFirst(disk, listed, via, n - 1);
    }
  }
}
