/** Generations of a service: staged files are committed under the next number, the last ten
    numbers are kept, and rolling back makes an earlier number the active one. */
module Generations {
  import opened Artifacts

  const MAX_GENERATIONS := 10
  const TIMER := "systemd.timer"

  type Refs = map<Ref, string>

  /** The record of a service, and the files in its binary and environment directories. */
  datatype Service = Service(generation: int, latest: int, artifacts: map<string, Artifact>, files: set<string>)

  const FRESH := Service(0, 0, map[], {})

  /** What one commit copies where. */
  datatype Commit = Commit(src: Ref, dst: seq<Ref>, generation: int, latest: int)

  function CommitFor(gen: int, latest: int): Commit {
    if gen == 0 then Commit(Staged, [Latest, Gen(latest + 1)], latest + 1, latest + 1)
    else Commit(Gen(gen), [Latest], gen, latest)
  }

  function Copied(refs: Refs, dst: seq<Ref>, path: string): Refs
    decreases |dst|
  {
    if dst == [] then refs else Copied(refs[dst[0] := path], dst[1..], path)
  }

  function CommittedRefs(refs: Refs, c: Commit): Refs {
    if c.src in refs then Copied(refs, c.dst, refs[c.src]) else refs
  }

  function CommittedArtifact(a: Artifact, c: Commit): Artifact {
    if a.Nil? then a else Artifact(CommittedRefs(a.refs, c))
  }

  function Committed(s: Service, gen: int): Service {
    var c := CommitFor(gen, s.latest);
    s.(generation := c.generation, latest := c.latest,
       artifacts := map n | n in s.artifacts :: CommittedArtifact(s.artifacts[n], c))
  }

  predicate Keeps(ref: Ref, minGen: int) {
    ref.Gen? ==> ref.n >= minGen
  }

  function PrunedArtifact(a: Artifact, minGen: int): Artifact {
    if a.Nil? then a else Artifact(map ref | ref in a.refs && Keeps(ref, minGen) :: a.refs[ref])
  }

  /** The last element of a path that does not end in a slash. */
  function Base(path: string): string {
    if path == "" || '/' !in path then path else Base(path[1..])
  }

  function PrunedArtifacts(s: Service): map<string, Artifact> {
    map n | n in s.artifacts :: PrunedArtifact(s.artifacts[n], s.latest - MAX_GENERATIONS)
  }

  function Known(artifacts: map<string, Artifact>, defaults: set<string>): set<string> {
    defaults
    + set n, ref | n in artifacts && artifacts[n].Artifact? && ref in artifacts[n].refs ::
        Base(artifacts[n].refs[ref])
  }

  /** Old references go, and then every file that no remaining reference names. */
  function Pruned(s: Service, defaults: set<string>): Service {
    var kept := PrunedArtifacts(s);
    s.(artifacts := kept, files := set f | f in s.files && Base(f) in Known(kept, defaults))
  }

  function Staging(s: Service, name: string, path: string): Service {
    var refs := if name in s.artifacts && s.artifacts[name].Artifact? then s.artifacts[name].refs else map[];
    s.(artifacts := s.artifacts[name := Artifact(refs[Staged := path])], files := s.files + {path})
  }

  predicate Has(s: Service, name: string, ref: Ref) {
    name in s.artifacts && s.artifacts[name].Artifact? && ref in s.artifacts[name].refs
  }

  function At(s: Service, name: string, ref: Ref): string
    requires Has(s, name, ref)
  {
    s.artifacts[name].refs[ref]
  }

  /** The generation that a rollback would make active. */
  function Previous(s: Service): Option<int> {
    var gen := s.generation - 1;
    if s.generation == 0 || gen < s.latest - MAX_GENERATIONS || gen == 0 then None
    else if Has(s, TIMER, Gen(s.generation)) && !Has(s, TIMER, Gen(gen)) then None
    else Some(gen)
  }

  datatype Op = Stage(name: string, path: string) | CommitNew | Rollback | Prune(defaults: set<string>)

  function After(s: Service, op: Op): Service {
    match op
    case Stage(name, path) => Staging(s, name, path)
    case CommitNew => Committed(s, 0)
    case Rollback => if Previous(s).Some? then Committed(s, Previous(s).value) else s
    case Prune(defaults) => Pruned(s, defaults)
  }

  // ----- history -----

  /** What each generation was committed with. */
  type History = map<int, map<string, string>>

  function StagedNow(s: Service): map<string, string> {
    map n | n in s.artifacts && Has(s, n, Staged) :: At(s, n, Staged)
  }

  function Recorded(h: History, s: Service, op: Op): History {
    if op.CommitNew? then h[s.latest + 1 := StagedNow(s)] else h
  }

  function Run(s: Service, ops: seq<Op>): Service
    decreases |ops|
  {
    if ops == [] then s else Run(After(s, ops[0]), ops[1..])
  }

  function RunHistory(s: Service, h: History, ops: seq<Op>): History
    decreases |ops|
  {
    if ops == [] then h else RunHistory(After(s, ops[0]), Recorded(h, s, ops[0]), ops[1..])
  }

  ghost predicate Numbered(s: Service, h: History) {
    && 0 <= s.latest && 0 <= s.generation <= s.latest
    && (forall n :: n in h <==> 1 <= n <= s.latest)
    && (s.generation > 0 ==> s.generation >= s.latest - MAX_GENERATIONS)
    && (s.generation == 0 ==> s.latest == 0)
  }

  /** A numbered reference is what was committed under that number. */
  ghost predicate Unforged(s: Service, h: History) {
    forall name, n :: Has(s, name, Gen(n)) ==> n in h && name in h[n] && At(s, name, Gen(n)) == h[n][name]
  }

  /** Nothing that was committed in the last ten generations is missing. */
  ghost predicate Complete(s: Service, h: History) {
    forall n, name :: n in h && n >= s.latest - MAX_GENERATIONS && name in h[n] ==> Has(s, name, Gen(n))
  }

  /** What is installed is the active generation. */
  ghost predicate ActiveInstalled(s: Service) {
    forall name :: Has(s, name, Gen(s.generation)) ==>
      Has(s, name, Latest) && At(s, name, Latest) == At(s, name, Gen(s.generation))
  }

  /** Installed are the artifacts that the newest generation was committed with, and they are
      all staged still. */
  ghost predicate NewestHasAll(s: Service, h: History) {
    forall name :: Has(s, name, Latest) <==> Has(s, name, Staged) && s.latest in h && name in h[s.latest]
  }

  ghost predicate NewestStaged(s: Service, h: History) {
    s.latest in h ==> forall name :: name in h[s.latest] ==> Has(s, name, Staged)
  }

  /** No generation lacks an artifact that an earlier one had. */
  ghost predicate Growing(h: History) {
    forall m, n :: m in h && n in h && m <= n ==> h[m].Keys <= h[n].Keys
  }

  /** Every reference names a file that is there. */
  ghost predicate FilesThere(s: Service) {
    forall name, ref :: Has(s, name, ref) ==> At(s, name, ref) in s.files
  }

  ghost predicate Sound(s: Service, h: History) {
    && Numbered(s, h) && Unforged(s, h) && Complete(s, h) && ActiveInstalled(s)
    && NewestHasAll(s, h) && NewestStaged(s, h) && Growing(h) && FilesThere(s)
  }

  // ----- each operation -----

  lemma CommittedAt(s: Service, gen: int, name: string, ref: Ref)
    ensures var c := CommitFor(gen, s.latest); var t := Committed(s, gen);
            && (Has(t, name, ref) <==> Has(s, name, ref) || (Has(s, name, c.src) && ref in c.dst))
            && (Has(t, name, ref) ==>
                  At(t, name, ref) ==
                  if Has(s, name, c.src) && ref in c.dst then At(s, name, c.src) else At(s, name, ref))
  {
    if Has(s, name, CommitFor(gen, s.latest).src) {
      var refs := s.artifacts[name].refs;
      CopiedRefs(refs, gen, s.latest, refs[CommitFor(gen, s.latest).src]);
    }
  }

  lemma CopiedRefs(refs: Refs, gen: int, latest: int, path: string)
    ensures Copied(refs, CommitFor(gen, latest).dst, path) ==
            if gen == 0 then refs[Latest := path][Gen(latest + 1) := path] else refs[Latest := path]
  {
    var dst := CommitFor(gen, latest).dst;
    var rest := refs[Latest := path];
    assert Copied(refs, dst, path) == Copied(rest, dst[1..], path);
    if gen == 0 {
      assert dst[1..] == [Gen(latest + 1)];
      assert Copied(rest, [Gen(latest + 1)], path) ==
             Copied(rest[Gen(latest + 1) := path], [Gen(latest + 1)][1..], path);
    }
  }

  /** What a commit from one source does to the references, said for all at once. */
  lemma CommitMoves(s: Service, gen: int)
    ensures var c := CommitFor(gen, s.latest); var t := Committed(s, gen);
            && (forall name, ref :: Has(t, name, ref) <==> Has(s, name, ref) || (Has(s, name, c.src) && ref in c.dst))
            && (forall name, ref :: Has(t, name, ref) ==>
                  At(t, name, ref) ==
                  if Has(s, name, c.src) && ref in c.dst then At(s, name, c.src) else At(s, name, ref))
  {
    var c, t := CommitFor(gen, s.latest), Committed(s, gen);
    forall name, ref
      ensures Has(t, name, ref) <==> Has(s, name, ref) || (Has(s, name, c.src) && ref in c.dst)
      ensures Has(t, name, ref) ==>
                At(t, name, ref) == if Has(s, name, c.src) && ref in c.dst then At(s, name, c.src) else At(s, name, ref)
    {
      CommittedAt(s, gen, name, ref);
    }
  }

  lemma CommitNewKeeps(s: Service, h: History)
    requires Sound(s, h)
    ensures Sound(Committed(s, 0), Recorded(h, s, CommitNew))
  {
    CommitMoves(s, 0);
    hide Committed, Has, At;
    CommitNewNumbers(s, h);
    CommitNewNewest(s, h);
    CommitNewFiles(s);
  }

  lemma CommitNewNumbers(s: Service, h: History)
    requires Sound(s, h)
    ensures var t, h' := Committed(s, 0), Recorded(h, s, CommitNew);
            Numbered(t, h') && Unforged(t, h') && Complete(t, h') && ActiveInstalled(t)
  {
    var t, h' := Committed(s, 0), Recorded(h, s, CommitNew);
    forall name, n | Has(t, name, Gen(n)) ensures n in h' && name in h'[n] && At(t, name, Gen(n)) == h'[n][name] {
      CommittedAt(s, 0, name, Gen(n));
    }
    forall n, name | n in h' && n >= t.latest - MAX_GENERATIONS && name in h'[n] ensures Has(t, name, Gen(n)) {
      CommittedAt(s, 0, name, Gen(n));
    }
    forall name | Has(t, name, Gen(t.generation))
      ensures Has(t, name, Latest) && At(t, name, Latest) == At(t, name, Gen(t.generation))
    {
      CommittedAt(s, 0, name, Gen(t.generation));
      CommittedAt(s, 0, name, Latest);
    }
  }

  lemma CommitNewNewest(s: Service, h: History)
    requires Numbered(s, h) && NewestHasAll(s, h) && NewestStaged(s, h) && Growing(h)
    ensures var t, h' := Committed(s, 0), Recorded(h, s, CommitNew);
            NewestHasAll(t, h') && NewestStaged(t, h') && Growing(h')
  {
    CommitMoves(s, 0);
    var t, h' := Committed(s, 0), Recorded(h, s, CommitNew);
    assert t.latest == s.latest + 1 && h' == h[s.latest + 1 := StagedNow(s)];
    hide Committed, Recorded;
    assert forall name :: name in StagedNow(s) <==> Has(s, name, Staged);
    hide Has, StagedNow;
    forall m | m in h ensures h[m].Keys <= StagedNow(s).Keys {
      assert s.latest in h && h[m].Keys <= h[s.latest].Keys;
    }
  }

  lemma CommitNewFiles(s: Service)
    requires FilesThere(s)
    ensures FilesThere(Committed(s, 0))
  {
    CommitFiles(s, 0);
  }

  lemma CommitFiles(s: Service, gen: int)
    requires FilesThere(s)
    ensures FilesThere(Committed(s, gen))
  {
    CommitMoves(s, gen);
    assert Committed(s, gen).files == s.files;
  }

  lemma ReactivateKeeps(s: Service, h: History, gen: int)
    requires Sound(s, h) && gen in h && gen >= s.latest - MAX_GENERATIONS
    ensures Sound(Committed(s, gen), h)
  {
    var t := Committed(s, gen);
    CommitFiles(s, gen);
    ReactivateNewest(s, h, gen);
    forall name, n ensures Has(t, name, Gen(n)) <==> Has(s, name, Gen(n)) {
      CommittedAt(s, gen, name, Gen(n));
    }
    forall name, n | Has(t, name, Gen(n)) ensures At(t, name, Gen(n)) == At(s, name, Gen(n)) {
      CommittedAt(s, gen, name, Gen(n));
    }
    forall name | Has(t, name, Gen(gen)) ensures Has(t, name, Latest) && At(t, name, Latest) == At(t, name, Gen(gen)) {
      CommittedAt(s, gen, name, Latest);
    }
  }

  lemma ReactivateNewest(s: Service, h: History, gen: int)
    requires Sound(s, h) && gen in h && gen >= s.latest - MAX_GENERATIONS
    ensures NewestHasAll(Committed(s, gen), h) && NewestStaged(Committed(s, gen), h)
  {
    CommitMoves(s, gen);
    assert Committed(s, gen).latest == s.latest &&
           CommitFor(gen, s.latest) == Commit(Gen(gen), [Latest], gen, s.latest);
    hide Committed, Has, At;
    assert s.latest in h && h[gen].Keys <= h[s.latest].Keys;
  }

  lemma PruneKeeps(s: Service, h: History, defaults: set<string>)
    requires Sound(s, h)
    ensures Sound(Pruned(s, defaults), h)
  {
    var t := Pruned(s, defaults);
    forall name, ref ensures Has(t, name, ref) <==> Has(s, name, ref) && Keeps(ref, s.latest - MAX_GENERATIONS) {
    }
    assert forall name, ref :: Has(t, name, ref) ==> At(t, name, ref) == At(s, name, ref);
    forall name, ref | Has(t, name, ref) ensures At(t, name, ref) in t.files {
      PruneKeepsNamedFiles(s, defaults, name, ref);
    }
  }

  lemma StageKeeps(s: Service, h: History, name: string, path: string)
    requires Sound(s, h)
    ensures Sound(Staging(s, name, path), h)
  {
    var t := Staging(s, name, path);
    forall m, ref | ref != Staged ensures Has(t, m, ref) <==> Has(s, m, ref) {
    }
    assert forall m, ref :: ref != Staged && Has(t, m, ref) ==> At(t, m, ref) == At(s, m, ref);
    assert forall m :: Has(t, m, Staged) ==>
             || (m == name && At(t, m, Staged) == path)
             || (Has(s, m, Staged) && At(t, m, Staged) == At(s, m, Staged));
  }

  lemma OpKeeps(s: Service, h: History, op: Op)
    requires Sound(s, h)
    ensures Sound(After(s, op), Recorded(h, s, op))
  {
    match op
    case Stage(name, path) => StageKeeps(s, h, name, path);
    case CommitNew => CommitNewKeeps(s, h);
    case Rollback =>
      if Previous(s).Some? {
        ReactivateKeeps(s, h, Previous(s).value);
      }
    case Prune(defaults) => PruneKeeps(s, h, defaults);
  }

  /** Every history of staging, commits, rollbacks and prunings. */
  lemma {:induction false} RunKeeps(s: Service, h: History, ops: seq<Op>)
    requires Sound(s, h)
    ensures Sound(Run(s, ops), RunHistory(s, h, ops))
    decreases |ops|
  {
    if ops != [] {
      OpKeeps(s, h, ops[0]);
      RunKeeps(After(s, ops[0]), Recorded(h, s, ops[0]), ops[1..]);
    }
  }

  // ----- main results -----

  /** After any history, a rollback that is granted installs everything that was committed
      under the previous number. It installs exactly that if and only if no artifact was
      added in a later generation: such a one stays installed. */
  lemma RollbackRestoresCommitted(ops: seq<Op>)
    ensures var s, h := Run(FRESH, ops), RunHistory(FRESH, map[], ops);
            var t := After(s, Rollback);
            Previous(s).Some? ==>
              && t.generation == s.generation - 1 && t.generation in h && s.latest in h
              && (forall name :: name in h[t.generation] ==>
                    Has(t, name, Latest) && At(t, name, Latest) == h[t.generation][name])
              && ((forall name :: Has(t, name, Latest) ==> name in h[t.generation]) <==>
                  h[s.latest].Keys <= h[t.generation].Keys)
  {
    var s, h := Run(FRESH, ops), RunHistory(FRESH, map[], ops);
    RunKeeps(FRESH, map[], ops);
    OpKeeps(s, h, Rollback);
    if Previous(s).Some? {
      var t := After(s, Rollback);
      assert forall name :: Has(t, name, Latest) <==> name in h[s.latest];
    }
  }

  /** After any history, a rollback is granted exactly if there is a previous number, it is
      among the last ten, and it had a timer if the active generation has one. */
  lemma RollbackGrantedIff(ops: seq<Op>)
    ensures var s, h := Run(FRESH, ops), RunHistory(FRESH, map[], ops);
            Previous(s).Some? <==>
              && s.generation >= 2 && s.generation - 1 >= s.latest - 10
              && s.generation in h && s.generation - 1 in h
              && ("systemd.timer" in h[s.generation] ==> "systemd.timer" in h[s.generation - 1])
  {
    RunKeeps(FRESH, map[], ops);
    var s, h := Run(FRESH, ops), RunHistory(FRESH, map[], ops);
    hide Run, RunHistory, Has, At;
    if s.generation >= 2 && s.generation - 1 >= s.latest - 10 {
      assert s.generation in h && s.generation - 1 in h;
      assert Has(s, "systemd.timer", Gen(s.generation)) <==> "systemd.timer" in h[s.generation];
      assert Has(s, "systemd.timer", Gen(s.generation - 1)) <==> "systemd.timer" in h[s.generation - 1];
    }
  }

  lemma AddedSecond(s: Service, h: History)
    requires s.latest == s.generation == 1 && 1 in h && "b" !in h[1]
    requires !Has(s, TIMER, Staged) && forall k :: !Has(s, TIMER, Gen(k))
    ensures var ops := [Stage("b", "q"), CommitNew];
            var t, h' := Run(s, ops), RunHistory(s, h, ops);
            Previous(t) == Some(1) && 1 in h' && "b" !in h'[1] && Has(t, "b", Latest)
  {
    var ops := [Stage("b", "q"), CommitNew];
    RunTwo(s, h, ops, []);
    CommitMoves(After(s, ops[0]), 0);
    assert Has(After(s, ops[0]), "b", Staged) && TIMER != "b";
  }

  /** A second artifact that came with generation 2 stays installed after going back to 1. */
  lemma AddedArtifactStays()
    ensures var ops := [Stage("a", "p"), CommitNew] + [Stage("b", "q"), CommitNew];
            var s, h := Run(FRESH, ops), RunHistory(FRESH, map[], ops);
            Previous(s) == Some(1) && 1 in h && "b" !in h[1] && Has(After(s, Rollback), "b", Latest)
  {
    hide Run, RunHistory;
    var first := [Stage("a", "p"), CommitNew];
    FirstGeneration();
    RunConcat(FRESH, map[], first, [Stage("b", "q"), CommitNew]);
    AddedSecond(Run(FRESH, first), RunHistory(FRESH, map[], first));
    CommitMoves(Run(FRESH, first + [Stage("b", "q"), CommitNew]), 1);
  }

  lemma RunTwo(s: Service, h: History, ops: seq<Op>, rest: seq<Op>)
    requires |ops| >= 2 && ops[2..] == rest
    ensures Run(s, ops) == Run(After(After(s, ops[0]), ops[1]), rest)
    ensures RunHistory(s, h, ops) ==
            RunHistory(After(After(s, ops[0]), ops[1]),
                       Recorded(Recorded(h, s, ops[0]), After(s, ops[0]), ops[1]), rest)
  {
    assert ops[1..][1..] == rest;
  }

  /** After any history, no number within the last ten has lost or changed a reference, and
      the active number is among them. */
  lemma LastTenAreKept(ops: seq<Op>, n: int, name: string)
    requires var s, h := Run(FRESH, ops), RunHistory(FRESH, map[], ops);
             1 <= n <= s.latest && (n >= s.latest - MAX_GENERATIONS || n == s.generation)
    ensures var s, h := Run(FRESH, ops), RunHistory(FRESH, map[], ops);
            && n in h
            && (Has(s, name, Gen(n)) <==> name in h[n])
            && (name in h[n] ==> At(s, name, Gen(n)) == h[n][name])
  {
    RunKeeps(FRESH, map[], ops);
  }

  /** A commit writes a number that no artifact has, so it overwrites no generation. */
  lemma CommitOverwritesNothing(ops: seq<Op>, name: string, n: int)
    requires Has(Run(FRESH, ops), name, Gen(n))
    ensures var s := Run(FRESH, ops);
            var t := After(s, CommitNew);
            n < t.latest && Has(t, name, Gen(n)) && At(t, name, Gen(n)) == At(s, name, Gen(n))
  {
    RunKeeps(FRESH, map[], ops);
    CommittedAt(Run(FRESH, ops), 0, name, Gen(n));
  }

  /** Pruning deletes a file only if no reference that stays names a file of that name. */
  lemma PruneKeepsNamedFiles(s: Service, defaults: set<string>, name: string, ref: Ref)
    requires Has(Pruned(s, defaults), name, ref)
    ensures At(s, name, ref) in s.files ==> At(s, name, ref) in Pruned(s, defaults).files
  {
    var kept := PrunedArtifacts(s);
    assert Base(kept[name].refs[ref]) in Known(kept, defaults);
  }

  /** A file stays exactly if it was there and its name is a default, or a reference that stays
      has it. A reference stays exactly if it was there and is not older than the last ten. */
  lemma FileStaysIff(s: Service, defaults: set<string>, f: string)
    ensures f in Pruned(s, defaults).files <==>
            f in s.files
            && (Base(f) in defaults
                || exists name, ref :: Has(Pruned(s, defaults), name, ref) && Base(At(s, name, ref)) == Base(f))
    ensures forall name, ref ::
              Has(Pruned(s, defaults), name, ref) <==> Has(s, name, ref) && (ref.Gen? ==> ref.n >= s.latest - 10)
  {
    var kept := PrunedArtifacts(s);
    forall name, ref ensures Has(Pruned(s, defaults), name, ref) <==> Has(s, name, ref) && Keeps(ref, s.latest - 10) {
    }
    if Base(f) in Known(kept, defaults) && Base(f) !in defaults {
      var name, ref :| name in kept && kept[name].Artifact? && ref in kept[name].refs &&
        Base(kept[name].refs[ref]) == Base(f);
      assert Has(Pruned(s, defaults), name, ref) && Base(At(s, name, ref)) == Base(f);
    }
    if name, ref :| Has(Pruned(s, defaults), name, ref) && Base(At(s, name, ref)) == Base(f) {
      assert kept[name].refs[ref] == At(s, name, ref);
    }
  }

  lemma {:induction false} BaseOf(dir: string, name: string)
    requires '/' !in name
    ensures Base(dir + "/" + name) == name
  {
    var path := dir + "/" + name;
    assert path[|dir|] == '/' && path[|dir|] in path;
    if dir == "" {
      assert path[1..] == name;
    } else {
      assert path[1..] == dir[1..] + "/" + name;
      BaseOf(dir[1..], name);
    }
  }

  /** After any history, every reference names a file that is there. */
  lemma EveryReferenceHasItsFile(ops: seq<Op>, name: string, ref: Ref)
    requires Has(Run(FRESH, ops), name, ref)
    ensures At(Run(FRESH, ops), name, ref) in Run(FRESH, ops).files
  {
    RunKeeps(FRESH, map[], ops);
  }

  /** An installation that fails after its commit and pruning goes back to the generation
      that was active before it. That brings back the installed files exactly if that
      generation was not yet the oldest that is kept, unless nothing was committed in it. */
  lemma FailedInstallRestoresIff(ops: seq<Op>, defaults: set<string>, name: string)
    requires var s, h := Run(FRESH, ops), RunHistory(FRESH, map[], ops);
             s.generation > 0 && s.generation in h && name in h[s.generation]
    ensures var s, h := Run(FRESH, ops), RunHistory(FRESH, map[], ops);
            var t := Committed(Pruned(Committed(s, 0), defaults), s.generation);
            Has(t, name, Gen(s.generation)) <==> s.generation > s.latest - MAX_GENERATIONS
    ensures var s, h := Run(FRESH, ops), RunHistory(FRESH, map[], ops);
            var t := Committed(Pruned(Committed(s, 0), defaults), s.generation);
            s.generation > s.latest - MAX_GENERATIONS ==>
              Has(t, name, Latest) && At(t, name, Latest) == h[s.generation][name]
  {
    RunKeeps(FRESH, map[], ops);
    var s, h := Run(FRESH, ops), RunHistory(FRESH, map[], ops);
    var gen := s.generation;
    OpKeeps(s, h, CommitNew);
    var h1 := Recorded(h, s, CommitNew);
    var s1 := Committed(s, 0);
    CommittedAt(s, 0, name, Gen(gen));
    PruneKeeps(s1, h1, defaults);
    var s2 := Pruned(s1, defaults);
    CommittedAt(s2, gen, name, Gen(gen));
    CommittedAt(s2, gen, name, Latest);
    assert Has(s2, name, Gen(gen)) <==> Has(s1, name, Gen(gen)) && Keeps(Gen(gen), s1.latest - MAX_GENERATIONS);
  }

  // ----- a history that ends on the oldest generation that is kept -----

  function Times(op: Op, n: nat): (ops: seq<Op>)
    ensures |ops| == n && forall i :: 0 <= i < n ==> ops[i] == op
  {
    if n == 0 then [] else [op] + Times(op, n - 1)
  }

  lemma {:induction false} RunConcat(s: Service, h: History, a: seq<Op>, b: seq<Op>)
    ensures Run(s, a + b) == Run(Run(s, a), b)
    ensures RunHistory(s, h, a + b) == RunHistory(Run(s, a), RunHistory(s, h, a), b)
    decreases |a|
  {
    if a == [] {
      assert a + b == b;
    } else {
      assert (a + b)[1..] == a[1..] + b;
      RunConcat(After(s, a[0]), Recorded(h, s, a[0]), a[1..], b);
    }
  }

  lemma {:induction false} CommitsCount(s: Service, h: History, n: nat)
    requires s.latest >= 1 && s.generation == s.latest && !Has(s, TIMER, Staged) && 1 in h
    requires forall k :: !Has(s, TIMER, Gen(k))
    ensures var t := Run(s, Times(CommitNew, n));
            && t.latest == t.generation == s.latest + n && (forall k :: !Has(t, TIMER, Gen(k)))
    ensures var later := RunHistory(s, h, Times(CommitNew, n)); 1 in later && later[1] == h[1]
    decreases n
  {
    if n > 0 {
      assert Times(CommitNew, n)[1..] == Times(CommitNew, n - 1);
      CommitMoves(s, 0);
      CommitsCount(After(s, CommitNew), Recorded(h, s, CommitNew), n - 1);
    }
  }

  lemma {:induction false} RollbacksCount(s: Service, h: History, n: nat)
    requires s.generation - n >= 1 && s.generation - n >= s.latest - MAX_GENERATIONS
    requires forall k :: !Has(s, TIMER, Gen(k))
    ensures var t := Run(s, Times(Rollback, n)); t.latest == s.latest && t.generation == s.generation - n
    ensures RunHistory(s, h, Times(Rollback, n)) == h
    decreases n
  {
    if n > 0 {
      assert Times(Rollback, n)[1..] == Times(Rollback, n - 1);
      CommitMoves(s, s.generation - 1);
      RollbacksCount(After(s, Rollback), h, n - 1);
    }
  }

  lemma FirstGeneration()
    ensures var ops := [Stage("a", "p"), CommitNew];
            var s, h := Run(FRESH, ops), RunHistory(FRESH, map[], ops);
            && s.latest == s.generation == 1 && 1 in h && "a" in h[1] && "b" !in h[1]
            && !Has(s, TIMER, Staged) && forall k :: !Has(s, TIMER, Gen(k))
  {
    var first := [Stage("a", "p"), CommitNew];
    var s1 := After(FRESH, first[0]);
    RunTwo(FRESH, map[], first, []);
    CommitMoves(s1, 0);
    assert TIMER != "a" && Has(s1, "a", Staged);
  }

  /** Eleven generations, and ten steps back. */
  function OldestKept(): seq<Op> {
    [Stage("a", "p"), CommitNew] + (Times(CommitNew, 10) + Times(Rollback, 10))
  }

  lemma OldestKeptRuns()
    ensures var s, h := Run(FRESH, OldestKept()), RunHistory(FRESH, map[], OldestKept());
            s.generation == 1 == s.latest - MAX_GENERATIONS && 1 in h && "a" in h[1]
  {
    hide Run, RunHistory, Times;
    var first, ups, downs := [Stage("a", "p"), CommitNew], Times(CommitNew, 10), Times(Rollback, 10);
    FirstGeneration();
    RunConcat(FRESH, map[], first, ups + downs);
    var s, h := Run(FRESH, first), RunHistory(FRESH, map[], first);
    RunConcat(s, h, ups, downs);
    CommitsCount(s, h, 10);
    RollbacksCount(Run(s, ups), RunHistory(s, h, ups), 10);
  }

  /** The next installation that fails behind its commit finds nothing to go back to. */
  lemma OldestKeptExample(defaults: set<string>)
    ensures var s := Run(FRESH, OldestKept());
            !Has(Committed(Pruned(Committed(s, 0), defaults), s.generation), "a", Gen(s.generation))
  {
    hide OldestKept, Committed, Pruned;
    OldestKeptRuns();
    FailedInstallRestoresIff(OldestKept(), defaults, "a");
  }

  // ----- the record, changed in place -----

  class ServiceRecord {
    var generation: int
    var latest: int
    var artifacts: map<string, Artifact>
    var files: set<string>

    function Contents(): Service
      reads this
    {
      Service(generation, latest, artifacts, files)
    }

    /** Commits, unless somebody else has committed since the caller looked. */
    method CommitGen(expected: Option<int>, gen: int) returns (ok: bool)
      modifies this
      ensures ok <==> expected.None? || expected.value == old(generation)
      ensures Contents() == if ok then Committed(old(Contents()), gen) else old(Contents())
    {
      if expected.Some? && generation != expected.value {
        return false;
      }
      var c := CommitFor(gen, latest);
      latest := c.latest;
      generation := c.generation;
      CommitArtifactRefs(c);
      return true;
    }

    method CommitArtifactRefs(c: Commit)
      modifies `artifacts
      ensures artifacts == map n | n in old(artifacts) :: CommittedArtifact(old(artifacts)[n], c)
    {
      ghost var before := artifacts;
      var left := artifacts.Keys;
      while left != {}
        invariant left <= before.Keys && artifacts.Keys == before.Keys
        invariant forall n :: n in before ==>
                    artifacts[n] == if n in left then before[n] else CommittedArtifact(before[n], c)
        decreases left
      {
        var n :| n in left;
        left := left - {n};
        if artifacts[n].Artifact? && c.src in artifacts[n].refs {
          var refs := CopyRef(artifacts[n].refs, c.dst, artifacts[n].refs[c.src]);
          artifacts := artifacts[n := Artifact(refs)];
        }
      }
    }

    method CopyRef(refs: Refs, dst: seq<Ref>, path: string) returns (r: Refs)
      ensures r == Copied(refs, dst, path)
    {
      r := refs;
      var i := 0;
      while i < |dst|
        invariant 0 <= i <= |dst|
        invariant Copied(refs, dst, path) == Copied(r, dst[i..], path)
      {
        assert dst[i..][1..] == dst[i + 1..];
        r := r[dst[i] := path];
        i := i + 1;
      }
    }

    /** Deletes the old references of one artifact and notes the files that the others name. */
    method PruneRefs(refs: Refs, minGen: int) returns (kept: Refs, known: set<string>)
      ensures kept == map ref | ref in refs && Keeps(ref, minGen) :: refs[ref]
      ensures known == set ref | ref in kept :: Base(kept[ref])
    {
      kept, known := refs, {};
      var left := refs.Keys;
      while left != {}
        invariant left <= refs.Keys && left <= kept.Keys <= refs.Keys
        invariant forall ref :: ref in refs && ref !in left ==> (ref in kept <==> Keeps(ref, minGen))
        invariant forall ref :: ref in kept ==> kept[ref] == refs[ref]
        invariant known == set ref | ref in kept.Keys - left :: Base(refs[ref])
        decreases left
      {
        var ref :| ref in left;
        left := left - {ref};
        if Keeps(ref, minGen) {
          known := known + {Base(kept[ref])};
        } else {
          kept := kept - {ref};
        }
      }
    }

    method PruneArtifacts(defaults: set<string>) returns (known: set<string>)
      modifies `artifacts
      ensures artifacts == PrunedArtifacts(old(Contents()))
      ensures known == Known(artifacts, defaults)
    {
      ghost var before := Contents();
      var minGen := latest - MAX_GENERATIONS;
      known := defaults;
      var left := artifacts.Keys;
      while left != {}
        invariant left <= before.artifacts.Keys && artifacts.Keys == before.artifacts.Keys
        invariant forall n :: n in artifacts ==>
                    artifacts[n] == if n in left then before.artifacts[n]
                                    else PrunedArtifact(before.artifacts[n], minGen)
        invariant forall f :: f in known <==> f in defaults || NamedOutside(artifacts, left, f)
        decreases left
      {
        var n :| n in left;
        ghost var known0, artifacts0, left0 := known, artifacts, left;
        left := left - {n};
        if artifacts[n].Artifact? {
          var kept, named := PruneRefs(artifacts[n].refs, minGen);
          artifacts := artifacts[n := Artifact(kept)];
          known := known + named;
        }
        NamedGrows(artifacts0, artifacts, left0, n);
      }
      forall f ensures f in known <==> f in Known(artifacts, defaults) {
        assert NamedOutside(artifacts, {}, f) <==> NamedBy(artifacts, f);
      }
    }

    /** Removes the files whose name no reference knows. */
    method PruneDirectories(known: set<string>)
      modifies `files
      ensures files == set f | f in old(files) && Base(f) in known
    {
      ghost var before := files;
      var left := files;
      while left != {}
        invariant left <= files <= before
        invariant forall f :: f in before && f !in left ==> (f in files <==> Base(f) in known)
        decreases left
      {
        var f :| f in left;
        left := left - {f};
        if Base(f) !in known {
          files := files - {f};
        }
      }
    }

    method PruneGenerations(defaults: set<string>)
      modifies this
      ensures Contents() == Pruned(old(Contents()), defaults)
    {
      var known := PruneArtifacts(defaults);
      PruneDirectories(known);
    }

    /** Makes the previous generation active, if it may be. */
    method RollBack() returns (ok: bool)
      modifies this
      ensures Contents() == After(old(Contents()), Rollback)
      ensures ok <==> Previous(old(Contents())).Some?
    {
      var previous := Previous(Contents());
      if previous.None? {
        return false;
      }
      ok := CommitGen(Some(generation), previous.value);
    }
  }

  ghost predicate Names(a: Artifact, f: string) {
    a.Artifact? && exists ref :: ref in a.refs && Base(a.refs[ref]) == f
  }

  ghost predicate NamedBy(artifacts: map<string, Artifact>, f: string) {
    exists n :: n in artifacts && Names(artifacts[n], f)
  }

  ghost predicate NamedOutside(artifacts: map<string, Artifact>, left: set<string>, f: string) {
    exists n :: n in artifacts && n !in left && Names(artifacts[n], f)
  }

  lemma NamedGrows(before: map<string, Artifact>, after: map<string, Artifact>, left: set<string>, n: string)
    requires n in left && left <= before.Keys && n in after && after == before[n := after[n]]
    ensures forall f :: NamedOutside(after, left - {n}, f) <==> NamedOutside(before, left, f) || Names(after[n], f)
  {
    forall f ensures NamedOutside(after, left - {n}, f) <==> NamedOutside(before, left, f) || Names(after[n], f) {
      if NamedOutside(before, left, f) {
        var m :| m in before && m !in left && Names(before[m], f);
        assert m in after && m !in left - {n} && Names(after[m], f);
      }
      if NamedOutside(after, left - {n}, f) && !Names(after[n], f) {
        var m :| m in after && m !in left - {n} && Names(after[m], f);
        assert m in before && m !in left && Names(before[m], f);
      }
    }
  }
}
