/** Rewriting the path fields of database records, and the separate scanner that
    afterwards looks for references to old roots. */
module DatabaseRewrite {
  import opened Artifacts
  import opened Paths
  import opened Mappings

  datatype Binary = Firecracker | Jailer
  datatype Stage = Configured | StagedRuntime | Previous

  /** The path-bearing fields of a virtual machine record. A nil runtime stage has no
      slot in the record's map. */
  datatype Slot =
    | Kernel | RootFS
    | Runtime(stage: Stage, binary: Binary)
    | Disk | ConsoleSocket | ConsoleLog | ApiSocket | VsockSocket | PidFile

  const GLOBAL_SLOTS: seq<Slot> := [
    Kernel, RootFS,
    Runtime(Configured, Firecracker), Runtime(Configured, Jailer),
    Runtime(StagedRuntime, Firecracker), Runtime(StagedRuntime, Jailer),
    Runtime(Previous, Firecracker), Runtime(Previous, Jailer)]
  const SERVICE_SLOTS: seq<Slot> := [Disk, ConsoleSocket, ConsoleLog, ApiSocket, VsockSocket, PidFile]

  /** Slots that belong to the service's own directory. */
  predicate Scoped(s: Slot) {
    !s.Kernel? && !s.RootFS? && !s.Runtime?
  }

  lemma SlotsAreListed(s: Slot)
    ensures s in GLOBAL_SLOTS <==> !Scoped(s)
    ensures s in SERVICE_SLOTS <==> Scoped(s)
  {
    if s.Runtime? {
      var i := 2 + (match s.stage case Configured => 0 case StagedRuntime => 2 case Previous => 4)
                 + (match s.binary case Firecracker => 0 case Jailer => 1);
      assert s.stage.Configured? || s.stage.StagedRuntime? || s.stage.Previous?;
      assert s.binary.Firecracker? || s.binary.Jailer?;
      assert GLOBAL_SLOTS[i] == s;
    }
  }

  lemma AllSlotsListed()
    ensures forall s :: s in GLOBAL_SLOTS <==> !Scoped(s)
    ensures forall s :: s in SERVICE_SLOTS <==> Scoped(s)
  {
    forall s: Slot ensures (s in GLOBAL_SLOTS <==> !Scoped(s)) && (s in SERVICE_SLOTS <==> Scoped(s)) {
      SlotsAreListed(s);
    }
  }

  /** The value of a service record. */
  datatype Record = Record(
    name: string, root: string, generation: int, latestGeneration: int,
    artifacts: map<string, Artifact>, vm: map<Slot, string>)

  // ----- specification of the rewrite -----

  function RefsAfter(f: Rewriter, refs: map<Ref, string>): map<Ref, string> {
    map ref | ref in refs :: Apply(f, refs[ref])
  }

  function ArtifactAfter(f: Rewriter, a: Artifact): Artifact {
    match a
    case Nil => Nil
    case Artifact(refs) => Artifact(RefsAfter(f, refs))
  }

  function ArtifactsAfter(f: Rewriter, artifacts: map<string, Artifact>): map<string, Artifact> {
    map a | a in artifacts :: ArtifactAfter(f, artifacts[a])
  }

  function VmAfter(full: Rewriter, scoped: Rewriter, vm: map<Slot, string>): map<Slot, string> {
    map s | s in vm :: Apply(if Scoped(s) then scoped else full, vm[s])
  }

  /** Every path field holds its relocated value; everything else is as it was. */
  function RecordAfter(full: Rewriter, scoped: Rewriter, r: Record): Record {
    r.(artifacts := ArtifactsAfter(full, r.artifacts), vm := VmAfter(full, scoped, r.vm))
  }

  predicate RefsRewritable(f: Rewriter, refs: map<Ref, string>) {
    forall ref :: ref in refs ==> !f(refs[ref]).Failed?
  }

  predicate ArtifactsRewritable(f: Rewriter, artifacts: map<string, Artifact>) {
    forall a :: a in artifacts && artifacts[a].Artifact? ==> RefsRewritable(f, artifacts[a].refs)
  }

  predicate SlotsRewritable(f: Rewriter, vm: map<Slot, string>, slots: seq<Slot>) {
    forall s :: s in slots && s in vm ==> !f(vm[s]).Failed?
  }

  lemma SameOnSlots(f: Rewriter, a: map<Slot, string>, b: map<Slot, string>, slots: seq<Slot>)
    requires a.Keys == b.Keys && forall s :: s in slots && s in a ==> a[s] == b[s]
    ensures SlotsRewritable(f, a, slots) <==> SlotsRewritable(f, b, slots)
  {
  }

  /** Rewriting the global slots and then the service slots rewrites every slot once. */
  lemma VmComposed(full: Rewriter, scoped: Rewriter, a: map<Slot, string>, b: map<Slot, string>, c: map<Slot, string>)
    requires a.Keys == b.Keys == c.Keys
    requires forall s :: s in b ==> b[s] == if !Scoped(s) then Apply(full, a[s]) else a[s]
    requires forall s :: s in c ==> c[s] == if Scoped(s) then Apply(scoped, b[s]) else b[s]
    ensures c == VmAfter(full, scoped, a)
    ensures c == a <==> b == a && c == b
  {
    if c == a {
      assert forall s :: s in b ==> b[s] == a[s];
    }
  }

  predicate Rewritable(full: Rewriter, scoped: Rewriter, r: Record) {
    && ArtifactsRewritable(full, r.artifacts)
    && SlotsRewritable(full, r.vm, GLOBAL_SLOTS)
    && SlotsRewritable(scoped, r.vm, SERVICE_SLOTS)
  }

  // ----- specification of the scanner -----

  datatype Field = ArtifactField(artifact: string, ref: Ref) | VmField(slot: Slot)

  /** An artifact is scanned only at its current reference: the active generation, else
      the latest generation, else "latest". */
  function Current(a: Artifact, generation: int, latestGeneration: int): (c: Option<Ref>)
    ensures c.Some? ==> a.Artifact? && c.value in a.refs
  {
    match a
    case Nil => None
    case Artifact(refs) =>
      if generation != 0 && Gen(generation) in refs then Some(Gen(generation))
      else if latestGeneration != 0 && latestGeneration != generation && Gen(latestGeneration) in refs
      then Some(Gen(latestGeneration))
      else if Latest in refs then Some(Latest)
      else None
  }

  /** The reference that is looked at: that of the active generation if there is one, failing
      that the one of the newest generation, and failing that "latest". Staged files and other
      generations never are. */
  predicate LookedAt(refs: map<Ref, string>, generation: int, latestGeneration: int, ref: Ref) {
    var active, newest := Gen(generation), Gen(latestGeneration);
    var hasActive := generation != 0 && active in refs;
    var hasNewest := latestGeneration != 0 && newest in refs;
    && ref in refs
    && (hasActive ==> ref == active)
    && (!hasActive && hasNewest ==> ref == newest)
    && (!hasActive && !hasNewest ==> ref == Latest)
  }

  lemma CurrentIsLookedAt(a: Artifact, generation: int, latestGeneration: int, ref: Ref)
    ensures Current(a, generation, latestGeneration) == Some(ref) <==>
            a.Artifact? && LookedAt(a.refs, generation, latestGeneration, ref)
  {
  }

  /** What the scanner asks of one value: would the mappings still change it? */
  type Probe = string -> bool

  function Against(ms: seq<Mapping>): Probe {
    v => Refers(ms, v)
  }

  /** The fields the scanner reports. */
  predicate Reported(probe: Probe, r: Record, f: Field) {
    match f
    case ArtifactField(a, ref) =>
      a in r.artifacts && Current(r.artifacts[a], r.generation, r.latestGeneration) == Some(ref) &&
      probe(r.artifacts[a].refs[ref])
    case VmField(s) => s in r.vm && probe(r.vm[s])
  }

  // ----- rewrite, then scan -----

  /** After a rewrite that did not fail, with roots and targets that do not nest, the
      scanner reports exactly the service-scoped fields that are stuck behind the data-dir
      move; so it reports nothing if and only if no field is stuck. */
  lemma RewriteThenScan(ms: seq<Mapping>, r: Record, f: Field)
    requires NonNested(ms) && Rewritable(By(ms), By(ServiceScoped(ms)), r)
    ensures Reported(Against(ms), RecordAfter(By(ms), By(ServiceScoped(ms)), r), f) <==>
            f.VmField? && f.slot in r.vm && Scoped(f.slot) && Stuck(ms, r.vm[f.slot])
  {
    NonNestedIsSettled(ms);
    match f
    case ArtifactField(a, ref) =>
      if a in r.artifacts && r.artifacts[a].Artifact? && ref in r.artifacts[a].refs {
        assert RefsRewritable(By(ms), r.artifacts[a].refs);
        ValueSettles(ms, r.artifacts[a].refs[ref]);
      }
    case VmField(s) =>
      if s in r.vm {
        SlotsAreListed(s);
        if Scoped(s) {
          ScopedValueReportedIffStuck(ms, r.vm[s]);
          ApplyBy(ServiceScoped(ms), r.vm[s]);
        } else {
          ValueSettles(ms, r.vm[s]);
        }
      }
  }

  /** A record that was not rewritten is caught: a machine field, or an artifact's reference
      that is looked at, below an old root makes the validation fail. */
  lemma OldRootIsReported(ms: seq<Mapping>, records: map<string, Record>, k: string, f: Field)
    requires k in records
    requires match f
             case VmField(s) => s in records[k].vm && Refers(ms, records[k].vm[s])
             case ArtifactField(a, ref) =>
               && a in records[k].artifacts && records[k].artifacts[a].Artifact?
               && LookedAt(records[k].artifacts[a].refs, records[k].generation, records[k].latestGeneration, ref)
               && Refers(ms, records[k].artifacts[a].refs[ref])
    ensures Reported(Against(ms), records[k], f) && !Validated(Against(ms), records)
  {
    if f.ArtifactField? {
      CurrentIsLookedAt(records[k].artifacts[f.artifact], records[k].generation, records[k].latestGeneration, f.ref);
    }
    assert Reported(Against(ms), records[k], f);
  }

  /** In an artifact that has the active generation, that one decides, whatever else it has. */
  lemma ActiveDecides(refs: map<Ref, string>, generation: int, latestGeneration: int)
    requires generation != 0 && Gen(generation) in refs
    ensures forall ref :: LookedAt(refs, generation, latestGeneration, ref) <==> ref == Gen(generation)
    ensures !LookedAt(refs, generation, latestGeneration, Staged)
  {
  }

  predicate SomethingStuck(ms: seq<Mapping>, r: Record) {
    exists s :: s in r.vm && Scoped(s) && Stuck(ms, r.vm[s])
  }

  ghost predicate SomethingReported(probe: Probe, r: Record) {
    exists f :: Reported(probe, r, f)
  }

  lemma RecordCleanIffNothingStuck(ms: seq<Mapping>, r: Record)
    requires NonNested(ms) && Rewritable(By(ms), By(ServiceScoped(ms)), r)
    ensures SomethingReported(Against(ms), RecordAfter(By(ms), By(ServiceScoped(ms)), r)) <==> SomethingStuck(ms, r)
  {
    var after := RecordAfter(By(ms), By(ServiceScoped(ms)), r);
    if SomethingReported(Against(ms), after) {
      var f :| Reported(Against(ms), after, f);
      RewriteThenScan(ms, r, f);
    }
    if SomethingStuck(ms, r) {
      var s :| s in r.vm && Scoped(s) && Stuck(ms, r.vm[s]);
      RewriteThenScan(ms, r, VmField(s));
    }
  }

  ghost predicate Validated(probe: Probe, records: map<string, Record>) {
    forall k :: k in records ==> !SomethingReported(probe, records[k])
  }

  predicate NothingStuck(ms: seq<Mapping>, records: map<string, Record>) {
    forall k :: k in records ==> !SomethingStuck(ms, records[k])
  }

  /** The validation that follows a rewrite of the whole database passes if and only if no
      service-scoped field of any virtual machine is stuck. */
  lemma DatabaseCleanIffNothingStuck(ms: seq<Mapping>, records: map<string, Record>)
    requires NonNested(ms) && AllRewritable(By(ms), By(ServiceScoped(ms)), records)
    ensures Validated(Against(ms), RecordsAfter(By(ms), By(ServiceScoped(ms)), records)) <==>
            NothingStuck(ms, records)
  {
    var full, scoped, probe := By(ms), By(ServiceScoped(ms)), Against(ms);
    forall k | k in records
      ensures SomethingReported(probe, RecordAfter(full, scoped, records[k])) <==> SomethingStuck(ms, records[k])
    {
      RecordCleanIffNothingStuck(ms, records[k]);
    }
    Pointwise(full, scoped, probe, ms, records);
  }

  lemma Pointwise(full: Rewriter, scoped: Rewriter, probe: Probe, ms: seq<Mapping>, records: map<string, Record>)
    requires forall k :: k in records ==>
               (SomethingReported(probe, RecordAfter(full, scoped, records[k])) <==> SomethingStuck(ms, records[k]))
    ensures Validated(probe, RecordsAfter(full, scoped, records)) <==> NothingStuck(ms, records)
  {
    var after := RecordsAfter(full, scoped, records);
    assert forall k :: k in records ==> after[k] == RecordAfter(full, scoped, records[k]);
  }

  lemma ApplyBy(ms: seq<Mapping>, v: string)
    ensures Apply(By(ms), v) == After(ms, v)
  {
  }

  lemma ValueSettles(ms: seq<Mapping>, v: string)
    requires Settled(ms) && !By(ms)(v).Failed?
    ensures !Refers(ms, Apply(By(ms), v))
    ensures Apply(By(ms), Apply(By(ms), v)) == Apply(By(ms), v)
  {
    RewriteIdempotent(ms, v);
  }

  lemma RefsSettle(ms: seq<Mapping>, refs: map<Ref, string>)
    requires Settled(ms) && RefsRewritable(By(ms), refs)
    ensures RefsAfter(By(ms), RefsAfter(By(ms), refs)) == RefsAfter(By(ms), refs)
  {
    forall ref | ref in refs
      ensures Apply(By(ms), Apply(By(ms), refs[ref])) == Apply(By(ms), refs[ref])
    {
      ValueSettles(ms, refs[ref]);
    }
  }

  /** A second rewrite changes no record, when the mappings are settled both with and
      without the data-dir move (NonNested implies both). */
  lemma RecordRewriteIdempotent(ms: seq<Mapping>, r: Record)
    requires Settled(ms) && Settled(ServiceScoped(ms))
    requires Rewritable(By(ms), By(ServiceScoped(ms)), r)
    ensures var once := RecordAfter(By(ms), By(ServiceScoped(ms)), r);
            RecordAfter(By(ms), By(ServiceScoped(ms)), once) == once
  {
    var full, scoped := By(ms), By(ServiceScoped(ms));
    forall a | a in r.artifacts
      ensures ArtifactAfter(full, ArtifactAfter(full, r.artifacts[a])) == ArtifactAfter(full, r.artifacts[a])
    {
      if r.artifacts[a].Artifact? {
        assert RefsRewritable(full, r.artifacts[a].refs);
        RefsSettle(ms, r.artifacts[a].refs);
      }
    }
    assert ArtifactsAfter(full, ArtifactsAfter(full, r.artifacts)) == ArtifactsAfter(full, r.artifacts);
    forall s | s in r.vm
      ensures var f := if Scoped(s) then scoped else full; Apply(f, Apply(f, r.vm[s])) == Apply(f, r.vm[s])
    {
      SlotsAreListed(s);
      ValueSettles(if Scoped(s) then ServiceScoped(ms) else ms, r.vm[s]);
    }
    assert VmAfter(full, scoped, VmAfter(full, scoped, r.vm)) == VmAfter(full, scoped, r.vm);
  }

  lemma NonNestedSettlesBoth(ms: seq<Mapping>)
    requires NonNested(ms)
    ensures Settled(ms) && Settled(ServiceScoped(ms))
  {
    NonNestedIsSettled(ms);
    assert NonNested(ServiceScoped(ms));
    NonNestedIsSettled(ServiceScoped(ms));
  }

  // ----- what a rewrite has changed, finished or not -----

  function ChangedRefs(a: map<Ref, string>, b: map<Ref, string>): set<Ref> {
    set ref | ref in a && ref in b && a[ref] != b[ref]
  }

  function ChangedSlots(a: map<Slot, string>, b: map<Slot, string>): set<Slot> {
    set s | s in a && s in b && a[s] != b[s]
  }

  function ChangedArtifact(name: string, a: Artifact, b: Artifact): set<Field> {
    if a.Artifact? && b.Artifact? then set ref | ref in ChangedRefs(a.refs, b.refs) :: ArtifactField(name, ref) else {}
  }

  function ChangedArtifacts(a: map<string, Artifact>, b: map<string, Artifact>): set<Field> {
    set n, f | n in a && n in b && f in ChangedArtifact(n, a[n], b[n]) :: f
  }

  function ChangedVm(a: map<Slot, string>, b: map<Slot, string>): set<Field> {
    set s | s in ChangedSlots(a, b) :: VmField(s)
  }

  /** The path fields whose values differ. */
  function Changes(a: Record, b: Record): set<Field> {
    ChangedArtifacts(a.artifacts, b.artifacts) + ChangedVm(a.vm, b.vm)
  }

  /** Each value is as it was or rewritten. */
  predicate RefsBetween(f: Rewriter, before: map<Ref, string>, now: map<Ref, string>) {
    && now.Keys == before.Keys
    && forall ref :: ref in before ==> now[ref] == before[ref] || now[ref] == Apply(f, before[ref])
  }

  predicate ArtifactBetween(f: Rewriter, before: Artifact, now: Artifact) {
    if before.Nil? then now.Nil? else now.Artifact? && RefsBetween(f, before.refs, now.refs)
  }

  predicate ArtifactsBetween(f: Rewriter, before: map<string, Artifact>, now: map<string, Artifact>) {
    now.Keys == before.Keys && forall a :: a in before ==> ArtifactBetween(f, before[a], now[a])
  }

  predicate VmBetween(full: Rewriter, scoped: Rewriter, before: map<Slot, string>, now: map<Slot, string>) {
    && now.Keys == before.Keys
    && forall s :: s in before ==> now[s] == before[s] || now[s] == Apply(if Scoped(s) then scoped else full, before[s])
  }

  /** Some path fields are rewritten, the others and all else are as they were. */
  predicate Between(full: Rewriter, scoped: Rewriter, before: Record, now: Record) {
    && now == before.(artifacts := now.artifacts, vm := now.vm)
    && ArtifactsBetween(full, before.artifacts, now.artifacts)
    && VmBetween(full, scoped, before.vm, now.vm)
  }

  lemma {:induction false} RefFieldsSize(name: string, refs: set<Ref>)
    ensures |set ref | ref in refs :: ArtifactField(name, ref)| == |refs|
    decreases |refs|
  {
    if refs != {} {
      var x :| x in refs;
      RefFieldsSize(name, refs - {x});
      assert (set ref | ref in refs :: ArtifactField(name, ref))
          == (set ref | ref in refs - {x} :: ArtifactField(name, ref)) + {ArtifactField(name, x)};
    } else {
      assert (set ref | ref in refs :: ArtifactField(name, ref)) == {};
    }
  }

  lemma {:induction false} VmFieldsSize(slots: set<Slot>)
    ensures |set s | s in slots :: VmField(s)| == |slots|
    decreases |slots|
  {
    if slots != {} {
      var x :| x in slots;
      VmFieldsSize(slots - {x});
      assert (set s | s in slots :: VmField(s)) == (set s | s in slots - {x} :: VmField(s)) + {VmField(x)};
    } else {
      assert (set s | s in slots :: VmField(s)) == {};
    }
  }

  lemma NothingChanged(full: Rewriter, scoped: Rewriter, a: Record, b: Record)
    requires Between(full, scoped, a, b)
    ensures |Changes(a, b)| == 0 <==> a == b
  {
    if Changes(a, b) == {} {
      ArtifactsSame(full, a.artifacts, b.artifacts);
      forall s | s in a.vm ensures a.vm[s] == b.vm[s] {
        assert VmField(s) !in Changes(a, b);
      }
      assert a.vm == b.vm;
    }
    if a == b {
      assert Changes(a, b) == {};
    }
  }

  lemma ArtifactsSame(f: Rewriter, a: map<string, Artifact>, b: map<string, Artifact>)
    requires ArtifactsBetween(f, a, b) && ChangedArtifacts(a, b) == {}
    ensures a == b
  {
    forall n | n in a ensures a[n] == b[n] {
      assert ArtifactBetween(f, a[n], b[n]);
      if a[n].Artifact? {
        forall ref | ref in a[n].refs ensures a[n].refs[ref] == b[n].refs[ref] {
          ChangedOf(a, b, ArtifactField(n, ref));
          assert ref !in ChangedRefs(a[n].refs, b[n].refs);
        }
        assert a[n].refs == b[n].refs;
      }
    }
  }

  /** One more artifact. */
  lemma ArtifactsStep(before: map<string, Artifact>, now: map<string, Artifact>, name: string, refs: map<Ref, string>)
    requires now.Keys == before.Keys && name in before && now[name] == before[name] && before[name].Artifact?
    ensures var next := now[name := Artifact(refs)];
            |ChangedArtifacts(before, next)| == |ChangedArtifacts(before, now)| + |ChangedRefs(before[name].refs, refs)|
  {
    var next := now[name := Artifact(refs)];
    var more := ChangedArtifact(name, before[name], Artifact(refs));
    assert ChangedArtifact(name, before[name], now[name]) == {};
    forall f ensures f in ChangedArtifacts(before, next) <==> f in ChangedArtifacts(before, now) || f in more {
      ChangedOf(before, next, f);
      ChangedOf(before, now, f);
    }
    assert ChangedArtifacts(before, next) == ChangedArtifacts(before, now) + more;
    forall f | f in more ensures f !in ChangedArtifacts(before, now) {
      ChangedOf(before, now, f);
    }
    RefFieldsSize(name, ChangedRefs(before[name].refs, refs));
  }

  lemma ChangedOf(a: map<string, Artifact>, b: map<string, Artifact>, f: Field)
    ensures f in ChangedArtifacts(a, b) <==>
              f.ArtifactField? && f.artifact in a && f.artifact in b &&
              f in ChangedArtifact(f.artifact, a[f.artifact], b[f.artifact])
  {
  }

  /** The global and the scoped slots are counted once. */
  lemma SlotsAdd(a: map<Slot, string>, middle: map<Slot, string>, b: map<Slot, string>)
    requires a.Keys == middle.Keys == b.Keys
    requires forall s :: s in middle && Scoped(s) ==> middle[s] == a[s]
    requires forall s :: s in middle && !Scoped(s) ==> b[s] == middle[s]
    ensures |ChangedSlots(a, b)| == |ChangedSlots(a, middle)| + |ChangedSlots(middle, b)|
  {
    assert ChangedSlots(a, b) == ChangedSlots(a, middle) + ChangedSlots(middle, b);
    assert ChangedSlots(a, middle) !! ChangedSlots(middle, b);
  }

  lemma ChangesAdd(a: Record, b: Record)
    ensures |Changes(a, b)| == |ChangedArtifacts(a.artifacts, b.artifacts)| + |ChangedSlots(a.vm, b.vm)|
  {
    VmFieldsSize(ChangedSlots(a.vm, b.vm));
    assert ChangedArtifacts(a.artifacts, b.artifacts) !! ChangedVm(a.vm, b.vm);
  }

  // ----- the record and its methods -----

  class Service {
    const name: string
    var root: string
    var generation: int
    var latestGeneration: int
    var artifacts: map<string, Artifact>
    var vm: map<Slot, string>

    constructor (name: string, root: string)
      ensures View() == Record(name, root, 0, 0, map[], map[])
    {
      this.name := name;
      this.root := root;
      generation, latestGeneration := 0, 0;
      artifacts, vm := map[], map[];
    }

    ghost function View(): Record
      reads this
    {
      Record(name, root, generation, latestGeneration, artifacts, vm)
    }

    /** Rewrites the path fields in place and counts those it has changed, also when it stops
        at a field that fails. It succeeds exactly when no field fails. */
    method RewritePaths(full: Rewriter, scoped: Rewriter) returns (changed: nat, ok: bool)
      requires Honest(full) && Honest(scoped)
      modifies this`artifacts, this`vm
      ensures ok <==> Rewritable(full, scoped, old(View()))
      ensures ok ==> View() == RecordAfter(full, scoped, old(View()))
      ensures Between(full, scoped, old(View()), View())
      ensures changed == |Changes(old(View()), View())|
      ensures changed == 0 <==> View() == old(View())
    {
      hide Honest, ArtifactsBetween, ChangedArtifacts, ChangedSlots, Changes;
      hide ArtifactsRewritable, SlotsRewritable, ArtifactsAfter, VmAfter, VmBetween;
      ghost var before := View();
      changed, ok := RewriteArtifactRefs(full);
      if ok {
        var more: nat;
        more, ok := RewriteVmPaths(full, scoped);
        changed := changed + more;
      } else {
        NothingMoved(full, scoped, vm);
      }
      ChangesAdd(before, View());
      NothingChanged(full, scoped, before, View());
    }

    /** The fields of a virtual machine: those that belong to the service's own directory
        are rewritten without the data-dir move. */
    method RewriteVmPaths(full: Rewriter, scoped: Rewriter) returns (changed: nat, ok: bool)
      requires Honest(full) && Honest(scoped)
      modifies this`vm
      ensures ok <==> SlotsRewritable(full, old(vm), GLOBAL_SLOTS) && SlotsRewritable(scoped, old(vm), SERVICE_SLOTS)
      ensures ok ==> vm == VmAfter(full, scoped, old(vm))
      ensures VmBetween(full, scoped, old(vm), vm)
      ensures changed == |ChangedSlots(old(vm), vm)|
    {
      hide Honest, SlotsRewritable, ChangedSlots;
      ghost var before := vm;
      AllSlotsListed();
      hide Scoped;
      changed, ok := RewriteSlots(full, GLOBAL_SLOTS);
      if ok {
        ghost var middle := vm;
        SameOnSlots(scoped, before, middle, SERVICE_SLOTS);
        var more: nat;
        more, ok := RewriteSlots(scoped, SERVICE_SLOTS);
        changed := changed + more;
        SlotsAdd(before, middle, vm);
        if ok {
          VmComposed(full, scoped, before, middle, vm);
        }
      }
    }

    /** Rewrites every reference of every artifact in place, up to the first that fails. */
    method RewriteArtifactRefs(f: Rewriter) returns (changed: nat, ok: bool)
      requires Honest(f)
      modifies this`artifacts
      ensures ok <==> ArtifactsRewritable(f, old(artifacts))
      ensures ok ==> artifacts == ArtifactsAfter(f, old(artifacts))
      ensures ArtifactsBetween(f, old(artifacts), artifacts)
      ensures changed == |ChangedArtifacts(old(artifacts), artifacts)|
    {
      hide ChangedArtifacts, RefsRewritable, RefsAfter, Honest;
      ghost var before := artifacts;
      NoneChanged(before);
      changed, ok := 0, true;
      var names := artifacts.Keys;
      while names != {}
        invariant names <= before.Keys == artifacts.Keys
        invariant forall a :: a in names ==> artifacts[a] == before[a]
        invariant forall a :: a in before && a !in names ==> artifacts[a] == ArtifactAfter(f, before[a])
        invariant forall a :: a in before && a !in names && before[a].Artifact? ==> RefsRewritable(f, before[a].refs)
        invariant ArtifactsBetween(f, before, artifacts)
        invariant changed == |ChangedArtifacts(before, artifacts)|
        decreases |names|
      {
        var a :| a in names;
        if artifacts[a].Artifact? {
          var refs, more, fine := RewriteRefs(f, artifacts[a].refs);
          ArtifactsStep(before, artifacts, a, refs);
          artifacts := artifacts[a := Artifact(refs)];
          changed := changed + more;
          if !fine {
            ok := false;
            return;
          }
        }
        names := names - {a};
      }
    }

    /** Rewrites the listed fields in order, skipping those the record does not have, up to
        the first that fails. */
    method RewriteSlots(f: Rewriter, slots: seq<Slot>) returns (changed: nat, ok: bool)
      requires Honest(f)
      requires forall i, j :: 0 <= i < j < |slots| ==> slots[i] != slots[j]
      modifies this`vm
      ensures ok <==> SlotsRewritable(f, old(vm), slots)
      ensures vm.Keys == old(vm).Keys
      ensures ok ==> forall s :: s in vm ==> vm[s] == if s in slots then Apply(f, old(vm)[s]) else old(vm)[s]
      ensures forall s :: s in vm ==> vm[s] == old(vm)[s] || (s in slots && vm[s] == Apply(f, old(vm)[s]))
      ensures changed == |ChangedSlots(old(vm), vm)|
    {
      ghost var before := vm;
      changed, ok := 0, true;
      assert ChangedSlots(before, vm) == {};
      for i := 0 to |slots|
        invariant vm.Keys == before.Keys
        invariant forall s :: s in vm ==> vm[s] == if s in slots[..i] then Apply(f, before[s]) else before[s]
        invariant SlotsRewritable(f, before, slots[..i])
        invariant changed == |ChangedSlots(before, vm)|
      {
        var s := slots[i];
        assert slots[..i + 1] == slots[..i] + [s];
        if s in vm {
          assert s !in slots[..i];
          var verdict := f(vm[s]);
          if verdict.Failed? {
            ok := false;
            return;
          }
          if verdict.Moved? {
            SlotsStep(before, vm, s, verdict.text);
            vm := vm[s := verdict.text];
            changed := changed + 1;
          }
        }
      }
      assert slots[..|slots|] == slots;
    }
  }

  lemma NothingMoved(full: Rewriter, scoped: Rewriter, vm: map<Slot, string>)
    ensures ChangedSlots(vm, vm) == {} && VmBetween(full, scoped, vm, vm)
  {
  }

  lemma NoneChanged(artifacts: map<string, Artifact>)
    ensures ChangedArtifacts(artifacts, artifacts) == {}
  {
  }

  lemma SlotsStep(before: map<Slot, string>, now: map<Slot, string>, s: Slot, text: string)
    requires s in before && s in now && now[s] == before[s] && text != before[s]
    ensures |ChangedSlots(before, now[s := text])| == |ChangedSlots(before, now)| + 1
  {
    assert ChangedSlots(before, now[s := text]) == ChangedSlots(before, now) + {s};
  }

  /** The order in which the scanner visits the machine fields. */
  const SCAN_SLOTS: seq<Slot> := [
    Kernel, RootFS, Disk, ConsoleSocket, ConsoleLog, ApiSocket, VsockSocket, PidFile,
    Runtime(Configured, Firecracker), Runtime(Configured, Jailer),
    Runtime(StagedRuntime, Firecracker), Runtime(StagedRuntime, Jailer),
    Runtime(Previous, Firecracker), Runtime(Previous, Jailer)]

  lemma EverySlotIsScanned(s: Slot)
    ensures s in SCAN_SLOTS
  {
    var i := match s
      case Kernel => 0
      case RootFS => 1
      case Disk => 2
      case ConsoleSocket => 3
      case ConsoleLog => 4
      case ApiSocket => 5
      case VsockSocket => 6
      case PidFile => 7
      case Runtime(stage, binary) =>
        8 + (if stage.Configured? then 0 else if stage.StagedRuntime? then 2 else 4)
          + (if binary.Firecracker? then 0 else 1);
    assert SCAN_SLOTS[i] == s;
  }

  /** scanHostStorageServiceArtifactRefs and the machine fields of scanHostStorageDataRefs:
      lists every reported field of one record and no other. */
  method Scan(probe: Probe, r: Record) returns (refs: seq<Field>)
    ensures forall f :: f in refs <==> Reported(probe, r, f)
    ensures forall s :: VmField(s) in refs <==> s in r.vm && probe(r.vm[s])
    ensures forall a, ref :: ArtifactField(a, ref) in refs <==>
              && a in r.artifacts && r.artifacts[a].Artifact?
              && LookedAt(r.artifacts[a].refs, r.generation, r.latestGeneration, ref)
              && probe(r.artifacts[a].refs[ref])
  {
    refs := [];
    var names := r.artifacts.Keys;
    while names != {}
      invariant names <= r.artifacts.Keys
      invariant forall f :: f in refs <==>
                  f.ArtifactField? && f.artifact !in names && Reported(probe, r, f)
      decreases |names|
    {
      var a :| a in names;
      var current := Current(r.artifacts[a], r.generation, r.latestGeneration);
      if current.Some? && probe(r.artifacts[a].refs[current.value]) {
        refs := refs + [ArtifactField(a, current.value)];
      }
      names := names - {a};
    }
    for i := 0 to |SCAN_SLOTS|
      invariant forall f :: f in refs <==>
                  Reported(probe, r, f) && (f.VmField? ==> f.slot in SCAN_SLOTS[..i])
    {
      var s := SCAN_SLOTS[i];
      assert SCAN_SLOTS[..i + 1] == SCAN_SLOTS[..i] + [s];
      if s in r.vm && probe(r.vm[s]) {
        refs := refs + [VmField(s)];
      }
    }
    assert SCAN_SLOTS[..|SCAN_SLOTS|] == SCAN_SLOTS;
    forall s: Slot ensures s in SCAN_SLOTS {
      EverySlotIsScanned(s);
    }
    forall a, ref ensures ArtifactField(a, ref) in refs <==>
        && a in r.artifacts && r.artifacts[a].Artifact?
        && LookedAt(r.artifacts[a].refs, r.generation, r.latestGeneration, ref)
        && probe(r.artifacts[a].refs[ref])
    {
      if a in r.artifacts {
        CurrentIsLookedAt(r.artifacts[a], r.generation, r.latestGeneration, ref);
      }
    }
  }

  /** Rewrites one artifact's references, up to the first that fails. */
  method RewriteRefs(f: Rewriter, refs: map<Ref, string>)
    returns (out: map<Ref, string>, changed: nat, ok: bool)
    requires Honest(f)
    ensures ok <==> RefsRewritable(f, refs)
    ensures ok ==> out == RefsAfter(f, refs)
    ensures RefsBetween(f, refs, out)
    ensures changed == |ChangedRefs(refs, out)|
  {
    out, changed, ok := refs, 0, true;
    assert ChangedRefs(refs, out) == {};
    var left := refs.Keys;
    while left != {}
      invariant left <= refs.Keys == out.Keys
      invariant forall ref :: ref in left ==> out[ref] == refs[ref]
      invariant forall ref :: ref in refs && ref !in left ==> out[ref] == Apply(f, refs[ref])
      invariant forall ref :: ref in refs && ref !in left ==> !f(refs[ref]).Failed?
      invariant changed == |ChangedRefs(refs, out)|
      decreases |left|
    {
      var ref :| ref in left;
      var verdict := f(out[ref]);
      if verdict.Failed? {
        ok := false;
        return;
      }
      if verdict.Moved? {
        assert ChangedRefs(refs, out[ref := verdict.text]) == ChangedRefs(refs, out) + {ref};
        out := out[ref := verdict.text];
        changed := changed + 1;
      }
      left := left - {ref};
    }
  }

  // ----- the whole database -----

  class Data {
    var services: map<string, Service?>

    constructor ()
      ensures services == map[]
    {
      services := map[];
    }

    /** No record is stored under two keys. */
    ghost predicate Distinct()
      reads this
    {
      forall a, b :: a in services && b in services && a != b && services[a] == services[b] ==> services[a] == null
    }

    ghost function Records(): map<string, Record>
      reads this, services.Values
    {
      map k | k in services && services[k] != null :: services[k].View()
    }

    /** rewriteHostStorageDataPaths: all services in place, nil entries skipped, stopping at
        the first failure (the surrounding database mutation then discards everything). Then
        one record may be rewritten in part; every other one is rewritten or untouched. */
    method RewritePaths(ms: seq<Mapping>) returns (changed: nat, ok: bool)
      requires Distinct()
      modifies services.Values
      ensures services == old(services)
      ensures ms == [] ==> ok && changed == 0 && Records() == old(Records())
      ensures ms != [] ==> (ok <==> AllRewritable(By(ms), By(ServiceScoped(ms)), old(Records())))
      ensures ms != [] && ok ==> Records() == RecordsAfter(By(ms), By(ServiceScoped(ms)), old(Records()))
      ensures ok ==> changed == |AllChanges(old(Records()), Records())|
      ensures ok ==> (changed == 0 <==> Records() == old(Records()))
      ensures !ok ==> exists k :: StoppedAt(By(ms), By(ServiceScoped(ms)), old(Records()), Records(), k, changed)
    {
      if ms == [] {
        changed, ok := 0, true;
        NoChangesAtAll(Records());
        return;
      }
      ByIsHonest(ms);
      ByIsHonest(ServiceScoped(ms));
      changed, ok := RewriteServices(By(ms), By(ServiceScoped(ms)));
    }

    method RewriteServices(full: Rewriter, scoped: Rewriter) returns (changed: nat, ok: bool)
      requires Distinct() && Honest(full) && Honest(scoped)
      modifies services.Values
      ensures services == old(services)
      ensures ok <==> AllRewritable(full, scoped, old(Records()))
      ensures ok ==> Records() == RecordsAfter(full, scoped, old(Records()))
      ensures ok ==> changed == |AllChanges(old(Records()), Records())|
      ensures ok ==> (changed == 0 <==> Records() == old(Records()))
      ensures !ok ==> exists k :: StoppedAt(full, scoped, old(Records()), Records(), k, changed)
    {
      hide AllChanges, Between, Rewritable, RecordAfter, Honest, Changes;
      hide PartlyRewritten, StoppedAt, AllRewritable, RecordsAfter;
      ghost var before := Records();
      ghost var now := before;
      NoChangesAtAll(before);
      PartlyStarts(full, scoped, before, services.Keys);
      changed, ok := 0, true;
      var keys := services.Keys;
      while keys != {}
        invariant keys <= services.Keys && services == old(services)
        invariant Records() == now && now.Keys == before.Keys
        invariant PartlyRewritten(full, scoped, before, now, keys)
        invariant changed == |AllChanges(before, now)|
        decreases |keys|
      {
        var k :| k in keys;
        if services[k] != null {
          var more, fine := RewriteOne(k, services[k], full, scoped);
          PartlyStep(full, scoped, before, now, keys, k);
          AllChangesStep(before, now, k, Records()[k]);
          if !fine {
            ok := false;
            StopsHere(full, scoped, before, now, keys, k, Records()[k], changed);
            return;
          }
          changed := changed + more;
          now := Records();
        } else {
          PartlySkips(full, scoped, before, now, keys, k);
        }
        keys := keys - {k};
      }
      PartlyDone(full, scoped, before, now);
      AllChangesNone(full, scoped, before);
    }

    method RewriteOne(k: string, service: Service, full: Rewriter, scoped: Rewriter) returns (changed: nat, ok: bool)
      requires k in services && services[k] == service && Distinct()
      requires Honest(full) && Honest(scoped)
      modifies service
      ensures services == old(services) && Records().Keys == old(Records()).Keys
      ensures k in Records() && Records() == old(Records())[k := Records()[k]]
      ensures ok <==> Rewritable(full, scoped, old(Records())[k])
      ensures ok ==> Records()[k] == RecordAfter(full, scoped, old(Records())[k])
      ensures Between(full, scoped, old(Records())[k], Records()[k])
      ensures changed == |Changes(old(Records())[k], Records()[k])|
    {
      hide Between, Rewritable, RecordAfter, Changes, Honest;
      ghost var before := Records();
      assert before[k] == service.View();
      changed, ok := service.RewritePaths(full, scoped);
      assert forall j :: j in before && j != k ==> services[j] != service;
      assert Records()[k] == service.View();
      assert forall j :: j in before && j != k ==> Records()[j] == before[j];
    }
  }

  /** The fields whose values differ, in all records. */
  function AllChanges(before: map<string, Record>, now: map<string, Record>): set<(string, Field)> {
    set k, f | k in before && k in now && f in Changes(before[k], now[k]) :: (k, f)
  }

  /** The rewrite has stopped at a record with a field that fails. What it reports as changed
      leaves this record out. */
  predicate StoppedAt(full: Rewriter, scoped: Rewriter,
                      before: map<string, Record>, now: map<string, Record>, k: string, changed: nat)
  {
    && now.Keys == before.Keys && k in before && !Rewritable(full, scoped, before[k])
    && Between(full, scoped, before[k], now[k])
    && (forall j :: j in before && j != k ==>
          || now[j] == before[j]
          || (now[j] == RecordAfter(full, scoped, before[j]) && Rewritable(full, scoped, before[j])))
    && changed == |AllChanges(before, now[k := before[k]])|
  }

  lemma NoChangesAtAll(records: map<string, Record>)
    ensures AllChanges(records, records) == {}
  {
    forall k | k in records ensures Changes(records[k], records[k]) == {} {
    }
  }

  lemma {:induction false} KeyedSize(k: string, fields: set<Field>)
    ensures |set f | f in fields :: (k, f)| == |fields|
    decreases |fields|
  {
    if fields != {} {
      var x :| x in fields;
      KeyedSize(k, fields - {x});
      assert (set f | f in fields :: (k, f)) == (set f | f in fields - {x} :: (k, f)) + {(k, x)};
    } else {
      assert (set f | f in fields :: (k, f)) == {};
    }
  }

  lemma AllChangesStep(before: map<string, Record>, now: map<string, Record>, k: string, r: Record)
    requires now.Keys == before.Keys && k in before && now[k] == before[k]
    ensures |AllChanges(before, now[k := r])| == |AllChanges(before, now)| + |Changes(before[k], r)|
  {
    var more := set f | f in Changes(before[k], r) :: (k, f);
    assert Changes(before[k], now[k]) == {};
    assert AllChanges(before, now[k := r]) == AllChanges(before, now) + more;
    assert AllChanges(before, now) !! more;
    KeyedSize(k, Changes(before[k], r));
  }

  lemma AfterIsBetween(full: Rewriter, scoped: Rewriter, r: Record)
    ensures Between(full, scoped, r, RecordAfter(full, scoped, r))
  {
  }

  lemma AllChangesNone(full: Rewriter, scoped: Rewriter, before: map<string, Record>)
    ensures var now := RecordsAfter(full, scoped, before); |AllChanges(before, now)| == 0 <==> now == before
  {
    var now := RecordsAfter(full, scoped, before);
    hide Changes, RecordAfter;
    forall k | k in before ensures Changes(before[k], now[k]) == {} <==> before[k] == now[k] {
      AfterIsBetween(full, scoped, before[k]);
      NothingChanged(full, scoped, before[k], now[k]);
    }
    if AllChanges(before, now) == {} {
      forall k | k in before ensures before[k] == now[k] {
        forall f ensures f !in Changes(before[k], now[k]) {
          assert (k, f) !in AllChanges(before, now);
        }
      }
    } else {
      var x :| x in AllChanges(before, now);
    }
  }

  /** The records under keys are still to do, all others are done. */
  ghost predicate PartlyRewritten(full: Rewriter, scoped: Rewriter,
                                  before: map<string, Record>, now: map<string, Record>, keys: set<string>)
    requires now.Keys == before.Keys
  {
    forall k :: k in before ==>
      if k in keys then now[k] == before[k]
      else now[k] == RecordAfter(full, scoped, before[k]) && Rewritable(full, scoped, before[k])
  }

  lemma PartlyStep(full: Rewriter, scoped: Rewriter,
                   before: map<string, Record>, now: map<string, Record>, keys: set<string>, k: string)
    requires now.Keys == before.Keys && PartlyRewritten(full, scoped, before, now, keys)
    requires k in keys && k in before
    ensures now[k] == before[k]
    ensures Rewritable(full, scoped, now[k]) ==>
              PartlyRewritten(full, scoped, before, now[k := RecordAfter(full, scoped, now[k])], keys - {k})
    ensures !Rewritable(full, scoped, now[k]) ==> !AllRewritable(full, scoped, before)
  {
  }

  lemma PartlyStarts(full: Rewriter, scoped: Rewriter, before: map<string, Record>, keys: set<string>)
    requires before.Keys <= keys
    ensures PartlyRewritten(full, scoped, before, before, keys)
  {
  }

  lemma PartlySkips(full: Rewriter, scoped: Rewriter,
                    before: map<string, Record>, now: map<string, Record>, keys: set<string>, k: string)
    requires now.Keys == before.Keys && PartlyRewritten(full, scoped, before, now, keys) && k !in before
    ensures PartlyRewritten(full, scoped, before, now, keys - {k})
  {
  }

  lemma StopsHere(full: Rewriter, scoped: Rewriter, before: map<string, Record>, now: map<string, Record>,
                  keys: set<string>, k: string, r: Record, changed: nat)
    requires now.Keys == before.Keys && PartlyRewritten(full, scoped, before, now, keys)
    requires k in keys && k in before && !Rewritable(full, scoped, now[k]) && Between(full, scoped, now[k], r)
    requires changed == |AllChanges(before, now)|
    ensures StoppedAt(full, scoped, before, now[k := r], k, changed)
  {
    hide Rewritable, Between, AllChanges, RecordAfter;
    assert now[k := r][k := before[k]] == now;
  }

  lemma PartlyDone(full: Rewriter, scoped: Rewriter, before: map<string, Record>, now: map<string, Record>)
    requires now.Keys == before.Keys && PartlyRewritten(full, scoped, before, now, {})
    ensures AllRewritable(full, scoped, before) && now == RecordsAfter(full, scoped, before)
  {
  }

  predicate AllRewritable(full: Rewriter, scoped: Rewriter, records: map<string, Record>) {
    forall k :: k in records ==> Rewritable(full, scoped, records[k])
  }

  function RecordsAfter(full: Rewriter, scoped: Rewriter, records: map<string, Record>): map<string, Record> {
    map k | k in records :: RecordAfter(full, scoped, records[k])
  }
}
