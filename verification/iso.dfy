/** Isolated networks: one address pool per host, cut into links and projects that services
    reserve, with all changes made as atomic mutations of the database. */
module IsoNetwork {
  import opened Artifacts
  import opened Ordering

  // ----- layout: addresses are numbers below 2^32 -----

  const MAX_LINKS := 8192
  const MAX_PROJECTS := 1024
  const POOL_SIZE := 65536
  const LINK_SIZE := 4
  const PROJECT_SIZE := 32
  const MAX_COMPONENTS := 29
  const FIRST_HOST := 2
  const LAST_HOST := 30

  /** A /16 that starts at base, in private address space. */
  predicate ValidPool(base: nat) {
    && base % POOL_SIZE == 0
    && (|| 0x0A00_0000 <= base < 0x0B00_0000    // 10.0.0.0/8
        || 0xAC10_0000 <= base < 0xAC20_0000    // 172.16.0.0/12
        || base == 0xC0A8_0000)                 // 192.168.0.0/16
  }

  function Link(pool: nat, index: nat): nat {
    Place(pool, LINK_SIZE, index)
  }

  function Project(pool: nat, index: nat): nat {
    Place(pool + POOL_SIZE / 2, PROJECT_SIZE, index)
  }

  datatype Kind = Compose | Container | Native | VM

  /** A link has no project unless it is for containers. Component addresses, active and
      retired, lie in the project. */
  datatype Alloc = Alloc(
    kind: Kind, link: nat, project: Option<nat>,
    components: map<string, nat>, retired: map<string, nat>, state: string, removing: bool)

  const RESERVED := "reserved"
  const TOMBSTONED := "tombstoned"

  /** The database as far as isolated networks go; services without one do not occur. */
  datatype Net = Net(pool: Option<nat>, allocs: map<string, Alloc>)

  // ----- first free -----

  function Place(start: nat, step: nat, i: nat): nat {
    start + step * i
  }

  /** The lowest of start + step * i, i < max, that is not used. */
  function LowestFree(start: nat, step: nat, used: set<nat>, i: nat, max: nat): Option<nat>
    decreases max - i
  {
    if i >= max then None
    else if Place(start, step, i) !in used then Some(Place(start, step, i))
    else LowestFree(start, step, used, i + 1, max)
  }

  lemma {:induction false} LowestFreeIsLowest(start: nat, step: nat, used: set<nat>, i: nat, max: nat)
    ensures var r := LowestFree(start, step, used, i, max);
            if r.Some? then
              r.value !in used &&
              exists k: nat :: i <= k < max && r.value == Place(start, step, k) &&
                forall j :: i <= j < k ==> Place(start, step, j) in used
            else forall j :: i <= j < max ==> Place(start, step, j) in used
    decreases max - i
  {
    if i < max && Place(start, step, i) in used {
      LowestFreeIsLowest(start, step, used, i + 1, max);
      var r := LowestFree(start, step, used, i + 1, max);
      if r.Some? {
        var k: nat :| i + 1 <= k < max && r.value == Place(start, step, k) &&
          forall j :: i + 1 <= j < k ==> Place(start, step, j) in used;
        assert forall j :: i <= j < k ==> Place(start, step, j) in used;
      }
    } else if i < max {
      assert LowestFree(start, step, used, i, max).value == Place(start, step, i);
    }
  }

  /** The search as a loop. */
  method FirstFree(start: nat, step: nat, used: set<nat>, max: nat) returns (r: Option<nat>)
    ensures r.Some? ==>
              r.value !in used &&
              exists k: nat :: k < max && r.value == Place(start, step, k) &&
                forall j :: 0 <= j < k ==> Place(start, step, j) in used
    ensures r.None? <==> forall j :: 0 <= j < max ==> Place(start, step, j) in used
    ensures r == LowestFree(start, step, used, 0, max)
  {
    var i := 0;
    while i < max
      invariant 0 <= i <= max
      invariant forall j :: 0 <= j < i ==> Place(start, step, j) in used
      invariant LowestFree(start, step, used, 0, max) == LowestFree(start, step, used, i, max)
    {
      var candidate := Place(start, step, i);
      if candidate !in used {
        return Some(candidate);
      }
      i := i + 1;
    }
    return None;
  }

  function UsedLinks(allocs: map<string, Alloc>): set<nat> {
    set n | n in allocs :: allocs[n].link
  }

  function UsedProjects(allocs: map<string, Alloc>): set<nat> {
    set n | n in allocs && allocs[n].project.Some? :: allocs[n].project.value
  }

  // ----- components -----

  /** Addresses of components so far; an active one overrides a retired one of its name. */
  function Current(a: Alloc): map<string, nat> {
    a.retired + a.components
  }

  predicate Hosts(project: nat, addrs: map<string, nat>) {
    && (forall n :: n in addrs ==> project + FIRST_HOST <= addrs[n] <= project + LAST_HOST)
    && (forall m, n :: m in addrs && n in addrs && m != n ==> addrs[m] != addrs[n])
  }

  /** Gives each name without an address the lowest one that nobody has used. */
  function Assign(project: nat, names: seq<string>, used: set<nat>, given: map<string, nat>): Option<map<string, nat>>
    decreases |names|
  {
    if names == [] then Some(given)
    else if names[0] in given then Assign(project, names[1..], used, given)
    else
      match LowestFree(project + FIRST_HOST, 1, used, 0, LAST_HOST - FIRST_HOST + 1)
      case None => None
      case Some(addr) => Assign(project, names[1..], used + {addr}, given[names[0] := addr])
  }

  predicate Distinct(names: seq<string>) {
    forall i, j :: 0 <= i < j < |names| ==> names[i] != names[j]
  }

  function Staying(current: map<string, nat>, names: seq<string>): map<string, nat> {
    map n | n in current && n in names :: current[n]
  }

  function Leaving(current: map<string, nat>, names: seq<string>): map<string, nat> {
    map n | n in current && n !in names :: current[n]
  }

  /** Who stays keeps its address, who leaves is retired with it, who comes gets a new one. */
  function PlanComponents(project: nat, current: map<string, nat>, names: seq<string>):
    Option<(map<string, nat>, map<string, nat>)>
  {
    if "" in names || !Distinct(names) || |names| > MAX_COMPONENTS || "" in current || !Hosts(project, current)
    then None
    else
      match Assign(project, UniqueSorted(names), current.Values, Staying(current, names))
      case None => None
      case Some(active) => Some((active, Leaving(current, names)))
  }

  lemma {:induction false} AssignHosts(project: nat, names: seq<string>, used: set<nat>, given: map<string, nat>,
                                       rest: map<string, nat>)
    requires Hosts(project, given + rest) && given.Keys !! rest.Keys && given.Values + rest.Values <= used
    requires forall n :: n in names ==> n !in rest
    requires Assign(project, names, used, given).Some?
    ensures var r := Assign(project, names, used, given).value;
            && r.Keys == given.Keys + (set n | n in names) && r.Keys !! rest.Keys && Hosts(project, r + rest)
            && forall n :: n in given ==> r[n] == given[n]
    decreases |names|
  {
    if names != [] {
      assert names[0] in names && forall n :: n in names[1..] ==> n in names;
      assert (set n | n in names) == {names[0]} + (set n | n in names[1..]);
      if names[0] in given {
        AssignHosts(project, names[1..], used, given, rest);
      } else {
        LowestFreeIsLowest(project + FIRST_HOST, 1, used, 0, LAST_HOST - FIRST_HOST + 1);
        var addr := LowestFree(project + FIRST_HOST, 1, used, 0, LAST_HOST - FIRST_HOST + 1).value;
        var given' := given[names[0] := addr];
        GivenHosts(project, given, rest, names[0], addr, used);
        AssignHosts(project, names[1..], used + {addr}, given', rest);
      }
    }
  }

  lemma GivenHosts(project: nat, given: map<string, nat>, rest: map<string, nat>, name: string, addr: nat,
                   used: set<nat>)
    requires Hosts(project, given + rest) && given.Keys !! rest.Keys && given.Values + rest.Values <= used
    requires name !in given && name !in rest && addr !in used
    requires project + FIRST_HOST <= addr <= project + LAST_HOST
    ensures var given' := given[name := addr];
            && Hosts(project, given' + rest) && given'.Keys !! rest.Keys && given'.Values + rest.Values <= used + {addr}
  {
    var given' := given[name := addr];
    var all, all' := given + rest, given' + rest;
    assert forall n :: n in all' ==> n == name || (n in all && all'[n] == all[n]);
    forall n | n in all ensures all[n] in used {
      assert if n in rest then rest[n] in rest.Values else given[n] in given.Values;
    }
    forall v | v in given'.Values ensures v in used + {addr} {
      var n :| n in given' && given'[n] == v;
      assert n != name ==> given[n] in given.Values;
    }
  }

  lemma SplitCurrent(current: map<string, nat>, names: seq<string>)
    ensures Staying(current, names) + Leaving(current, names) == current
    ensures Staying(current, names).Values + Leaving(current, names).Values <= current.Values
    ensures Staying(current, names).Keys !! Leaving(current, names).Keys
    ensures forall n :: n in names ==> n !in Leaving(current, names)
    ensures forall n :: n in Staying(current, names) ==> Staying(current, names)[n] == current[n]
    ensures forall n :: n in Leaving(current, names) ==> Leaving(current, names)[n] == current[n]
  {
    var staying, leaving := Staying(current, names), Leaving(current, names);
    forall v | v in staying.Values + leaving.Values ensures v in current.Values {
      if v in staying.Values {
        var n :| n in staying && staying[n] == v;
        assert current[n] == v;
      } else {
        var n :| n in leaving && leaving[n] == v;
        assert current[n] == v;
      }
    }
  }

  /** A successful plan keeps every address unique inside the project, keeps the address of
      every component that stays, and drops none. */
  lemma PlanKeepsAddresses(project: nat, current: map<string, nat>, names: seq<string>)
    requires PlanComponents(project, current, names).Some?
    ensures var (active, leaving) := PlanComponents(project, current, names).value;
            && active.Keys == (set n | n in names) && leaving.Keys == current.Keys - active.Keys
            && Hosts(project, leaving + active)
            && forall n :: n in current ==> (leaving + active)[n] == current[n]
  {
    hide Staying, Leaving, Assign;
    SplitCurrent(current, names);
    var staying, leaving := Staying(current, names), Leaving(current, names);
    AssignHosts(project, UniqueSorted(names), current.Values, staying, leaving);
    var active := Assign(project, UniqueSorted(names), current.Values, staying).value;
    PlanKeys(current, names, active);
    assert leaving + active == active + leaving;
  }

  lemma PlanKeys(current: map<string, nat>, names: seq<string>, active: map<string, nat>)
    requires active.Keys == Staying(current, names).Keys + (set n | n in UniqueSorted(names))
    ensures active.Keys == (set n | n in names) && Leaving(current, names).Keys == current.Keys - active.Keys
  {
  }

  // ----- mutations -----

  datatype Op =
    | EnsurePool(base: nat)                             // an automatic choice, made on older data
    | ApplyPool(planned: Option<nat>, desired: nat)     // planned: the pool the plan was made for
    | Reserve(name: string, kind: Kind, components: seq<string>)
    | Mark(name: string, state: string)
    | RequestRemoval(name: string)
    | Release(name: string)

  predicate ValidOp(op: Op) {
    && (op.EnsurePool? ==> ValidPool(op.base))
    && (op.ApplyPool? ==> ValidPool(op.desired))
  }

  predicate HasProject(kind: Kind) {
    kind == Compose || kind == Container
  }

  /** A new allocation: the lowest free link and, for containers, the lowest free project. */
  function NewAlloc(pool: nat, kind: Kind, allocs: map<string, Alloc>): Option<Alloc> {
    match LowestFree(pool, LINK_SIZE, UsedLinks(allocs), 0, MAX_LINKS)
    case None => None
    case Some(link) =>
      if !HasProject(kind) then Some(Alloc(kind, link, None, map[], map[], RESERVED, false))
      else
        match LowestFree(pool + POOL_SIZE / 2, PROJECT_SIZE, UsedProjects(allocs), 0, MAX_PROJECTS)
        case None => None
        case Some(project) => Some(Alloc(kind, link, Some(project), map[], map[], RESERVED, false))
  }

  function WithComponents(a: Alloc, names: seq<string>): Option<Alloc> {
    if a.project.None? then if names == [] then Some(a) else None
    else
      match PlanComponents(a.project.value, Current(a), names)
      case None => None
      case Some(plan) => Some(a.(components := plan.0, retired := plan.1))
  }

  /** What a reservation makes of the allocation of a service; None: it fails. */
  function Reserved(net: Net, name: string, kind: Kind, names: seq<string>): Option<Alloc> {
    if net.pool.None? then None
    else
      var found := if name in net.allocs
                   then if net.allocs[name].kind == kind then Some(net.allocs[name]) else None
                   else NewAlloc(net.pool.value, kind, net.allocs);
      if found.None? || found.value.removing || found.value.state == TOMBSTONED then None
      else
        match WithComponents(found.value, names)
        case None => None
        case Some(a) => Some(a.(state := RESERVED))
  }

  /** A failing mutation is discarded. */
  function After(net: Net, op: Op): Net {
    match op
    case EnsurePool(base) => if net.pool.None? then net.(pool := Some(base)) else net
    case ApplyPool(planned, desired) =>
      if net.pool != planned || net.allocs != map[] then net else net.(pool := Some(desired))
    case Reserve(name, kind, names) =>
      (match Reserved(net, name, kind, names)
       case None => net
       case Some(a) => net.(allocs := net.allocs[name := a]))
    case Mark(name, state) =>
      if name in net.allocs then net.(allocs := net.allocs[name := net.allocs[name].(state := state)]) else net
    case RequestRemoval(name) =>
      if name in net.allocs && !net.allocs[name].removing
      then net.(allocs := net.allocs[name := net.allocs[name].(removing := true, state := "removing")]) else net
    case Release(name) => net.(allocs := net.allocs - {name})
  }

  function AfterAll(net: Net, ops: seq<Op>): Net
    decreases |ops|
  {
    if ops == [] then net else AfterAll(After(net, ops[0]), ops[1..])
  }

  predicate LinksTaken(pool: nat, allocs: map<string, Alloc>, below: nat) {
    forall j :: 0 <= j < below ==> Link(pool, j) in UsedLinks(allocs)
  }

  predicate ProjectsTaken(pool: nat, allocs: map<string, Alloc>, below: nat) {
    forall j :: 0 <= j < below ==> Project(pool, j) in UsedProjects(allocs)
  }

  /** A new allocation takes the lowest link and the lowest project that nobody has, and is
      refused exactly when there is none. */
  lemma NewAllocTakesLowest(pool: nat, kind: Kind, allocs: map<string, Alloc>)
    ensures var a := NewAlloc(pool, kind, allocs);
            && (a.None? <==> LinksTaken(pool, allocs, MAX_LINKS) ||
                             (HasProject(kind) && ProjectsTaken(pool, allocs, MAX_PROJECTS)))
            && (a.Some? ==>
                  exists k: nat :: k < MAX_LINKS && a.value.link == Link(pool, k) && LinksTaken(pool, allocs, k))
            && (a.Some? && HasProject(kind) ==>
                  exists k: nat :: k < MAX_PROJECTS && a.value.project == Some(Project(pool, k)) &&
                      ProjectsTaken(pool, allocs, k))
  {
    LowestLink(pool, allocs);
    LowestProject(pool, allocs);
  }

  lemma LowestLink(pool: nat, allocs: map<string, Alloc>)
    ensures var r := LowestFree(pool, LINK_SIZE, UsedLinks(allocs), 0, MAX_LINKS);
            if r.None? then LinksTaken(pool, allocs, MAX_LINKS)
            else !LinksTaken(pool, allocs, MAX_LINKS) &&
                 exists k: nat :: k < MAX_LINKS && r.value == Link(pool, k) && LinksTaken(pool, allocs, k)
  {
    LowestFreeIsLowest(pool, LINK_SIZE, UsedLinks(allocs), 0, MAX_LINKS);
    var r := LowestFree(pool, LINK_SIZE, UsedLinks(allocs), 0, MAX_LINKS);
    if r.Some? {
      var k: nat :| k < MAX_LINKS && r.value == Place(pool, LINK_SIZE, k) &&
        forall j :: 0 <= j < k ==> Place(pool, LINK_SIZE, j) in UsedLinks(allocs);
      assert r.value == Link(pool, k) && LinksTaken(pool, allocs, k);
    }
  }

  lemma LowestProject(pool: nat, allocs: map<string, Alloc>)
    ensures var r := LowestFree(pool + POOL_SIZE / 2, PROJECT_SIZE, UsedProjects(allocs), 0, MAX_PROJECTS);
            if r.None? then ProjectsTaken(pool, allocs, MAX_PROJECTS)
            else !ProjectsTaken(pool, allocs, MAX_PROJECTS) &&
                 exists k: nat :: k < MAX_PROJECTS && r.value == Project(pool, k) && ProjectsTaken(pool, allocs, k)
  {
    var first := pool + POOL_SIZE / 2;
    LowestFreeIsLowest(first, PROJECT_SIZE, UsedProjects(allocs), 0, MAX_PROJECTS);
    var r := LowestFree(first, PROJECT_SIZE, UsedProjects(allocs), 0, MAX_PROJECTS);
    if r.Some? {
      var k: nat :| k < MAX_PROJECTS && r.value == Place(first, PROJECT_SIZE, k) &&
        forall j :: 0 <= j < k ==> Place(first, PROJECT_SIZE, j) in UsedProjects(allocs);
      assert r.value == Project(pool, k) && ProjectsTaken(pool, allocs, k);
    }
  }

  // ----- the invariant -----

  predicate SoundAlloc(pool: nat, a: Alloc) {
    && pool <= a.link < pool + POOL_SIZE / 2 && (a.link - pool) % LINK_SIZE == 0
    && (a.project.Some? <==> HasProject(a.kind))
    && (a.project.Some? ==>
          pool + POOL_SIZE / 2 <= a.project.value < pool + POOL_SIZE &&
          (a.project.value - pool) % PROJECT_SIZE == 0 && Hosts(a.project.value, Current(a)))
    && (a.project.None? ==> Current(a) == map[])
  }

  predicate Apart(a: Alloc, b: Alloc) {
    a.link != b.link && (a.project.Some? && b.project.Some? ==> a.project.value != b.project.value)
  }

  predicate Sound(net: Net) {
    && (net.pool.Some? ==> ValidPool(net.pool.value))
    && (forall n :: n in net.allocs ==> net.pool.Some? && SoundAlloc(net.pool.value, net.allocs[n]))
    && (forall m, n :: m in net.allocs && n in net.allocs && m != n ==> Apart(net.allocs[m], net.allocs[n]))
  }

  lemma FreeLink(pool: nat, allocs: map<string, Alloc>)
    requires LowestFree(pool, LINK_SIZE, UsedLinks(allocs), 0, MAX_LINKS).Some?
    ensures var link := LowestFree(pool, LINK_SIZE, UsedLinks(allocs), 0, MAX_LINKS).value;
            && pool <= link < pool + POOL_SIZE / 2 && (link - pool) % LINK_SIZE == 0
            && forall n :: n in allocs ==> allocs[n].link != link
  {
    LowestFreeIsLowest(pool, LINK_SIZE, UsedLinks(allocs), 0, MAX_LINKS);
    assert forall n :: n in allocs ==> allocs[n].link in UsedLinks(allocs);
  }

  lemma FreeProject(pool: nat, allocs: map<string, Alloc>)
    requires LowestFree(pool + POOL_SIZE / 2, PROJECT_SIZE, UsedProjects(allocs), 0, MAX_PROJECTS).Some?
    ensures var project := LowestFree(pool + POOL_SIZE / 2, PROJECT_SIZE, UsedProjects(allocs), 0, MAX_PROJECTS).value;
            && pool + POOL_SIZE / 2 <= project < pool + POOL_SIZE && (project - pool) % PROJECT_SIZE == 0
            && forall n :: n in allocs ==> allocs[n].project != Some(project)
  {
    var first := pool + POOL_SIZE / 2;
    LowestFreeIsLowest(first, PROJECT_SIZE, UsedProjects(allocs), 0, MAX_PROJECTS);
    var project := LowestFree(first, PROJECT_SIZE, UsedProjects(allocs), 0, MAX_PROJECTS).value;
    assert forall n :: n in allocs && allocs[n].project.Some? ==> allocs[n].project.value in UsedProjects(allocs);
    var k: nat :| k < MAX_PROJECTS && project == Place(first, PROJECT_SIZE, k);
    ProjectPlace(pool, k);
  }

  lemma ProjectPlace(pool: nat, k: nat)
    requires k < MAX_PROJECTS
    ensures var project := Project(pool, k);
            pool + POOL_SIZE / 2 <= project < pool + POOL_SIZE && (project - pool) % PROJECT_SIZE == 0
  {
    assert Project(pool, k) - pool == PROJECT_SIZE * (1024 + k);
  }

  lemma FreeIsFresh(pool: nat, allocs: map<string, Alloc>, kind: Kind)
    requires NewAlloc(pool, kind, allocs).Some?
    ensures var a := NewAlloc(pool, kind, allocs).value;
            SoundAlloc(pool, a) && forall n :: n in allocs ==> Apart(a, allocs[n]) && Apart(allocs[n], a)
  {
    FreeLink(pool, allocs);
    if HasProject(kind) {
      FreeProject(pool, allocs);
    }
  }

  lemma ComponentsSound(pool: nat, a: Alloc, names: seq<string>)
    requires SoundAlloc(pool, a) && WithComponents(a, names).Some?
    ensures var b := WithComponents(a, names).value;
            && SoundAlloc(pool, b) && b.link == a.link && b.project == a.project && b.kind == a.kind
            && forall n :: n in Current(a) ==> n in Current(b) && Current(b)[n] == Current(a)[n]
  {
    if a.project.Some? {
      PlanKeepsAddresses(a.project.value, Current(a), names);
    }
  }

  lemma Replace(net: Net, name: string, a: Alloc)
    requires Sound(net) && net.pool.Some? && SoundAlloc(net.pool.value, a)
    requires forall n :: n in net.allocs && n != name ==> Apart(a, net.allocs[n]) && Apart(net.allocs[n], a)
    ensures Sound(net.(allocs := net.allocs[name := a]))
  {
  }

  /** A reservation that succeeds on an existing allocation keeps its addresses. */
  lemma RenewedSound(net: Net, name: string, kind: Kind, names: seq<string>)
    requires Sound(net) && name in net.allocs && Reserved(net, name, kind, names).Some?
    ensures var a, b := net.allocs[name], Reserved(net, name, kind, names).value;
            && SoundAlloc(net.pool.value, b) && b.link == a.link && b.project == a.project
            && forall c :: c in Current(a) ==> c in Current(b) && Current(b)[c] == Current(a)[c]
  {
    ComponentsSound(net.pool.value, net.allocs[name], names);
  }

  lemma FreshSound(net: Net, name: string, kind: Kind, names: seq<string>)
    requires Sound(net) && name !in net.allocs && Reserved(net, name, kind, names).Some?
    ensures var b := Reserved(net, name, kind, names).value;
            SoundAlloc(net.pool.value, b) && forall n :: n in net.allocs ==>
                Apart(b, net.allocs[n]) && Apart(net.allocs[n], b)
  {
    FreeIsFresh(net.pool.value, net.allocs, kind);
    ComponentsSound(net.pool.value, NewAlloc(net.pool.value, kind, net.allocs).value, names);
  }

  lemma ReserveKeepsSound(net: Net, name: string, kind: Kind, names: seq<string>)
    requires Sound(net)
    ensures Sound(After(net, Reserve(name, kind, names)))
  {
    if Reserved(net, name, kind, names).Some? {
      if name in net.allocs {
        RenewedSound(net, name, kind, names);
        SameApart(net, name, Reserved(net, name, kind, names).value);
      } else {
        FreshSound(net, name, kind, names);
      }
      Replace(net, name, Reserved(net, name, kind, names).value);
    }
  }

  lemma SameApart(net: Net, name: string, b: Alloc)
    requires Sound(net) && name in net.allocs
    requires b.link == net.allocs[name].link && b.project == net.allocs[name].project
    ensures forall n :: n in net.allocs && n != name ==> Apart(b, net.allocs[n]) && Apart(net.allocs[n], b)
  {
    assert forall n :: n in net.allocs && n != name ==> Apart(net.allocs[name], net.allocs[n]);
  }

  lemma OpKeepsSound(net: Net, op: Op)
    requires Sound(net) && ValidOp(op)
    ensures Sound(After(net, op))
  {
    match op
    case Reserve(name, kind, names) => ReserveKeepsSound(net, name, kind, names);
    case Mark(name, state) =>
      if name in net.allocs {
        Replace(net, name, net.allocs[name].(state := state));
      }
    case RequestRemoval(name) =>
      if name in net.allocs {
        Replace(net, name, net.allocs[name].(removing := true, state := "removing"));
      }
    case _ =>
  }

  /** Over every interleaving of mutations, however old the data they were planned on. */
  lemma {:induction false} EveryRunSound(net: Net, ops: seq<Op>)
    requires Sound(net) && forall op :: op in ops ==> ValidOp(op)
    ensures Sound(AfterAll(net, ops))
    decreases |ops|
  {
    if ops != [] {
      assert ops[0] in ops && forall op :: op in ops[1..] ==> op in ops;
      OpKeepsSound(net, ops[0]);
      EveryRunSound(After(net, ops[0]), ops[1..]);
    }
  }

  // ----- what the invariant means -----

  predicate Disjoint(a: nat, n: nat, b: nat, m: nat) {
    a + n <= b || b + m <= a
  }

  lemma AlignedApart(a: nat, b: nat, pool: nat, size: nat)
    requires size > 0 && a >= pool && b >= pool && (a - pool) % size == 0 && (b - pool) % size == 0 && a != b
    ensures Disjoint(a, size, b, size)
  {
    var i, j := (a - pool) / size, (b - pool) / size;
    assert a - pool == size * i && b - pool == size * j;
    if i < j {
      assert size * j >= size * (i + 1);
    } else if j < i {
      assert size * i >= size * (j + 1);
    }
  }

  /** The address ranges of different services never overlap, and no component of the host
      shares its address with another. */
  lemma AddressesNeverClash(net: Net, ops: seq<Op>, m: string, n: string)
    requires Sound(net) && forall op :: op in ops ==> ValidOp(op)
    requires m in AfterAll(net, ops).allocs && n in AfterAll(net, ops).allocs && m != n
    ensures var a, b := AfterAll(net, ops).allocs[m], AfterAll(net, ops).allocs[n];
            && Disjoint(a.link, LINK_SIZE, b.link, LINK_SIZE)
            && (b.project.Some? ==> Disjoint(a.link, LINK_SIZE, b.project.value, PROJECT_SIZE))
            && (a.project.Some? && b.project.Some? ==>
                  Disjoint(a.project.value, PROJECT_SIZE, b.project.value, PROJECT_SIZE))
            && (forall x, y :: x in Current(a) && y in Current(b) ==> Current(a)[x] != Current(b)[y])
  {
    EveryRunSound(net, ops);
    hide AfterAll, ValidOp;
    var net' := AfterAll(net, ops);
    var pool := net'.pool.value;
    var a, b := net'.allocs[m], net'.allocs[n];
    assert Apart(a, b);
    AlignedApart(a.link, b.link, pool, LINK_SIZE);
    assert (a.link - pool) % LINK_SIZE == 0 && a.link + LINK_SIZE <= pool + POOL_SIZE / 2;
    if a.project.Some? && b.project.Some? {
      AlignedApart(a.project.value, b.project.value, pool, PROJECT_SIZE);
    }
  }

  /** While a service has an allocation the pool stays, its link and its project stay, and no
      component ever gets another address, until the allocation is released. */
  lemma {:induction false} ReservationsAreStable(net: Net, ops: seq<Op>, name: string)
    requires Sound(net) && (forall op :: op in ops ==> ValidOp(op))
    requires name in net.allocs && Release(name) !in ops
    ensures name in AfterAll(net, ops).allocs && AfterAll(net, ops).pool == net.pool
    ensures KeepsAddresses(net.allocs[name], AfterAll(net, ops).allocs[name])
    decreases |ops|
  {
    if ops != [] {
      assert ops[0] in ops && forall x :: x in ops[1..] ==> x in ops;
      OpKeepsSound(net, ops[0]);
      OpStable(net, ops[0], name);
      ReservationsAreStable(After(net, ops[0]), ops[1..], name);
    }
  }

  predicate KeepsAddresses(a: Alloc, b: Alloc) {
    && b.link == a.link && b.project == a.project
    && forall c :: c in Current(a) ==> c in Current(b) && Current(b)[c] == Current(a)[c]
  }

  lemma OpStable(net: Net, op: Op, name: string)
    requires Sound(net) && name in net.allocs && op != Release(name)
    ensures After(net, op).pool == net.pool && name in After(net, op).allocs
    ensures KeepsAddresses(net.allocs[name], After(net, op).allocs[name])
  {
    hide Reserved;
    if op.Reserve? {
      if op.name == name && Reserved(net, name, op.kind, op.components).Some? {
        RenewedSound(net, name, op.kind, op.components);
      }
    }
  }

  // ----- capacity -----

  function Places(start: nat, step: nat, max: nat): set<nat> {
    set j | 0 <= j < max :: Place(start, step, j)
  }

  lemma {:induction false} PlacesCount(start: nat, step: nat, max: nat)
    requires step > 0
    ensures |Places(start, step, max)| == max
  {
    if max > 0 {
      PlacesCount(start, step, max - 1);
      var last := Place(start, step, max - 1);
      forall j: nat | j < max - 1 ensures Place(start, step, j) != last {
        Further(step, j, max - 1);
      }
      assert Places(start, step, max) == Places(start, step, max - 1) + {last};
    }
  }

  lemma Further(step: nat, j: nat, k: nat)
    requires step > 0 && j < k
    ensures step * j < step * k
  {
  }

  lemma ManyUsed(start: nat, step: nat, used: set<nat>, max: nat)
    requires step > 0 && LowestFree(start, step, used, 0, max).None?
    ensures |used| >= max
  {
    LowestFreeIsLowest(start, step, used, 0, max);
    PlacesCount(start, step, max);
    var places := Places(start, step, max);
    assert places <= used;
    assert used == places + (used - places);
  }

  function Image(keys: set<string>, f: string -> nat): set<nat> {
    set n | n in keys :: f(n)
  }

  lemma {:induction false} ImageCount(keys: set<string>, f: string -> nat)
    ensures |Image(keys, f)| <= |keys|
    decreases |keys|
  {
    if keys != {} {
      var n :| n in keys;
      var rest := keys - {n};
      ImageCount(rest, f);
      assert Image(keys, f) == Image(rest, f) + {f(n)};
      if f(n) in Image(rest, f) {
        assert Image(rest, f) + {f(n)} == Image(rest, f);
      }
    }
  }

  lemma FewLinks(allocs: map<string, Alloc>)
    ensures |UsedLinks(allocs)| <= |allocs|
  {
    var f := (n: string) => if n in allocs then allocs[n].link else 0;
    ImageCount(allocs.Keys, f);
    assert forall n :: n in allocs ==> f(n) == allocs[n].link;
    forall v ensures v in UsedLinks(allocs) <==> v in Image(allocs.Keys, f) {
      if v in UsedLinks(allocs) {
        var n :| n in allocs && allocs[n].link == v;
        assert n in allocs.Keys && f(n) == v;
      }
    }
    assert UsedLinks(allocs) == Image(allocs.Keys, f);
  }

  lemma FewProjects(allocs: map<string, Alloc>)
    ensures |UsedProjects(allocs)| <= |allocs|
  {
    var f := (n: string) => if n in allocs && allocs[n].project.Some? then allocs[n].project.value else 0;
    var owners := set n | n in allocs && allocs[n].project.Some?;
    ImageCount(owners, f);
    assert forall n :: n in owners ==> f(n) == allocs[n].project.value;
    forall v ensures v in UsedProjects(allocs) <==> v in Image(owners, f) {
      if v in UsedProjects(allocs) {
        var n :| n in allocs && allocs[n].project == Some(v);
        assert n in owners && f(n) == v;
      }
    }
    assert UsedProjects(allocs) == Image(owners, f);
    Subset(owners, allocs.Keys);
  }

  lemma Subset(a: set<string>, b: set<string>)
    requires a <= b
    ensures |a| <= |b|
  {
    assert b == a + (b - a);
  }

  /** A new service without components is refused for lack of addresses only when at least as
      many services as there are projects, or links, have an allocation. */
  lemma NewServicesFit(net: Net, name: string, kind: Kind)
    requires net.pool.Some? && name !in net.allocs
    requires |net.allocs| < if HasProject(kind) then MAX_PROJECTS else MAX_LINKS
    ensures NewAlloc(net.pool.value, kind, net.allocs).Some?
  {
    var pool := net.pool.value;
    FewLinks(net.allocs);
    FewProjects(net.allocs);
    if LowestFree(pool, LINK_SIZE, UsedLinks(net.allocs), 0, MAX_LINKS).None? {
      ManyUsed(pool, LINK_SIZE, UsedLinks(net.allocs), MAX_LINKS);
    }
    if LowestFree(pool + POOL_SIZE / 2, PROJECT_SIZE, UsedProjects(net.allocs), 0, MAX_PROJECTS).None? {
      ManyUsed(pool + POOL_SIZE / 2, PROJECT_SIZE, UsedProjects(net.allocs), MAX_PROJECTS);
    }
  }

  // ----- exactly when a reservation succeeds -----

  /** The host addresses of a project. */
  function Range(project: nat): set<nat> {
    Places(project + FIRST_HOST, 1, LAST_HOST - FIRST_HOST + 1)
  }

  /** The names that have no address yet. */
  function Coming(names: seq<string>, given: map<string, nat>): set<string> {
    set n | n in names && n !in given
  }

  lemma RangeFull(project: nat, used: set<nat>)
    requires used <= Range(project)
    ensures |used| <= 29 && (LowestFree(project + FIRST_HOST, 1, used, 0, 29).None? <==> |used| == 29)
    ensures var r := LowestFree(project + FIRST_HOST, 1, used, 0, 29);
            r.Some? ==> r.value in Range(project) && r.value !in used
  {
    LowestFreeIsLowest(project + FIRST_HOST, 1, used, 0, 29);
    PlacesCount(project + FIRST_HOST, 1, 29);
    var all := Range(project);
    assert all == used + (all - used);
    if LowestFree(project + FIRST_HOST, 1, used, 0, 29).None? {
      assert all <= used;
    } else {
      var free := LowestFree(project + FIRST_HOST, 1, used, 0, 29).value;
      assert free in all - used;
    }
  }

  lemma AssignNext(project: nat, names: seq<string>, used: set<nat>, given: map<string, nat>)
    requires names != []
    ensures names[0] in given ==> Assign(project, names, used, given) == Assign(project, names[1..], used, given)
    ensures var r := LowestFree(project + FIRST_HOST, 1, used, 0, 29);
            names[0] !in given ==>
              Assign(project, names, used, given) ==
              if r.None? then None
              else Assign(project, names[1..], used + {r.value}, given[names[0] := r.value])
  {
  }

  lemma ComingNext(names: seq<string>, given: map<string, nat>, addr: nat)
    requires names != [] && Distinct(names)
    ensures Distinct(names[1..])
    ensures names[0] in given ==> Coming(names, given) == Coming(names[1..], given)
    ensures names[0] !in given ==>
              && |Coming(names, given)| == |Coming(names[1..], given)| + 1
              && Coming(names[1..], given[names[0] := addr]) == Coming(names[1..], given)
  {
    var more := Coming(names[1..], given);
    if names[0] !in given {
      assert Coming(names, given) == more + {names[0]} && names[0] !in more;
    }
  }

  lemma {:induction false} AssignIff(project: nat, names: seq<string>, used: set<nat>, given: map<string, nat>)
    requires Distinct(names) && used <= Range(project)
    ensures Assign(project, names, used, given).Some? <==> |Coming(names, given)| + |used| <= 29
    decreases |names|
  {
    RangeFull(project, used);
    if names == [] {
      assert Coming(names, given) == {};
    } else {
      AssignNext(project, names, used, given);
      var r := LowestFree(project + FIRST_HOST, 1, used, 0, 29);
      ComingNext(names, given, if r.Some? then r.value else 0);
      hide Assign, LowestFree, Range, Coming, Distinct;
      if names[0] in given {
        AssignIff(project, names[1..], used, given);
      } else if r.Some? {
        AssignIff(project, names[1..], used + {r.value}, given[names[0] := r.value]);
      }
    }
  }

  lemma {:induction false} ValuesCount(m: map<string, nat>)
    requires forall x, y :: x in m && y in m && x != y ==> m[x] != m[y]
    ensures |m.Values| == |m|
    decreases |m|
  {
    if m != map[] {
      var x :| x in m;
      var rest := m - {x};
      ValuesCount(rest);
      assert m == rest[x := m[x]];
      assert m.Values == rest.Values + {m[x]};
      assert m[x] !in rest.Values;
    }
  }

  /** A plan for components exists exactly if the names are proper, and the addresses used so
      far and the newcomers fit into the 29 of the project together. */
  lemma PlanExistsIff(project: nat, current: map<string, nat>, names: seq<string>)
    requires Hosts(project, current)
    ensures PlanComponents(project, current, names).Some? <==>
            && "" !in names && Distinct(names) && |names| <= 29 && "" !in current
            && |Coming(names, current)| + |current| <= 29
  {
    var sorted := UniqueSorted(names);
    UniqueSortedAscends(names);
    assert Distinct(sorted);
    ValuesCount(current);
    forall v | v in current.Values ensures v in Range(project) {
      assert v == Place(project + FIRST_HOST, 1, v - project - FIRST_HOST);
    }
    assert Coming(sorted, Staying(current, names)) == Coming(names, current);
    AssignIff(project, sorted, current.Values, Staying(current, names));
  }

  /** The addresses a service has used so far. */
  function Before(net: Net, name: string): map<string, nat> {
    if name in net.allocs then Current(net.allocs[name]) else map[]
  }

  predicate FreeLinkLeft(net: Net)
    requires net.pool.Some?
  {
    exists k :: 0 <= k < 8192 && Link(net.pool.value, k) !in UsedLinks(net.allocs)
  }

  predicate FreeProjectLeft(net: Net)
    requires net.pool.Some?
  {
    exists k :: 0 <= k < 1024 && Project(net.pool.value, k) !in UsedProjects(net.allocs)
  }

  /** Containers have named components, and the addresses used so far and the newcomers fit into
      the 29 of their project; other kinds have none. */
  predicate NamesFit(kind: Kind, names: seq<string>, current: map<string, nat>) {
    if kind == Compose || kind == Container
    then && "" !in names && Distinct(names) && |names| <= 29 && "" !in current
         && |Coming(names, current)| + |current| <= 29
    else names == []
  }

  /** A reservation succeeds exactly if there is a pool, the service's own allocation is of the
      kind asked for and neither being removed nor tombstoned, or else a link and for containers
      a project are free; and the components fit. */
  lemma ReservedIff(net: Net, name: string, kind: Kind, names: seq<string>)
    requires Sound(net)
    ensures Reserved(net, name, kind, names).Some? <==>
            && net.pool.Some?
            && (if name in net.allocs
                then var a := net.allocs[name]; a.kind == kind && !a.removing && a.state != "tombstoned"
                else FreeLinkLeft(net) && (kind == Compose || kind == Container ==> FreeProjectLeft(net)))
            && NamesFit(kind, names, Before(net, name))
  {
    hide NewAlloc, WithComponents, Hosts, Distinct, NamesFit, FreeLinkLeft, FreeProjectLeft, Current, SoundAlloc, Apart;
    if net.pool.Some? {
      var pool := net.pool.value;
      if name in net.allocs {
        if net.allocs[name].kind == kind {
          ComponentsIff(pool, net.allocs[name], names);
        }
      } else {
        NewIff(net, kind);
        if NewAlloc(pool, kind, net.allocs).Some? {
          FreeIsFresh(pool, net.allocs, kind);
          NewIsEmpty(pool, kind, net.allocs);
          ComponentsIff(pool, NewAlloc(pool, kind, net.allocs).value, names);
        }
      }
    }
  }

  lemma NewIff(net: Net, kind: Kind)
    requires net.pool.Some?
    ensures NewAlloc(net.pool.value, kind, net.allocs).Some? <==>
            FreeLinkLeft(net) && (kind == Compose || kind == Container ==> FreeProjectLeft(net))
  {
    NewAllocTakesLowest(net.pool.value, kind, net.allocs);
    hide NewAlloc, UsedLinks, UsedProjects;
  }

  lemma ComponentsIff(pool: nat, a: Alloc, names: seq<string>)
    requires SoundAlloc(pool, a)
    ensures WithComponents(a, names).Some? <==>
            NamesFit(a.kind, names, Current(a))
  {
    if a.project.Some? {
      PlanExistsIff(a.project.value, Current(a), names);
    }
    hide PlanComponents, Hosts, Distinct, Coming;
  }

  lemma NewIsEmpty(pool: nat, kind: Kind, allocs: map<string, Alloc>)
    requires NewAlloc(pool, kind, allocs).Some?
    ensures var a := NewAlloc(pool, kind, allocs).value;
            a.kind == kind && !a.removing && a.state != "tombstoned" && Current(a) == map[]
  {
    assert RESERVED[0] != "tombstoned"[0];
  }

  /** Once its removal has been requested, or it is tombstoned, a service gets no reservation,
      whatever else happens, until its allocation is released; a tombstone can be cleared. */
  lemma {:induction false} RemovalIsFinal(net: Net, ops: seq<Op>, name: string, kind: Kind, names: seq<string>)
    requires name in net.allocs && net.allocs[name].removing && Release(name) !in ops
    ensures var later := AfterAll(net, ops);
            name in later.allocs && later.allocs[name].removing && Reserved(later, name, kind, names).None?
    decreases |ops|
  {
    if ops != [] {
      assert ops[0] in ops && forall x :: x in ops[1..] ==> x in ops;
      assert ops[0].Reserve? && ops[0].name == name ==> Reserved(net, name, ops[0].kind, ops[0].components).None?;
      RemovalIsFinal(After(net, ops[0]), ops[1..], name, kind, names);
    }
  }

  lemma RequestRemoves(net: Net, name: string)
    requires name in net.allocs
    ensures name in After(net, RequestRemoval(name)).allocs && After(net, RequestRemoval(name)).allocs[name].removing
  {
  }

  /** The pools: a /16 below 10.0.0.0, one of the sixteen /16 below 172.16.0.0, or
      192.168.0.0. */
  lemma PoolsAre(base: nat)
    ensures ValidPool(base) <==>
            || (exists b: nat :: b < 256 && base == Pool(10, b))
            || (exists b: nat :: 16 <= b < 32 && base == Pool(172, b))
            || base == Pool(192, 168)
  {
    if ValidPool(base) {
      var b := base / 65536 % 256;
      assert base == 65536 * (base / 65536);
      if base < 0x0B00_0000 {
        assert base == Pool(10, b);
      } else if base < 0xAC20_0000 {
        assert base == Pool(172, b);
      }
    }
  }

  /** Links are four addresses each from the start of the pool, projects 32 addresses each from
      its middle, and components have the third to the thirty-first address of theirs. */
  lemma Layout(pool: nat, i: nat)
    ensures Link(pool, i) == pool + 4 * i && Project(pool, i) == pool + 32768 + 32 * i
    ensures forall project, addrs: map<string, nat>, n ::
              Hosts(project, addrs) && n in addrs ==> project + 2 <= addrs[n] <= project + 30
  {
  }

  /** The /16 with these two leading bytes. */
  function Pool(a: nat, b: nat): nat {
    (a * 256 + b) * 65536
  }

  // ----- the store -----

  class Store {
    var pool: Option<nat>
    var allocs: map<string, Alloc>

    function Contents(): Net
      reads this
    {
      Net(pool, allocs)
    }

    method EnsureIsoPool(base: nat)
      requires ValidPool(base)
      modifies this
      ensures Contents() == After(old(Contents()), EnsurePool(base))
      ensures pool.Some?
    {
      if pool.None? {
        pool := Some(base);
      }
    }

    /** Applying a plan made for an older pool, or while services have allocations, fails. */
    method ApplyIsoPool(planned: Option<nat>, desired: nat) returns (ok: bool)
      requires ValidPool(desired)
      modifies this
      ensures Contents() == After(old(Contents()), ApplyPool(planned, desired))
      ensures ok <==> old(pool) == planned && (old(pool) == Some(desired) || old(allocs) == map[])
      ensures ok ==> pool == Some(desired)
    {
      if pool != planned {
        return false;
      }
      if pool == Some(desired) {
        return true;
      }
      if allocs != map[] {
        return false;
      }
      pool := Some(desired);
      return true;
    }

    method CollectUsed() returns (links: set<nat>, projects: set<nat>)
      ensures links == UsedLinks(allocs) && projects == UsedProjects(allocs)
    {
      links, projects := {}, {};
      var left := allocs.Keys;
      while left != {}
        invariant left <= allocs.Keys
        invariant links == set n | n in allocs.Keys - left :: allocs[n].link
        invariant projects == set n | n in allocs.Keys - left && allocs[n].project.Some? :: allocs[n].project.value
        decreases left
      {
        var n :| n in left;
        links := links + {allocs[n].link};
        if allocs[n].project.Some? {
          projects := projects + {allocs[n].project.value};
        }
        left := left - {n};
      }
    }

    /** Finds the lowest free link and project; a project is looked for only when needed. */
    method Allocate(base: nat, kind: Kind) returns (a: Option<Alloc>)
      ensures a == NewAlloc(base, kind, allocs)
    {
      var links, projects := CollectUsed();
      var link := FirstFree(base, LINK_SIZE, links, MAX_LINKS);
      if link.None? {
        return None;
      }
      if !HasProject(kind) {
        return Some(Alloc(kind, link.value, None, map[], map[], RESERVED, false));
      }
      var project := FirstFree(base + POOL_SIZE / 2, PROJECT_SIZE, projects, MAX_PROJECTS);
      if project.None? {
        return None;
      }
      return Some(Alloc(kind, link.value, project, map[], map[], RESERVED, false));
    }

    /** Reserves, or renews the reservation of, the addresses of a service. */
    method ReserveAllocation(name: string, kind: Kind, names: seq<string>) returns (ok: bool)
      modifies this
      ensures Contents() == After(old(Contents()), Reserve(name, kind, names))
      ensures ok <==> Reserved(old(Contents()), name, kind, names).Some?
      ensures ok ==> name in allocs && allocs[name].kind == kind
      ensures ok && allocs[name].project.Some? ==> allocs[name].components.Keys == set n | n in names
    {
      if pool.None? {
        return false;
      }
      var found: Option<Alloc>;
      if name in allocs {
        found := if allocs[name].kind == kind then Some(allocs[name]) else None;
      } else {
        found := Allocate(pool.value, kind);
      }
      if found.None? || found.value.removing || found.value.state == TOMBSTONED {
        return false;
      }
      var planned := WithComponents(found.value, names);
      if planned.None? {
        return false;
      }
      if found.value.project.Some? {
        PlanKeepsAddresses(found.value.project.value, Current(found.value), names);
      }
      allocs := allocs[name := planned.value.(state := RESERVED)];
      return true;
    }

    method MarkState(name: string, state: string) returns (ok: bool)
      modifies this
      ensures Contents() == After(old(Contents()), Mark(name, state)) && (ok <==> name in old(allocs))
    {
      ok := name in allocs;
      if ok {
        allocs := allocs[name := allocs[name].(state := state)];
      }
    }

    method ReleaseAllocation(name: string)
      modifies this
      ensures Contents() == After(old(Contents()), Release(name))
    {
      allocs := allocs - {name};
    }
  }
}
