/** Path mappings of a host-storage migration: their order, the first-match rewrite, and
    when a rewritten value is free of references to an old root. */
module Mappings {
  import opened Paths
  import opened Ordering

  datatype Reason = CatchRoot | DataDir | Preserved | ServiceRoot | ServicesDir {
    /** Position of the reason's text in alphabetical order. */
    function Rank(): nat {
      match this
      case CatchRoot => 0
      case DataDir => 1
      case Preserved => 2
      case ServiceRoot => 3
      case ServicesDir => 4
    }
  }

  /** The reason's text. */
  function Text(r: Reason): string {
    match r
    case CatchRoot => "catch-root"
    case DataDir => "data-dir"
    case Preserved => "preserved-root"
    case ServiceRoot => "service-root"
    case ServicesDir => "services-root"
  }

  lemma TextDiffers(x: string, y: string, i: nat)
    requires i < |x| && i < |y| && x[..i] == y[..i] && x[i] != y[i]
    ensures TextLe(x, y) <==> x[i] < y[i]
    decreases i
  {
    if i > 0 {
      assert x[0] == x[..i][0] && y[0] == y[..i][0];
      assert x[1..][..i - 1] == x[..i][1..] && y[1..][..i - 1] == y[..i][1..];
      TextDiffers(x[1..], y[1..], i - 1);
    }
  }

  lemma RanksAreTexts(a: Reason, b: Reason)
    ensures a.Rank() <= b.Rank() <==> TextLe(Text(a), Text(b))
  {
    if a == b {
      TextLeTotal(Text(a), Text(b));
    } else if a in [ServiceRoot, ServicesDir] && b in [ServiceRoot, ServicesDir] {
      assert Text(a)[..7] == "service" == Text(b)[..7];
      TextDiffers(Text(a), Text(b), 7);
    } else {
      TextDiffers(Text(a), Text(b), 0);
    }
  }

  datatype Mapping = Mapping(from: string, to: string, reason: Reason, service: string) {
    function Root(): (p: Path)
      ensures Cleaned(p)
    {
      Parse(from)
    }

    function Target(): (p: Path)
      ensures Cleaned(p)
    {
      Parse(to)
    }

    predicate Identity() {
      Root() == Target()
    }
  }

  /** Cleaned text, where empty text stays empty. */
  function CleanText(s: string): (t: string)
    ensures s == "" ==> t == ""
  {
    if s == "" then "" else Render(Parse(s))
  }

  // ----- the order: longest cleaned root first, then its text, then the reason -----

  predicate Precedes(a: Mapping, b: Mapping) {
    var x, y := CleanText(a.from), CleanText(b.from);
    if |x| != |y| then |x| > |y|
    else if x != y then TextLe(x, y)
    else a.reason.Rank() <= b.reason.Rank()
  }

  predicate SameKey(a: Mapping, b: Mapping) {
    CleanText(a.from) == CleanText(b.from) && a.reason == b.reason
  }

  lemma PrecedesTotal(a: Mapping, b: Mapping)
    ensures Precedes(a, b) || Precedes(b, a)
  {
    TextLeTotal(CleanText(a.from), CleanText(b.from));
  }

  lemma PrecedesTransitive(a: Mapping, b: Mapping, c: Mapping)
    requires Precedes(a, b) && Precedes(b, c)
    ensures Precedes(a, c)
  {
    var x, y, z := CleanText(a.from), CleanText(b.from), CleanText(c.from);
    if |x| == |y| == |z| && x != y && y != z {
      TextLeTransitive(x, y, z);
      if x == z {
        TextLeAntisymmetric(x, y);
      }
    }
  }

  lemma PrecedesAntisymmetric(a: Mapping, b: Mapping)
    requires Precedes(a, b) && Precedes(b, a)
    ensures SameKey(a, b)
  {
    if CleanText(a.from) != CleanText(b.from) {
      TextLeAntisymmetric(CleanText(a.from), CleanText(b.from));
    }
  }

  predicate Arranged(ms: seq<Mapping>) {
    forall i, j :: 0 <= i < j < |ms| ==> Precedes(ms[i], ms[j])
  }

  function Insert(m: Mapping, ms: seq<Mapping>): (r: seq<Mapping>)
    requires Arranged(ms)
    ensures Arranged(r) && multiset(r) == multiset(ms) + multiset{m}
  {
    if ms == [] then [m]
    else if Precedes(m, ms[0]) then
      InsertFront(m, ms);
      [m] + ms
    else
      var rest := Insert(m, ms[1..]);
      InsertBehind(m, ms, rest);
      [ms[0]] + rest
  }

  lemma InsertFront(m: Mapping, ms: seq<Mapping>)
    requires ms != [] && Arranged(ms) && Precedes(m, ms[0])
    ensures Arranged([m] + ms)
  {
    forall j | 0 <= j < |ms| ensures Precedes(m, ms[j]) {
      if j > 0 {
        PrecedesTransitive(m, ms[0], ms[j]);
      }
    }
  }

  lemma InsertedMember(x: Mapping, m: Mapping, tail: seq<Mapping>, rest: seq<Mapping>)
    requires multiset(rest) == multiset(tail) + multiset{m} && x in rest
    ensures x == m || x in tail
  {
    assert x in multiset(rest);
    assert x in multiset(tail) <==> x in tail;
  }

  lemma InsertBehind(m: Mapping, ms: seq<Mapping>, rest: seq<Mapping>)
    requires ms != [] && Arranged(ms) && !Precedes(m, ms[0])
    requires Arranged(rest) && multiset(rest) == multiset(ms[1..]) + multiset{m}
    ensures Arranged([ms[0]] + rest)
    ensures multiset([ms[0]] + rest) == multiset(ms) + multiset{m}
  {
    hide Precedes;
    var head, tail := ms[0], ms[1..];
    assert ms == [head] + tail;
    PrecedesTotal(m, head);
    assert forall x :: x in tail ==> Precedes(head, x);
    forall j | 0 <= j < |rest| ensures Precedes(head, rest[j]) {
      InsertedMember(rest[j], m, tail, rest);
    }
  }

  function Sorted(ms: seq<Mapping>): (r: seq<Mapping>)
    ensures Arranged(r) && multiset(r) == multiset(ms)
  {
    if ms == [] then []
    else
      assert ms == [ms[0]] + ms[1..];
      Insert(ms[0], Sorted(ms[1..]))
  }

  lemma SameMembers(a: seq<Mapping>, b: seq<Mapping>)
    requires multiset(a) == multiset(b)
    ensures forall m :: m in a <==> m in b
  {
    forall m ensures m in a <==> m in b {
      assert m in a <==> m in multiset(a);
      assert m in b <==> m in multiset(b);
    }
  }

  predicate UniqueKeys(ms: seq<Mapping>) {
    forall a, b :: a in ms && b in ms && SameKey(a, b) ==> a == b
  }

  /** An unstable sort cannot matter: with unique (root, reason) pairs there is only one
      arrangement of the mappings, whatever order they were given in. */
  lemma {:induction false} OneArrangement(a: seq<Mapping>, b: seq<Mapping>)
    requires Arranged(a) && Arranged(b) && multiset(a) == multiset(b) && UniqueKeys(a)
    ensures a == b
  {
    hide Precedes;
    assert |a| == |multiset(a)| == |multiset(b)| == |b|;
    if a != [] {
      SameMembers(a, b);
      assert a[0] in a && b[0] in b;
      if a[0] != b[0] {
        var i :| 0 <= i < |b| && b[i] == a[0];
        var j :| 0 <= j < |a| && a[j] == b[0];
        PrecedesAntisymmetric(a[0], b[0]);
      }
      assert a == [a[0]] + a[1..] && b == [b[0]] + b[1..];
      assert multiset(a[1..]) == multiset(a) - multiset{a[0]};
      assert multiset(b[1..]) == multiset(b) - multiset{b[0]};
      OneArrangement(a[1..], b[1..]);
    }
  }

  // ----- the rewrite: the first mapping in order that contains the value -----

  /** Kept: reported unchanged. Moved: the new text. Failed: a root that is not absolute. */
  datatype Verdict = Kept | Moved(text: string) | Failed

  function RewriteInOrder(order: seq<Mapping>, value: string): Verdict {
    if !IsAbs(value) || order == [] then Kept
    else
      match Relocate(value, order[0].from, order[0].to)
      case BadRoot => Failed
      case Outside => RewriteInOrder(order[1..], value)
      case Relocated(text) => if CleanText(text) != CleanText(value) then Moved(text) else Kept
  }

  function Rewrite(ms: seq<Mapping>, value: string): Verdict {
    RewriteInOrder(Sorted(ms), value)
  }

  /** The first mapping that decides a path: none, one with a relative root, or one
      whose root contains the path. */
  datatype Hit = Miss | Bad | Found(m: Mapping)

  function FirstHit(order: seq<Mapping>, p: Path): (h: Hit)
    requires p.abs
    ensures h.Found? ==> h.m in order && Contains(h.m.Root(), p)
  {
    if order == [] then Miss
    else if !order[0].Root().abs then Bad
    else if Contains(order[0].Root(), p) then Found(order[0])
    else FirstHit(order[1..], p)
  }

  /** What a rewrite does, in terms of the deciding mapping. */
  lemma {:induction false} RewriteByHit(order: seq<Mapping>, value: string)
    requires IsAbs(value)
    ensures var h := FirstHit(order, Parse(value));
            match RewriteInOrder(order, value)
            case Kept => h.Miss? || (h.Found? && h.m.Identity())
            case Failed => h.Bad?
            case Moved(text) => h.Found? && !h.m.Identity() && text != "" &&
                                Parse(text) == Graft(Parse(value), h.m.Root(), h.m.Target())
  {
    if order != [] {
      var m := order[0];
      match Relocate(value, m.from, m.to)
      case BadRoot =>
      case Outside =>
        RewriteByHit(order[1..], value);
      case Relocated(text) =>
        GraftIdentity(Parse(value), m.Root(), m.Target());
        GraftCleaned(Parse(value), m.Root(), m.Target());
        var moved := Graft(Parse(value), m.Root(), m.Target());
        ParseRender(moved);
        if text == "" {
          assert Render(moved) == "";
          RenderNonEmpty(moved);
        }
        if CleanText(text) == CleanText(value) {
          RenderInjective(moved, Parse(value));
        }
    }
  }

  lemma RenderNonEmpty(p: Path)
    requires Cleaned(p)
    ensures Render(p) != ""
  {
    if !p.abs && p.parts != [] {
      CleanHasNoSlash(p);
      assert p.parts[0] in p.parts;
      JoinSlashHead(p.parts);
    }
  }

  lemma GraftIdentity(p: Path, from: Path, to: Path)
    requires Contains(from, p)
    ensures Graft(p, from, to) == p <==> from == to
  {
    assert p.parts == from.parts + p.parts[|from.parts|..];
    if Graft(p, from, to) == p {
      assert |to.parts| == |from.parts|;
      assert to.parts == p.parts[..|to.parts|] == from.parts;
    }
  }

  // ----- most specific root -----

  lemma PrecedesIsDeeper(a: Mapping, b: Mapping, p: Path)
    requires Precedes(a, b) && Contains(a.Root(), p) && Contains(b.Root(), p)
    ensures |b.Root().parts| <= |a.Root().parts|
    ensures a.Root() == b.Root() ==> a.reason.Rank() <= b.reason.Rank()
  {
    if |a.Root().parts| < |b.Root().parts| {
      assert a.Root().parts == p.parts[..|a.Root().parts|] <= b.Root().parts;
      DeeperIsLonger(a.Root(), b.Root());
    }
  }

  /** The deciding mapping has the deepest root among all that contain the path, and the
      alphabetically first reason among those with that root. So a preserved root keeps
      every path below it from all shallower mappings. */
  lemma {:induction false} FirstHitIsDeepest(order: seq<Mapping>, p: Path)
    requires Arranged(order) && p.abs
    ensures var h := FirstHit(order, p);
            match h
            case Miss => forall b :: b in order ==> b.Root().abs && !Contains(b.Root(), p)
            case Bad => exists b :: b in order && !b.Root().abs
            case Found(m) =>
              forall b :: b in order && Contains(b.Root(), p) ==>
                |b.Root().parts| <= |m.Root().parts| &&
                (b.Root() == m.Root() ==> m.reason.Rank() <= b.reason.Rank())
  {
    if order == [] {
    } else if !order[0].Root().abs {
      assert order[0] in order;
    } else if Contains(order[0].Root(), p) {
      forall b | b in order && Contains(b.Root(), p)
        ensures |b.Root().parts| <= |order[0].Root().parts|
        ensures b.Root() == order[0].Root() ==> order[0].reason.Rank() <= b.reason.Rank()
      {
        var i :| 0 <= i < |order| && order[i] == b;
        if i > 0 {
          PrecedesIsDeeper(order[0], b, p);
        }
      }
    } else {
      FirstHitIsDeepest(order[1..], p);
      assert forall b :: b in order ==> b == order[0] || b in order[1..];
    }
  }

  /** A mapping decides exactly when it contains the path and everything before it neither
      contains the path nor has a relative root. */
  lemma {:induction false} FirstHitAt(order: seq<Mapping>, p: Path) returns (i: nat)
    requires p.abs && FirstHit(order, p).Found?
    ensures i < |order| && order[i] == FirstHit(order, p).m
    ensures forall k :: 0 <= k < i ==> order[k].Root().abs && !Contains(order[k].Root(), p)
  {
    if Contains(order[0].Root(), p) && order[0].Root().abs {
      i := 0;
    } else {
      var j := FirstHitAt(order[1..], p);
      i := j + 1;
      forall k | 0 <= k < i ensures order[k].Root().abs && !Contains(order[k].Root(), p) {
        if k > 0 {
          assert order[k] == order[1..][k - 1];
        }
      }
    }
  }

  lemma {:induction false} FirstHitFrom(order: seq<Mapping>, p: Path, i: nat)
    requires p.abs && i < |order| && Contains(order[i].Root(), p)
    requires forall k :: 0 <= k < i ==> order[k].Root().abs && !Contains(order[k].Root(), p)
    ensures FirstHit(order, p) == Found(order[i])
  {
    if i > 0 {
      forall k | 0 <= k < i - 1
        ensures order[1..][k].Root().abs && !Contains(order[1..][k].Root(), p)
      {
        assert order[1..][k] == order[k + 1];
      }
      FirstHitFrom(order[1..], p, i - 1);
    }
  }

  /** The deciding mapping of a path also decides every shorter path that its root still
      contains. */
  lemma FirstHitOfAncestor(order: seq<Mapping>, p: Path, ancestor: Path)
    requires p.abs && FirstHit(order, p).Found?
    requires Contains(ancestor, p) && Contains(FirstHit(order, p).m.Root(), ancestor)
    ensures FirstHit(order, ancestor) == FirstHit(order, p)
  {
    var i := FirstHitAt(order, p);
    forall k | 0 <= k < i ensures !Contains(order[k].Root(), ancestor) {
      ContainsTransitive(order[k].Root(), ancestor, p);
    }
    FirstHitFrom(order, ancestor, i);
  }

  // ----- when rewriting leaves no reference to an old root -----

  /** The scanner's verdict on a path: some mapping would still change it. */
  predicate RefersTo(order: seq<Mapping>, p: Path) {
    p.abs && FirstHit(order, p).Found? && !FirstHit(order, p).m.Identity()
  }

  /** The scanner's verdict on a value (an error counts as no match). */
  predicate Refers(ms: seq<Mapping>, value: string) {
    Rewrite(ms, value).Moved?
  }

  lemma RefersIsRefersTo(ms: seq<Mapping>, value: string)
    ensures Refers(ms, value) <==> RefersTo(Sorted(ms), Parse(value))
  {
    if IsAbs(value) {
      RewriteByHit(Sorted(ms), value);
    }
  }

  /** The paths below target at which another mapping's root starts. */
  function Landmarks(order: seq<Mapping>, target: Path): (r: seq<seq<string>>)
    ensures forall b :: b in order && Contains(target, b.Root()) ==>
              b.Root().parts[|target.parts|..] in r
    ensures forall s :: s in r ==>
              exists b :: b in order && Contains(target, b.Root()) && b.Root().parts == target.parts + s
  {
    if order == [] then []
    else
      var rest := Landmarks(order[1..], target);
      assert forall b :: b in order ==> b == order[0] || b in order[1..];
      if Contains(target, order[0].Root()) then
        var s := order[0].Root().parts[|target.parts|..];
        assert order[0].Root().parts == target.parts + s;
        [s] + rest
      else rest
  }

  predicate LandsClear(order: seq<Mapping>, m: Mapping, rest: seq<string>) {
    m.Root().abs && FirstHit(order, Under(m.Root(), rest)) == Found(m) ==>
      !RefersTo(order, Under(m.Target(), rest))
  }

  /** A finite check on the mappings alone: the target of every moving mapping, and each
      other root below that target, is not itself about to be moved. */
  predicate Settled(ms: seq<Mapping>) {
    var order := Sorted(ms);
    forall m :: m in order && !m.Identity() ==>
      LandsClear(order, m, []) &&
      forall s :: s in Landmarks(order, m.Target()) ==> LandsClear(order, m, s)
  }

  lemma LandsClearEverywhere(order: seq<Mapping>, m: Mapping, rest: seq<string>)
    requires m in order && !m.Identity()
    requires LandsClear(order, m, [])
    requires forall s :: s in Landmarks(order, m.Target()) ==> LandsClear(order, m, s)
    ensures LandsClear(order, m, rest)
  {
    hide FirstHit, Landmarks;
    var here, there := Under(m.Root(), rest), Under(m.Target(), rest);
    if m.Root().abs && FirstHit(order, here) == Found(m) && RefersTo(order, there) {
      var other := FirstHit(order, there).m;
      if |other.Root().parts| <= |m.Target().parts| {
        assert other.Root().parts == there.parts[..|other.Root().parts|] <= m.Target().parts;
        assert Under(m.Root(), []) == m.Root() && Under(m.Target(), []) == m.Target();
        FirstHitOfAncestor(order, here, m.Root());
        FirstHitOfAncestor(order, there, m.Target());
      } else {
        var s := other.Root().parts[|m.Target().parts|..];
        assert m.Target().parts == there.parts[..|m.Target().parts|] <= other.Root().parts;
        assert other.Root().parts == m.Target().parts + s;
        assert s == there.parts[|m.Target().parts|..|other.Root().parts|] == rest[..|s|];
        assert rest == s + rest[|s|..];
        assert here.parts == Under(m.Root(), s).parts + rest[|s|..];
        assert s in Landmarks(order, m.Target());
        FirstHitOfAncestor(order, here, Under(m.Root(), s));
        FirstHitOfAncestor(order, there, Under(m.Target(), s));
      }
      assert false;
    }
  }

  /** Exactly when rewriting settles: every rewritten value of every kind is free of old
      roots if and only if the finite check passes. */
  lemma RewriteSettlesIffSettled(ms: seq<Mapping>)
    ensures Settled(ms) <==>
            forall v :: Rewrite(ms, v).Moved? ==> !Refers(ms, Rewrite(ms, v).text)
  {
    var order := Sorted(ms);
    if Settled(ms) {
      forall v | Rewrite(ms, v).Moved? ensures !Refers(ms, Rewrite(ms, v).text) {
        RewriteSettles(ms, v);
      }
    } else {
      var m, s :| m in order && !m.Identity() && !LandsClear(order, m, s) &&
        (s == [] || s in Landmarks(order, m.Target()));
      var v := UnsettledWitness(ms, m, s);
    }
  }

  lemma RewriteSettles(ms: seq<Mapping>, v: string)
    requires Settled(ms) && Rewrite(ms, v).Moved?
    ensures !Refers(ms, Rewrite(ms, v).text)
  {
    var order := Sorted(ms);
    RewriteByHit(order, v);
    var m := FirstHit(order, Parse(v)).m;
    var rest := Parse(v).parts[|m.Root().parts|..];
    assert Under(m.Root(), rest) == Parse(v);
    LandsClearEverywhere(order, m, rest);
    RefersIsRefersTo(ms, Rewrite(ms, v).text);
  }

  lemma UnsettledWitness(ms: seq<Mapping>, m: Mapping, s: seq<string>) returns (v: string)
    requires m in Sorted(ms) && !m.Identity() && !LandsClear(Sorted(ms), m, s)
    requires s == [] || s in Landmarks(Sorted(ms), m.Target())
    ensures Rewrite(ms, v).Moved? && Refers(ms, Rewrite(ms, v).text)
  {
    var order := Sorted(ms);
    var here := Under(m.Root(), s);
    LandmarkClean(order, m, s);
    CleanUnder(m.Root(), s);
    v := Render(here);
    ParseRender(here);
    RewriteByHit(order, v);
    assert here.parts[|m.Root().parts|..] == s;
    RefersIsRefersTo(ms, Rewrite(ms, v).text);
  }

  lemma LandmarkClean(order: seq<Mapping>, m: Mapping, s: seq<string>)
    requires s == [] || s in Landmarks(order, m.Target())
    ensures Clean(true, s)
  {
    if s in Landmarks(order, m.Target()) {
      var b :| b in order && Contains(m.Target(), b.Root()) && b.Root().parts == m.Target().parts + s;
      CleanSuffix(b.Root().parts, |m.Target().parts|);
      assert b.Root().parts[|m.Target().parts|..] == s;
    }
  }

  /** The planner's ordinary case: no moving root or target lies inside another's. */
  predicate NonNested(ms: seq<Mapping>) {
    forall a, b :: a in ms && b in ms && !a.Identity() && !b.Identity() ==>
      !Nested(a.Target(), b.Root())
  }

  lemma TargetsClear(ms: seq<Mapping>, m: Mapping, rest: seq<string>)
    requires NonNested(ms) && m in Sorted(ms) && !m.Identity()
    ensures !RefersTo(Sorted(ms), Under(m.Target(), rest))
  {
    var order, there := Sorted(ms), Under(m.Target(), rest);
    SameMembers(ms, order);
    if RefersTo(order, there) {
      AncestorsNest(m.Target(), FirstHit(order, there).m.Root(), there);
      assert false;
    }
  }

  /** Roots and targets that do not nest are settled. */
  lemma NonNestedIsSettled(ms: seq<Mapping>)
    requires NonNested(ms)
    ensures Settled(ms)
  {
    var order := Sorted(ms);
    forall m, s | m in order && !m.Identity() ensures LandsClear(order, m, s) {
      TargetsClear(ms, m, s);
    }
  }

  /** Rewriting twice changes nothing the second time, when settled and nothing failed. */
  lemma RewriteIdempotent(ms: seq<Mapping>, v: string)
    requires Settled(ms)
    ensures match Rewrite(ms, v)
            case Kept => !Refers(ms, v)
            case Moved(text) => !Refers(ms, text)
            case Failed => true
  {
    if Rewrite(ms, v).Moved? {
      RewriteSettles(ms, v);
    }
  }

  // ----- the rewrite as a function value -----

  /** The rewrite of one value by some mappings. */
  type Rewriter = string -> Verdict

  function By(ms: seq<Mapping>): Rewriter {
    v => Rewrite(ms, v)
  }

  function Apply(f: Rewriter, v: string): string {
    match f(v)
    case Moved(text) => text
    case _ => v
  }

  /** A value reported as moved really changes. */
  ghost predicate Honest(f: Rewriter) {
    forall v :: f(v).Moved? ==> f(v).text != v
  }

  lemma ByIsHonest(ms: seq<Mapping>)
    ensures Honest(By(ms))
  {
    forall v | By(ms)(v).Moved? ensures By(ms)(v).text != v {
      RewriteByHit(Sorted(ms), v);
      var m := FirstHit(Sorted(ms), Parse(v)).m;
      GraftIdentity(Parse(v), m.Root(), m.Target());
    }
  }

  // ----- service-scoped values: rewritten without the data-dir mapping, scanned with it -----

  function ServiceScoped(ms: seq<Mapping>): (r: seq<Mapping>)
    ensures forall m :: m in r <==> m in ms && m.reason != DataDir
  {
    if ms == [] then []
    else
      assert forall m :: m in ms <==> m == ms[0] || m in ms[1..];
      if ms[0].reason == DataDir then ServiceScoped(ms[1..])
      else [ms[0]] + ServiceScoped(ms[1..])
  }

  lemma {:induction false} ScopedArranged(ms: seq<Mapping>)
    requires Arranged(ms)
    ensures Arranged(ServiceScoped(ms))
  {
    if ms != [] {
      ScopedArranged(ms[1..]);
      forall m | m in ServiceScoped(ms[1..]) ensures Precedes(ms[0], m) {
        var i :| 0 <= i < |ms[1..]| && ms[1..][i] == m;
        assert ms[i + 1] == m;
      }
    }
  }

  lemma ScopedCons(m: Mapping, ms: seq<Mapping>)
    ensures ServiceScoped([m] + ms) ==
            if m.reason == DataDir then ServiceScoped(ms) else [m] + ServiceScoped(ms)
  {
    assert ([m] + ms)[1..] == ms;
  }

  lemma ScopedFront(m: Mapping, ms: seq<Mapping>)
    requires ms != [] && Arranged(ms) && Precedes(m, ms[0])
    ensures Arranged(ServiceScoped(ms))
    ensures Insert(m, ServiceScoped(ms)) == [m] + ServiceScoped(ms)
  {
    ScopedArranged(ms);
    var kept := ServiceScoped(ms);
    if kept != [] {
      assert kept[0] in kept;
      var i :| 0 <= i < |ms| && ms[i] == kept[0];
      if i > 0 {
        PrecedesTransitive(m, ms[0], ms[i]);
      }
    }
  }

  lemma {:induction false} ScopedInsert(m: Mapping, ms: seq<Mapping>)
    requires Arranged(ms)
    ensures Arranged(ServiceScoped(ms))
    ensures ServiceScoped(Insert(m, ms)) ==
            if m.reason == DataDir then ServiceScoped(ms) else Insert(m, ServiceScoped(ms))
  {
    ScopedArranged(ms);
    if ms == [] {
      ScopedCons(m, []);
      assert [m] + [] == [m];
    } else if Precedes(m, ms[0]) {
      ScopedCons(m, ms);
      ScopedFront(m, ms);
    } else {
      var head, tail := ms[0], ms[1..];
      assert ms == [head] + tail;
      ScopedInsert(m, tail);
      ScopedCons(head, tail);
      ScopedCons(head, Insert(m, tail));
      if head.reason != DataDir {
        assert ServiceScoped(ms)[1..] == ServiceScoped(tail);
      }
    }
  }

  /** Filtering before sorting and sorting before filtering agree. */
  lemma {:induction false} ScopedSorted(ms: seq<Mapping>)
    ensures Sorted(ServiceScoped(ms)) == ServiceScoped(Sorted(ms))
  {
    if ms != [] {
      ScopedSorted(ms[1..]);
      ScopedInsert(ms[0], Sorted(ms[1..]));
      if ms[0].reason != DataDir {
        assert ServiceScoped(ms)[1..] == ServiceScoped(ms[1..]);
      }
    }
  }

  lemma {:induction false} ScopedHit(order: seq<Mapping>, p: Path)
    requires p.abs && FirstHit(order, p).Found? && FirstHit(order, p).m.reason != DataDir
    ensures FirstHit(ServiceScoped(order), p) == FirstHit(order, p)
  {
    if !Contains(order[0].Root(), p) {
      ScopedHit(order[1..], p);
    }
    if order[0].reason != DataDir {
      assert ServiceScoped(order)[1..] == ServiceScoped(order[1..]);
    }
  }

  /** A service-scoped value that stays behind: the data-dir move is its most specific
      mapping, and without it no other mapping moves the value. */
  predicate Stuck(ms: seq<Mapping>, value: string) {
    IsAbs(value) &&
    var h := FirstHit(Sorted(ms), Parse(value));
    h.Found? && h.m.reason == DataDir && !h.m.Identity() &&
    !Rewrite(ServiceScoped(ms), value).Moved?
  }

  function After(ms: seq<Mapping>, value: string): string {
    match Rewrite(ms, value)
    case Moved(text) => text
    case _ => value
  }

  /** For roots that do not nest, a service-scoped value is still reported after its
      rewrite exactly when it is stuck. */
  lemma ScopedValueReportedIffStuck(ms: seq<Mapping>, value: string)
    requires NonNested(ms)
    ensures Refers(ms, After(ServiceScoped(ms), value)) <==> Stuck(ms, value)
  {
    var order, scoped := Sorted(ms), Sorted(ServiceScoped(ms));
    ScopedSorted(ms);
    RefersIsRefersTo(ms, After(ServiceScoped(ms), value));
    if IsAbs(value) {
      RewriteByHit(scoped, value);
      match Rewrite(ServiceScoped(ms), value)
      case Moved(text) =>
        var m := FirstHit(scoped, Parse(value)).m;
        assert m in scoped && m in order;
        TargetsClear(ms, m, Parse(value).parts[|m.Root().parts|..]);
      case _ =>
        if RefersTo(order, Parse(value)) && FirstHit(order, Parse(value)).m.reason != DataDir {
          ScopedHit(order, Parse(value));
        }
    }
  }

  /** With only a data-dir move, every service-scoped value under the old data dir is
      stuck. */
  lemma DataDirAloneStrands(m: Mapping, value: string)
    requires m.reason == DataDir && !m.Identity()
    requires IsAbs(value) && Contains(m.Root(), Parse(value))
    ensures Stuck([m], value)
  {
    ScopedCons(m, []);
    assert [m] + [] == [m];
    assert Sorted([m]) == [m];
  }

  lemma ParseNames(parts: seq<string>, text: string)
    requires parts != [] && (forall c :: c in parts ==> IsName(c)) && text == "/" + JoinSlash(parts)
    ensures Parse(text) == Path(true, parts)
  {
    forall i | 0 <= i < |parts| ensures CleanAt(true, parts, i) {
      assert parts[i] in parts;
    }
    ParseRender(Path(true, parts));
  }

  lemma DiskStranded(a: string, b: string, d: string, m: Mapping)
    requires IsName(a) && IsName(b) && IsName(d) && a != b
    requires m == Mapping("/" + a, "/" + b, DataDir, "")
    ensures NonNested([m])
    ensures Refers([m], After(ServiceScoped([m]), "/" + (a + "/" + d)))
  {
    var disk := "/" + (a + "/" + d);
    ParseNames([a], "/" + a);
    ParseNames([b], "/" + b);
    ParseNames([a, d], disk);
    assert m.Root().parts[0] == a && m.Target().parts[0] == b;
    assert [a] <= [a, d];
    DataDirAloneStrands(m, disk);
    ScopedValueReportedIffStuck([m], disk);
  }

  /** A disk at /a/d when only the data dir moves, from /a to /b: it is never rewritten,
      and the scanner then reports it. */
  lemma DiskStrandedExample()
    ensures var ms := [Mapping("/a", "/b", DataDir, "")];
            NonNested(ms) && Refers(ms, After(ServiceScoped(ms), "/a/d"))
  {
    assert "/" + "a" == "/a" && "/" + "b" == "/b" && "/" + ("a" + "/" + "d") == "/a/d";
    assert "a"[0] != "b"[0] && IsName("a") && IsName("b") && IsName("d");
    DiskStranded("a", "b", "d", Mapping("/a", "/b", DataDir, ""));
  }
}
