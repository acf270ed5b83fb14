/** Lexical paths: the model of Go's filepath.Clean, Rel and Join on Unix path text,
    and of the relocation of one path from under an old root to under a new root. */
module Paths {

  /** A cleaned path: absolute or relative, and its components. */
  datatype Path = Path(abs: bool, parts: seq<string>)

  predicate IsName(c: string) {
    c != "" && '/' !in c && c != "." && c != ".."
  }

  /** What cleaning leaves: names, and for a relative path possibly leading "..". */
  predicate Clean(abs: bool, parts: seq<string>) {
    forall i :: 0 <= i < |parts| ==> CleanAt(abs, parts, i)
  }

  predicate CleanAt(abs: bool, parts: seq<string>, i: nat)
    requires i < |parts|
  {
    IsName(parts[i]) || (!abs && parts[i] == ".." && (i == 0 || parts[i - 1] == ".."))
  }

  predicate Cleaned(p: Path) {
    Clean(p.abs, p.parts)
  }

  predicate IsAbs(s: string) {
    s != "" && s[0] == '/'
  }

  /** The pieces of s between slashes, empty ones included. */
  function Split(s: string): (r: seq<string>)
    ensures |r| > 0
    ensures forall c :: c in r ==> '/' !in c
  {
    if s == "" then [""]
    else if s[0] == '/' then [""] + Split(s[1..])
    else
      var rest := Split(s[1..]);
      [[s[0]] + rest[0]] + rest[1..]
  }

  /** One component of filepath.Clean: skip "" and ".", let ".." cancel the name before it. */
  function Push(abs: bool, acc: seq<string>, c: string): (r: seq<string>)
    requires Clean(abs, acc) && '/' !in c
    ensures Clean(abs, r)
  {
    if c == "" || c == "." then acc
    else if c == ".." then
      if acc != [] && acc[|acc| - 1] != ".." then
        CleanPrefix(abs, acc, |acc| - 1);
        acc[..|acc| - 1]
      else if abs then acc
      else
        CleanSnoc(abs, acc, "..");
        acc + [".."]
    else
      CleanSnoc(abs, acc, c);
      acc + [c]
  }

  lemma CleanPrefix(abs: bool, acc: seq<string>, n: nat)
    requires Clean(abs, acc) && n <= |acc|
    ensures Clean(abs, acc[..n])
  {
    forall i | 0 <= i < n ensures CleanAt(abs, acc[..n], i) {
      assert CleanAt(abs, acc, i);
    }
  }

  lemma CleanSnoc(abs: bool, acc: seq<string>, c: string)
    requires Clean(abs, acc)
    requires IsName(c) || (!abs && c == ".." && (acc == [] || acc[|acc| - 1] == ".."))
    ensures Clean(abs, acc + [c])
  {
    forall i | 0 <= i < |acc| + 1 ensures CleanAt(abs, acc + [c], i) {
      if i < |acc| {
        assert CleanAt(abs, acc, i);
      }
    }
  }

  function Resolve(abs: bool, acc: seq<string>, raw: seq<string>): (r: seq<string>)
    requires Clean(abs, acc)
    requires forall c :: c in raw ==> '/' !in c
    ensures Clean(abs, r)
    decreases |raw|
  {
    if raw == [] then acc else Resolve(abs, Push(abs, acc, raw[0]), raw[1..])
  }

  function Parse(s: string): (p: Path)
    ensures Cleaned(p) && p.abs == IsAbs(s)
  {
    Path(IsAbs(s), Resolve(IsAbs(s), [], Split(s)))
  }

  function JoinSlash(parts: seq<string>): string {
    if parts == [] then ""
    else if |parts| == 1 then parts[0]
    else parts[0] + "/" + JoinSlash(parts[1..])
  }

  /** The text filepath.Clean returns. */
  function Render(p: Path): string {
    if p.abs then "/" + JoinSlash(p.parts)
    else if p.parts == [] then "."
    else JoinSlash(p.parts)
  }

  // ----- what cleaning does, piece by piece -----

  lemma {:induction false} SplitSnoc(s: string, c: string)
    requires '/' !in c
    ensures Split(s + "/" + c) == Split(s) + [c]
  {
    var all := s + "/" + c;
    if s == "" {
      SplitName(c);
      assert all[1..] == c;
    } else {
      assert all[1..] == s[1..] + "/" + c;
      SplitSnoc(s[1..], c);
    }
  }

  lemma {:induction false} ResolveSnoc(abs: bool, acc: seq<string>, raw: seq<string>, c: string)
    requires Clean(abs, acc) && '/' !in c && forall x :: x in raw ==> '/' !in x
    ensures Resolve(abs, acc, raw + [c]) == Push(abs, Resolve(abs, acc, raw), c)
    decreases |raw|
  {
    assert forall x :: x in raw + [c] ==> x in raw || x == c;
    if raw == [] {
      assert raw + [c] == [c] && [c][1..] == [];
    } else {
      assert (raw + [c])[1..] == raw[1..] + [c];
      ResolveSnoc(abs, Push(abs, acc, raw[0]), raw[1..], c);
    }
  }

  /** One more component: nothing for an empty one or ".", the parent for "..", and the child
      for a name. The root is its own parent, and a relative path goes up without end. */
  lemma ParseStep(s: string, c: string)
    requires s != "" && '/' !in c
    ensures var p, q := Parse(s), Parse(s + "/" + c);
            && q.abs == p.abs
            && (c == "" || c == "." ==> q.parts == p.parts)
            && (c == ".." && p.abs ==> q.parts == if p.parts == [] then [] else p.parts[..|p.parts| - 1])
            && (c == ".." && !p.abs ==>
                  q.parts == if p.parts == [] || p.parts[|p.parts| - 1] == ".." then p.parts + [".."]
                             else p.parts[..|p.parts| - 1])
            && (IsName(c) ==> q.parts == p.parts + [c])
  {
    SplitSnoc(s, c);
    var p := Parse(s);
    assert Parse(s + "/" + c).parts == Push(p.abs, p.parts, c) by {
      assert Split(s + "/" + c) == Split(s) + [c];
      ResolveSnoc(IsAbs(s), [], Split(s), c);
    }
    if p.abs && p.parts != [] {
      assert CleanAt(true, p.parts, |p.parts| - 1);
    }
  }

  /** Where that starts: at the root for a leading slash, and else nowhere. */
  lemma ParseFirst(c: string)
    requires '/' !in c
    ensures Parse(c) == Path(false, if c == "" || c == "." then [] else [c])
    ensures Parse("/") == Path(true, [])
    ensures Parse("/" + c) == Path(true, if c == "" || c == "." || c == ".." then [] else [c])
  {
    SplitName(c);
    assert [c][1..] == [] && ["", c][1..] == [c];
    assert ("/" + c)[1..] == c && Split("/" + c) == ["", c];
    assert Resolve(true, [], ["", c]) == Resolve(true, [], [c]) == Push(true, [], c);
    assert Resolve(false, [], [c]) == Push(false, [], c) && !IsAbs(c);
    assert Split("/") == ["", ""] by {
      assert "/"[1..] == "";
    }
  }

  // ----- cleaning is idempotent: parsing rendered text gives the path back -----

  lemma {:induction false} SplitName(c: string)
    requires '/' !in c
    ensures Split(c) == [c]
  {
    if c != "" {
      SplitName(c[1..]);
      assert [c[0]] + c[1..] == c;
    }
  }

  lemma {:induction false} SplitAtSlash(c: string, rest: string)
    requires '/' !in c
    ensures Split(c + "/" + rest) == [c] + Split(rest)
  {
    var s := c + "/" + rest;
    if c == "" {
      assert s[1..] == rest;
    } else {
      SplitAtSlash(c[1..], rest);
      assert s[1..] == c[1..] + "/" + rest;
      assert [c[0]] + c[1..] == c;
    }
  }

  lemma {:induction false} SplitJoin(parts: seq<string>)
    requires parts != [] && forall c :: c in parts ==> '/' !in c
    ensures Split(JoinSlash(parts)) == parts
  {
    if |parts| == 1 {
      SplitName(parts[0]);
    } else {
      SplitJoin(parts[1..]);
      SplitAtSlash(parts[0], JoinSlash(parts[1..]));
      assert [parts[0]] + parts[1..] == parts;
    }
  }

  lemma {:induction false} ResolveClean(abs: bool, acc: seq<string>, raw: seq<string>)
    requires Clean(abs, acc + raw)
    requires Clean(abs, acc) && forall c :: c in raw ==> '/' !in c
    ensures Resolve(abs, acc, raw) == acc + raw
    decreases |raw|
  {
    if raw == [] {
      assert acc + raw == acc;
    } else {
      assert (acc + raw)[|acc|] == raw[0] && CleanAt(abs, acc + raw, |acc|);
      assert acc != [] ==> (acc + raw)[|acc| - 1] == acc[|acc| - 1];
      assert Push(abs, acc, raw[0]) == acc + [raw[0]];
      assert acc + raw == (acc + [raw[0]]) + raw[1..];
      assert forall c :: c in raw[1..] ==> c in raw;
      ResolveClean(abs, acc + [raw[0]], raw[1..]);
    }
  }

  lemma CleanHasNoSlash(p: Path)
    requires Cleaned(p)
    ensures forall c :: c in p.parts ==> '/' !in c && c != "" && c != "."
  {
    forall c | c in p.parts ensures '/' !in c && c != "" && c != "." {
      var i :| 0 <= i < |p.parts| && p.parts[i] == c;
      assert CleanAt(p.abs, p.parts, i);
      assert '/' !in "..";
    }
  }

  lemma JoinSlashHead(parts: seq<string>)
    requires parts != [] && parts[0] != ""
    ensures JoinSlash(parts) != "" && JoinSlash(parts)[0] == parts[0][0]
  {
  }

  /** filepath.Clean is idempotent: cleaned text parses back to the same path. */
  lemma ParseRender(p: Path)
    requires Cleaned(p)
    ensures Parse(Render(p)) == p
  {
    CleanHasNoSlash(p);
    assert Clean(p.abs, []);
    assert [] + p.parts == p.parts;
    if p.parts == [] {
      if p.abs {
        assert Render(p) == "/";
        assert Split("/") == ["", ""];
        assert Resolve(true, [], ["", ""]) == Resolve(true, [], [""]) == [];
      } else {
        SplitName(".");
        assert Resolve(false, [], ["."]) == [];
      }
    } else if p.abs {
      var joined := JoinSlash(p.parts);
      SplitJoin(p.parts);
      assert Render(p)[1..] == joined;
      assert Split(Render(p)) == [""] + p.parts;
      assert ([""] + p.parts)[1..] == p.parts;
      ResolveClean(true, [], p.parts);
    } else {
      assert p.parts[0] in p.parts;
      JoinSlashHead(p.parts);
      assert p.parts[0][0] in p.parts[0];
      SplitJoin(p.parts);
      ResolveClean(false, [], p.parts);
    }
  }

  lemma RenderInjective(p: Path, q: Path)
    requires Cleaned(p) && Cleaned(q) && Render(p) == Render(q)
    ensures p == q
  {
    ParseRender(p);
    ParseRender(q);
  }

  // ----- roots and relocation -----

  /** root is path or one of its ancestors. */
  predicate Contains(root: Path, path: Path) {
    root.abs && path.abs && root.parts <= path.parts
  }

  predicate Nested(a: Path, b: Path) {
    Contains(a, b) || Contains(b, a)
  }

  lemma ContainsTransitive(a: Path, b: Path, c: Path)
    ensures Contains(a, b) && Contains(b, c) ==> Contains(a, c)
  {
  }

  /** Two ancestors of one path are nested. */
  lemma AncestorsNest(a: Path, b: Path, p: Path)
    ensures Contains(a, p) && Contains(b, p) ==> Nested(a, b)
  {
    if Contains(a, p) && Contains(b, p) {
      assert a.parts == p.parts[..|a.parts|] && b.parts == p.parts[..|b.parts|];
    }
  }

  /** The path with its root exchanged: Join(to, Rel(from, path)). */
  function Graft(path: Path, from: Path, to: Path): (r: Path)
    requires Contains(from, path)
  {
    Path(to.abs, to.parts + path.parts[|from.parts|..])
  }

  function Under(root: Path, rest: seq<string>): Path {
    Path(root.abs, root.parts + rest)
  }

  lemma CleanUnder(root: Path, rest: seq<string>)
    requires Cleaned(root) && Clean(true, rest)
    ensures Cleaned(Under(root, rest))
  {
    var all := root.parts + rest;
    forall i | 0 <= i < |all| ensures CleanAt(root.abs, all, i) {
      if i < |root.parts| {
        assert CleanAt(root.abs, root.parts, i);
      } else {
        assert CleanAt(true, rest, i - |root.parts|);
      }
    }
  }

  lemma CleanSuffix(parts: seq<string>, n: nat)
    requires Clean(true, parts) && n <= |parts|
    ensures Clean(true, parts[n..])
  {
    forall i | 0 <= i < |parts| - n ensures CleanAt(true, parts[n..], i) {
      assert CleanAt(true, parts, i + n);
    }
  }

  lemma GraftCleaned(path: Path, from: Path, to: Path)
    requires Contains(from, path) && Cleaned(path) && Cleaned(to)
    ensures Cleaned(Graft(path, from, to))
  {
    CleanSuffix(path.parts, |from.parts|);
    CleanUnder(to, path.parts[|from.parts|..]);
  }

  /** The result of relocating one path: an error for a root that is not absolute
      (filepath.Rel fails), no change outside the root, else the new text. */
  datatype Relocation = BadRoot | Outside | Relocated(text: string)

  function Relocate(value: string, from: string, to: string): (r: Relocation)
    ensures r.Relocated? <==> IsAbs(value) && Contains(Parse(from), Parse(value))
    ensures r.Relocated? ==> Parse(r.text) == Graft(Parse(value), Parse(from), Parse(to))
  {
    if !IsAbs(value) then Outside
    else if !Parse(from).abs then BadRoot
    else if !Contains(Parse(from), Parse(value)) then Outside
    else
      GraftCleaned(Parse(value), Parse(from), Parse(to));
      ParseRender(Graft(Parse(value), Parse(from), Parse(to)));
      Relocated(Render(Graft(Parse(value), Parse(from), Parse(to))))
  }

  /** Relocating to the new root and back gives the cleaned original. */
  lemma RelocateRoundTrip(value: string, from: string, to: string)
    requires Relocate(value, from, to).Relocated? && Parse(to).abs
    ensures Relocate(Relocate(value, from, to).text, to, from) == Relocated(Render(Parse(value)))
  {
    var there := Relocate(value, from, to).text;
    var rest := Parse(value).parts[|Parse(from).parts|..];
    assert Parse(there) == Under(Parse(to), rest);
    assert (Parse(to).parts + rest)[|Parse(to).parts|..] == rest;
    assert Parse(from).parts + rest == Parse(value).parts;
  }

  // ----- text length orders nested roots -----

  function TextLength(p: Path): nat {
    |Render(p)|
  }

  lemma {:induction false} JoinSlashLonger(a: seq<string>, b: seq<string>)
    requires a < b && forall c :: c in b ==> c != ""
    ensures |JoinSlash(a)| < |JoinSlash(b)|
  {
    assert b[0] in b;
    if a == [] {
    } else {
      assert a[0] == b[0];
      if |a| == 1 {
      } else {
        assert a[1..] < b[1..] && forall c :: c in b[1..] ==> c in b;
        JoinSlashLonger(a[1..], b[1..]);
      }
    }
  }

  /** A root strictly inside another has strictly longer cleaned text. */
  lemma DeeperIsLonger(outer: Path, inner: Path)
    requires Cleaned(inner) && Contains(outer, inner) && outer != inner
    ensures TextLength(outer) < TextLength(inner)
  {
    CleanHasNoSlash(inner);
    JoinSlashLonger(outer.parts, inner.parts);
  }
}
