/** Rewriting path candidates inside generated text artifacts. A byte of the file is
    modelled as one character. */
module TextRewrite {
  import opened Paths
  import opened Mappings

  predicate IsNameByte(c: char) {
    c == '-' || c == '_' || c == '.' || '0' <= c <= '9' || 'A' <= c <= 'Z' || 'a' <= c <= 'z'
  }

  predicate IsPathByte(c: char) {
    c == '/' || IsNameByte(c)
  }

  /** The alphabet of paths, letter by letter. */
  lemma PathAlphabet(c: char)
    ensures IsPathByte(c) <==>
            c in "/-_." || c in "0123456789" || c in "ABCDEFGHIJKLMNOPQRSTUVWXYZ" || c in "abcdefghijklmnopqrstuvwxyz"
  {
    Digits(c);
    Capitals(c);
    Letters(c);
    assert "/-_."[0] == '/' && "/-_."[1] == '-' && "/-_."[2] == '_' && "/-_."[3] == '.';
  }

  lemma Digits(c: char)
    ensures '0' <= c <= '9' <==> c in "0123456789"
  {
    if '0' <= c <= '9' {
      assert "0123456789"[c as int - '0' as int] == c;
    }
  }

  lemma Capitals(c: char)
    ensures 'A' <= c <= 'Z' <==> c in "ABCDEFGHIJKLMNOPQRSTUVWXYZ"
  {
    if 'A' <= c <= 'Z' {
      assert "ABCDEFGHIJKLMNOPQRSTUVWXYZ"[c as int - 'A' as int] == c;
    }
  }

  lemma Letters(c: char)
    ensures 'a' <= c <= 'z' <==> c in "abcdefghijklmnopqrstuvwxyz"
  {
    if 'a' <= c <= 'z' {
      assert "abcdefghijklmnopqrstuvwxyz"[c as int - 'a' as int] == c;
    }
  }

  predicate IsBlank(c: char) {
    c == ' ' || c == '\t' || c == '\n' || c == '\r' || c == 11 as char || c == 12 as char
  }

  lemma Blanks(c: char)
    ensures IsBlank(c) <==> c in [' ', '\t', '\n', 11 as char, 12 as char, '\r']
  {
  }

  function TrimRight(s: string): string {
    if s != "" && IsBlank(s[|s| - 1]) then TrimRight(s[..|s| - 1]) else s
  }

  function TrimLeft(s: string): string {
    if s != "" && IsBlank(s[0]) then TrimLeft(s[1..]) else s
  }

  function LastLine(s: string): string {
    if s == "" || s[|s| - 1] == '\n' then "" else LastLine(s[..|s| - 1]) + [s[|s| - 1]]
  }

  predicate HasSuffix(s: string, suffix: string) {
    |suffix| <= |s| && s[|s| - |suffix|..] == suffix
  }

  const DIRECTIVE := "EnvironmentFile"
  const ENVIRONMENT_FILE := DIRECTIVE + "="

  /** The text before a dash ends, on the dash's own line, in "EnvironmentFile=". */
  predicate EnvironmentFileBefore(text: string) {
    HasSuffix(TrimLeft(TrimRight(LastLine(text))), ENVIRONMENT_FILE)
  }

  predicate BoundaryBefore(content: string, idx: nat)
    requires idx < |content|
  {
    idx == 0 ||
    (content[idx] == '/' && content[idx - 1] == '-' && EnvironmentFileBefore(content[..idx - 1])) ||
    !IsPathByte(content[idx - 1])
  }

  predicate BoundaryAfter(content: string, idx: nat) {
    idx >= |content| || content[idx] == '/' || !IsNameByte(content[idx])
  }

  // ----- tokens: maximal runs of path bytes and the gaps between them -----

  datatype Token = Gap(text: string) | Run(text: string)

  predicate OfKind(run: bool, c: char) {
    IsPathByte(c) == run
  }

  predicate WellFormedToken(t: Token) {
    t.text != "" && forall i :: 0 <= i < |t.text| ==> OfKind(t.Run?, t.text[i])
  }

  predicate WellFormed(ts: seq<Token>) {
    && (forall i :: 0 <= i < |ts| ==> WellFormedToken(ts[i]))
    && forall i :: 0 < i < |ts| ==> ts[i].Run? != ts[i - 1].Run?
  }

  /** The end of the longest stretch of same-kind bytes from start. */
  function KindEnd(content: string, start: nat, run: bool): (end: nat)
    requires start <= |content|
    ensures start <= end <= |content|
    ensures forall i :: start <= i < end ==> OfKind(run, content[i])
    ensures end < |content| ==> !OfKind(run, content[end])
    decreases |content| - start
  {
    if start == |content| || !OfKind(run, content[start]) then start else KindEnd(content, start + 1, run)
  }

  function Tokens(content: string): (ts: seq<Token>)
    ensures WellFormed(ts)
    ensures content != "" ==> ts != [] && ts[0].Run? == IsPathByte(content[0])
    decreases |content|
  {
    if content == "" then []
    else
      var run := IsPathByte(content[0]);
      var end := KindEnd(content, 0, run);
      var head := if run then Run(content[..end]) else Gap(content[..end]);
      [head] + Tokens(content[end..])
  }

  function Flatten(ts: seq<Token>): string {
    if ts == [] then "" else ts[0].text + Flatten(ts[1..])
  }

  lemma {:induction false} FlattenTokens(content: string)
    ensures Flatten(Tokens(content)) == content
    decreases |content|
  {
    if content != "" {
      var end := KindEnd(content, 0, IsPathByte(content[0]));
      FlattenTokens(content[end..]);
      assert content == content[..end] + content[end..];
    }
  }

  lemma KindEndIs(content: string, start: nat, run: bool, end: nat)
    requires start <= end <= |content|
    requires forall i :: start <= i < end ==> OfKind(run, content[i])
    requires end < |content| ==> !OfKind(run, content[end])
    ensures KindEnd(content, start, run) == end
    decreases |content| - start
  {
    if start < end {
      KindEndIs(content, start + 1, run, end);
    }
  }

  /** Tokenising is the inverse of joining for any well-formed token list. */
  lemma {:induction false} TokensFlatten(ts: seq<Token>)
    requires WellFormed(ts)
    ensures Tokens(Flatten(ts)) == ts
  {
    if ts != [] {
      var head, tail := ts[0], ts[1..];
      assert WellFormed(tail) by {
        forall i | 0 < i < |tail| ensures tail[i].Run? != tail[i - 1].Run? {
          assert ts[i + 1].Run? != ts[i].Run?;
        }
      }
      TokensFlatten(tail);
      var all, rest := Flatten(ts), Flatten(tail);
      assert all == head.text + rest;
      assert OfKind(head.Run?, head.text[0]);
      if tail != [] {
        assert ts[1].Run? != ts[0].Run?;
        assert WellFormedToken(tail[0]) && OfKind(tail[0].Run?, tail[0].text[0]);
        assert rest[0] == tail[0].text[0];
      }
      KindEndIs(all, 0, head.Run?, |head.text|);
      assert all[..|head.text|] == head.text && all[|head.text|..] == rest;
    }
  }

  lemma {:induction false} FlattenAppend(a: seq<Token>, b: seq<Token>)
    ensures Flatten(a + b) == Flatten(a) + Flatten(b)
  {
    if a == [] {
      assert a + b == b;
    } else {
      assert (a + b)[1..] == a[1..] + b;
      FlattenAppend(a[1..], b);
    }
  }

  // ----- the simple specification -----

  /** Whether a dash after the given text may be followed by a candidate. */
  type Guard = string -> bool

  const BEFORE_DASH: Guard := text => EnvironmentFileBefore(text)

  /** Where a run's candidate starts: at its first slash if it starts with one, at its
      second byte if it starts with "-/" and the text before it allows that, and otherwise
      nowhere, that is, at its end. */
  function CandidateStart(g: Guard, before: string, run: string): (k: nat)
    requires run != ""
    ensures k <= |run| && (k < |run| ==> run[k] == '/')
  {
    if run[0] == '/' then 0
    else if |run| >= 2 && run[0] == '-' && run[1] == '/' && g(before) then 1
    else |run|
  }

  /** One run after the rewrite: its candidate, if it has one, is exchanged. */
  function RunAfter(f: Rewriter, g: Guard, before: string, run: string): string
    requires run != ""
  {
    var k := CandidateStart(g, before, run);
    if k == |run| then run else run[..k] + Apply(f, run[k..])
  }

  predicate RunMoves(f: Rewriter, g: Guard, before: string, run: string)
    requires run != ""
  {
    var k := CandidateStart(g, before, run);
    k < |run| && f(run[k..]).Moved?
  }

  predicate RunFails(f: Rewriter, g: Guard, before: string, run: string)
    requires run != ""
  {
    var k := CandidateStart(g, before, run);
    k < |run| && f(run[k..]).Failed?
  }

  predicate NonEmpty(ts: seq<Token>) {
    forall i :: 0 <= i < |ts| ==> ts[i].text != ""
  }

  function TokenAfter(f: Rewriter, g: Guard, before: string, t: Token): Token
    requires t.text != ""
  {
    if t.Gap? then t else Run(RunAfter(f, g, before, t.text))
  }

  function TokensAfter(f: Rewriter, g: Guard, before: string, ts: seq<Token>): (r: seq<Token>)
    requires NonEmpty(ts)
    ensures |r| == |ts|
    decreases |ts|
  {
    if ts == [] then []
    else [TokenAfter(f, g, before, ts[0])] + TokensAfter(f, g, before + ts[0].text, ts[1..])
  }

  predicate AnyMoves(f: Rewriter, g: Guard, before: string, ts: seq<Token>)
    requires NonEmpty(ts)
    decreases |ts|
  {
    ts != [] && ((ts[0].Run? && RunMoves(f, g, before, ts[0].text)) || AnyMoves(f, g, before + ts[0].text, ts[1..]))
  }

  predicate AnyFails(f: Rewriter, g: Guard, before: string, ts: seq<Token>)
    requires NonEmpty(ts)
    decreases |ts|
  {
    ts != [] && ((ts[0].Run? && RunFails(f, g, before, ts[0].text)) || AnyFails(f, g, before + ts[0].text, ts[1..]))
  }

  /** The text with every candidate path span exchanged and every other byte kept. */
  function Rewritten(f: Rewriter, content: string): string {
    Flatten(TokensAfter(f, BEFORE_DASH, "", Tokens(content)))
  }

  predicate Moves(f: Rewriter, content: string) {
    AnyMoves(f, BEFORE_DASH, "", Tokens(content))
  }

  predicate Fails(f: Rewriter, content: string) {
    AnyFails(f, BEFORE_DASH, "", Tokens(content))
  }

  // ----- the scanner -----

  predicate CandidateAt(content: string, idx: nat)
    requires idx < |content|
  {
    content[idx] == '/' && BoundaryBefore(content, idx)
  }

  /** nextHostStoragePathCandidate: a candidate starts at idx and extends over all following
      path bytes. The boundary test after it never rejects: what stops the extension is
      neither a slash nor a name byte. */
  method NextCandidate(content: string, idx: nat) returns (start: nat, end: nat, next: nat, ok: bool)
    requires idx < |content|
    ensures idx < next <= |content|
    ensures ok <==> CandidateAt(content, idx)
    ensures ok ==> start == idx && end == next == KindEnd(content, idx + 1, true)
    ensures !ok ==> next == idx + 1
  {
    if content[idx] != '/' || !BoundaryBefore(content, idx) {
      return 0, 0, idx + 1, false;
    }
    end := idx + 1;
    while end < |content| && IsPathByte(content[end])
      invariant idx + 1 <= end <= |content|
      invariant forall i :: idx + 1 <= i < end ==> IsPathByte(content[i])
    {
      end := end + 1;
    }
    if !BoundaryAfter(content, end) {
      assert false;
    }
    KindEndIs(content, idx + 1, true, end);
    return idx, end, end, true;
  }

  datatype Outcome = Same | Changed(text: string) | Error

  /** rewriteHostStoragePathCandidates: one pass, copying only once something changes. The
      result is the input itself when no candidate moves, and otherwise the simple
      specification; it fails exactly when some candidate's rewrite fails. */
  method RewriteCandidates(f: Rewriter, content: string) returns (r: Outcome)
    requires Honest(f)
    ensures r.Error? <==> Fails(f, content)
    ensures r.Same? ==> !Moves(f, content) && Rewritten(f, content) == content
    ensures r.Changed? ==> Moves(f, content) && r.text == Rewritten(f, content)
  {
    ghost var ends, whole := Ends(content), Scan(f, content, Ends(content), 0);
    ScanMeetsSpecification(f, content);
    var out := "";
    var changed := false;
    var written := 0;
    var idx := 0;
    assert out + content[0..0] == "" && Prefixed("", false, false, whole) == whole;
    while idx < |content|
      invariant written <= idx <= |content|
      invariant !changed ==> out == "" && written == 0
      invariant whole == Prefixed(out + content[written..idx], changed, false, Scan(f, content, ends, idx))
      decreases |content| - idx
    {
      var start, end, next, ok := NextCandidate(content, idx);
      if !ok {
        KeepStep(f, content, ends, out, written, idx, next, changed);
        idx := next;
        continue;
      }
      var verdict := f(content[start..end]);
      if verdict.Failed? {
        return Error;
      }
      if verdict.Kept? {
        KeepStep(f, content, ends, out, written, idx, next, changed);
        idx := next;
        continue;
      }
      MoveStep(f, content, ends, out, written, idx, changed);
      changed := true;
      out := out + content[written..start];
      out := out + verdict.text;
      written := end;
      idx := next;
    }
    Finished(content, out, written, changed);
    if !changed {
      return Same;
    }
    return Changed(out + content[written..]);
  }

  /** A step that changes nothing only extends the stretch still to be copied. */
  lemma KeepStep(f: Rewriter, content: string, ends: seq<nat>, out: string,
                 written: nat, idx: nat, next: nat, changed: bool)
    requires ValidEnds(content, ends) && written <= idx < next <= |content|
    requires if ends[idx] == 0 then next == idx + 1 else next == ends[idx] && f(content[idx..next]).Kept?
    ensures Prefixed(out + content[written..idx], changed, false, Scan(f, content, ends, idx)) ==
            Prefixed(out + content[written..next], changed, false, Scan(f, content, ends, next))
  {
    var rest := Scan(f, content, ends, next);
    assert content[idx..next] == if ends[idx] == 0 then [content[idx]] else Apply(f, content[idx..next]);
    assert Scan(f, content, ends, idx) == Prefixed(content[idx..next], false, false, rest);
    CopyStretch(content, out, written, idx, next, rest.text);
  }

  lemma CopyStretch(content: string, out: string, written: nat, idx: nat, next: nat, rest: string)
    requires written <= idx <= next <= |content|
    ensures out + content[written..idx] + (content[idx..next] + rest) == out + content[written..next] + rest
  {
    assert content[written..next] == content[written..idx] + content[idx..next];
  }

  lemma MoveStep(f: Rewriter, content: string, ends: seq<nat>, out: string,
                 written: nat, idx: nat, changed: bool)
    requires ValidEnds(content, ends) && written <= idx < |content| && ends[idx] != 0
    requires f(content[idx..ends[idx]]).Moved?
    ensures var end := ends[idx];
            Prefixed(out + content[written..idx], changed, false, Scan(f, content, ends, idx)) ==
            Prefixed(out + content[written..idx] + f(content[idx..end]).text + content[end..end], true, false,
                     Scan(f, content, ends, end))
  {
    var end := ends[idx];
    var text := f(content[idx..end]).text;
    var rest := Scan(f, content, ends, end);
    assert Scan(f, content, ends, idx) == Prefixed(text, true, false, rest);
    assert content[end..end] == "";
    hide Scan, ValidEnds;
    PrefixedMove(out + content[written..idx], changed, text, rest);
  }

  lemma PrefixedMove(copied: string, changed: bool, text: string, rest: Scanned)
    ensures Prefixed(copied, changed, false, Prefixed(text, true, false, rest)) ==
            Prefixed(copied + text + "", true, false, rest)
  {
    assert copied + text + "" == copied + text;
    assert copied + (text + rest.text) == copied + text + rest.text;
  }

  lemma Finished(content: string, out: string, written: nat, changed: bool)
    requires written <= |content|
    ensures out + content[written..|content|] + "" == out + content[written..]
    ensures out == "" && written == 0 ==> out + content[written..] == content
  {
  }

  /** What the rest of a scan yields: its text, and whether any candidate moved or failed. */
  datatype Scanned = Scanned(text: string, moves: bool, fails: bool)

  function Prefixed(text: string, moves: bool, fails: bool, rest: Scanned): Scanned {
    Scanned(text + rest.text, moves || rest.moves, fails || rest.fails)
  }

  /** For each position, the end of the candidate that starts there, or 0. */
  predicate ValidEnds(content: string, ends: seq<nat>) {
    |ends| == |content| && forall i :: 0 <= i < |ends| ==> ends[i] == 0 || i < ends[i] <= |content|
  }

  function Ends(content: string): (ends: seq<nat>)
    ensures ValidEnds(content, ends)
    ensures forall i :: 0 <= i < |content| ==>
              ends[i] == if CandidateAt(content, i) then KindEnd(content, i + 1, true) else 0
  {
    seq(|content|, i requires 0 <= i < |content| =>
      if CandidateAt(content, i) then KindEnd(content, i + 1, true) else 0)
  }

  /** The scan from one position, without the lazy copying. */
  function Scan(f: Rewriter, content: string, ends: seq<nat>, idx: nat): Scanned
    requires idx <= |content| && ValidEnds(content, ends)
    decreases |content| - idx
  {
    if idx == |content| then Scanned("", false, false)
    else if ends[idx] != 0 then
      var c := content[idx..ends[idx]];
      Prefixed(Apply(f, c), f(c).Moved?, f(c).Failed?, Scan(f, content, ends, ends[idx]))
    else Prefixed([content[idx]], false, false, Scan(f, content, ends, idx + 1))
  }

  lemma ScanOne(f: Rewriter, content: string, ends: seq<nat>, a: nat)
    requires a < |content| && ValidEnds(content, ends) && ends[a] == 0
    ensures Scan(f, content, ends, a) == Prefixed([content[a]], false, false, Scan(f, content, ends, a + 1))
  {
    hide Prefixed;
  }

  lemma {:induction false} ScanCopies(f: Rewriter, content: string, ends: seq<nat>, a: nat, b: nat)
    requires a <= b <= |content| && ValidEnds(content, ends)
    requires forall i :: a <= i < b ==> ends[i] == 0
    ensures Scan(f, content, ends, a) == Prefixed(content[a..b], false, false, Scan(f, content, ends, b))
    decreases b - a
  {
    hide Scan, Prefixed;
    if a < b {
      ScanCopies(f, content, ends, a + 1, b);
      ScanOne(f, content, ends, a);
      assert content[a..b] == [content[a]] + content[a + 1..b];
      PrefixedTwice([content[a]], content[a + 1..b], false, false, Scan(f, content, ends, b));
    } else {
      assert content[a..b] == "";
      PrefixedNone(Scan(f, content, ends, b));
    }
  }

  lemma PrefixedNone(rest: Scanned)
    ensures Prefixed("", false, false, rest) == rest
  {
    assert "" + rest.text == rest.text;
  }

  lemma {:induction false} TrimLeftLast(s: string)
    requires s != "" && !IsBlank(s[|s| - 1])
    ensures TrimLeft(s) != "" && TrimLeft(s)[|TrimLeft(s)| - 1] == s[|s| - 1]
  {
    if IsBlank(s[0]) {
      TrimLeftLast(s[1..]);
    }
  }

  /** Text that ends in a path byte does not end in "EnvironmentFile=". */
  lemma PathByteIsNoEquals(text: string)
    requires text != "" && IsPathByte(text[|text| - 1])
    ensures !EnvironmentFileBefore(text)
  {
    var line := LastLine(text);
    assert line == LastLine(text[..|text| - 1]) + [text[|text| - 1]];
    TrimLeftLast(line);
    var trimmed := TrimLeft(line);
    assert TrimRight(line) == line;
    SuffixLast(trimmed, ENVIRONMENT_FILE);
    assert ENVIRONMENT_FILE[|ENVIRONMENT_FILE| - 1] == '=';
  }

  lemma SuffixLast(s: string, suffix: string)
    requires suffix != ""
    ensures HasSuffix(s, suffix) ==> s != "" && s[|s| - 1] == suffix[|suffix| - 1]
  {
    if HasSuffix(s, suffix) {
      assert s[|s| - |suffix|..][|suffix| - 1] == s[|s| - 1];
    }
  }

  /** Where the candidate of one run, if any, starts. */
  lemma CandidatesInRun(content: string, before: string, run: string, i: nat)
    requires WellFormedToken(Run(run))
    requires before == "" || !IsPathByte(before[|before| - 1])
    requires |before| + |run| <= |content| && content[..|before| + |run|] == before + run
    requires |before| <= i < |before| + |run|
    ensures CandidateAt(content, i) <==> i == |before| + CandidateStart(BEFORE_DASH, before, run)
  {
    var k := i - |before|;
    assert content[i] == (before + run)[i] == run[k];
    if i > 0 {
      assert content[i - 1] == (before + run)[i - 1];
    }
    if k >= 1 && content[i] == '/' {
      assert content[i - 1] == run[k - 1] && OfKind(true, run[k - 1]);
      assert content[..i - 1] == (before + run)[..i - 1];
      if k == 1 {
        assert content[..i - 1] == before;
      } else {
        assert content[..i - 1][i - 2] == run[k - 2] && OfKind(true, run[k - 2]);
        PathByteIsNoEquals(content[..i - 1]);
      }
    }
  }

  lemma GapHasNoCandidate(content: string, before: string, gap: string, i: nat)
    requires WellFormedToken(Gap(gap))
    requires |before| + |gap| <= |content| && content[..|before| + |gap|] == before + gap
    requires |before| <= i < |before| + |gap|
    ensures !CandidateAt(content, i)
  {
    assert content[i] == (before + gap)[i] == gap[i - |before|];
    assert OfKind(false, gap[i - |before|]);
  }

  /** The candidates of a token list that starts at position a, token by token. */
  function TokenEnds(g: Guard, before: string, ts: seq<Token>): (ends: seq<nat>)
    requires NonEmpty(ts)
    ensures |ends| == |Flatten(ts)|
    decreases |ts|
  {
    if ts == [] then []
    else HeadEnds(g, before, ts[0]) + TokenEnds(g, before + ts[0].text, ts[1..])
  }

  function HeadEnds(g: Guard, before: string, t: Token): (ends: seq<nat>)
    requires t.text != ""
    ensures |ends| == |t.text|
  {
    var k := if t.Run? then CandidateStart(g, before, t.text) else |t.text|;
    seq(|t.text|, i => if i == k then |before| + |t.text| else 0)
  }

  lemma WellFormedTail(ts: seq<Token>)
    requires ts != [] && WellFormed(ts)
    ensures WellFormed(ts[1..]) && (ts[1..] != [] ==> ts[1..][0].Run? != ts[0].Run?)
  {
    var tail := ts[1..];
    forall i | 0 < i < |tail| ensures tail[i].Run? != tail[i - 1].Run? {
      assert ts[i + 1].Run? != ts[i].Run?;
    }
    assert tail != [] ==> ts[1].Run? != ts[0].Run?;
  }

  lemma {:induction false} EndsAreTokenwise(content: string, before: string, ts: seq<Token>)
    requires WellFormed(ts) && content == before + Flatten(ts)
    requires before != "" && ts != [] ==> IsPathByte(before[|before| - 1]) != ts[0].Run?
    ensures Ends(content)[|before|..] == TokenEnds(BEFORE_DASH, before, ts)
    decreases |ts|
  {
    if ts != [] {
      var head, tail := ts[0], ts[1..];
      var next := before + head.text;
      assert content == next + Flatten(tail);
      assert content[..|next|] == next;
      WellFormedTail(ts);
      assert OfKind(head.Run?, head.text[|head.text| - 1]) && next[|next| - 1] == head.text[|head.text| - 1];
      EndsAreTokenwise(content, next, tail);
      HeadEndsRight(content, before, head, tail);
      SliceSplit(Ends(content), |before|, |next|);
    }
  }

  lemma SliceSplit(s: seq<nat>, a: nat, b: nat)
    requires a <= b <= |s|
    ensures s[a..] == s[a..b] + s[b..]
  {
  }

  lemma HeadEndsRight(content: string, before: string, head: Token, tail: seq<Token>)
    requires WellFormedToken(head) && WellFormed(tail) && (tail != [] ==> tail[0].Run? != head.Run?)
    requires content == before + head.text + Flatten(tail)
    requires before != "" ==> IsPathByte(before[|before| - 1]) != head.Run?
    ensures Ends(content)[|before|..|before| + |head.text|] == HeadEnds(BEFORE_DASH, before, head)
  {
    var a, b := |before|, |before| + |head.text|;
    assert content[..b] == before + head.text;
    forall i | a <= i < b ensures Ends(content)[i] == HeadEnds(BEFORE_DASH, before, head)[i - a] {
      if head.Run? {
        CandidatesInRun(content, before, head.text, i);
        if CandidateAt(content, i) {
          RunEnds(content, before, head.text, i - a, tail);
        }
      } else {
        GapHasNoCandidate(content, before, head.text, i);
      }
    }
  }

  lemma RunEnds(content: string, before: string, run: string, k: nat, tail: seq<Token>)
    requires WellFormedToken(Run(run)) && WellFormed(tail) && (tail != [] ==> tail[0].Gap?)
    requires content == before + run + Flatten(tail) && k < |run|
    ensures KindEnd(content, |before| + k + 1, true) == |before| + |run|
  {
    var a, b := |before|, |before| + |run|;
    forall i | a <= i < b ensures OfKind(true, content[i]) {
      assert content[i] == run[i - a];
    }
    if b < |content| {
      assert tail != [] && WellFormedToken(tail[0]) && OfKind(false, tail[0].text[0]);
      assert content[b] == Flatten(tail)[0] == tail[0].text[0];
    }
    KindEndIs(content, a + k + 1, true, b);
  }

  lemma SplitHead(g: Guard, content: string, ends: seq<nat>, before: string, ts: seq<Token>)
    requires NonEmpty(ts) && ts != [] && content == before + Flatten(ts) && |ends| == |content|
    requires ends[|before|..] == TokenEnds(g, before, ts)
    ensures var next := before + ts[0].text;
            && NonEmpty(ts[1..]) && content == next + Flatten(ts[1..])
            && ends[|next|..] == TokenEnds(g, next, ts[1..])
            && ends[|before|..|next|] == HeadEnds(g, before, ts[0])
            && content[|before|..|next|] == ts[0].text
  {
    hide HeadEnds;
    var head, tail := ts[0], ts[1..];
    var a, b := |before|, |before| + |head.text|;
    assert content == (before + head.text) + Flatten(tail);
    assert ends[b..] == ends[a..][|head.text|..];
    assert ends[a..b] == ends[a..][..|head.text|];
  }

  /** With these candidates the scan does what the specification says of each token. */
  lemma {:induction false} ScanIsTokenwise(f: Rewriter, g: Guard, content: string, ends: seq<nat>,
                                           before: string, ts: seq<Token>)
    requires NonEmpty(ts) && content == before + Flatten(ts) && ValidEnds(content, ends)
    requires ends[|before|..] == TokenEnds(g, before, ts)
    ensures Scan(f, content, ends, |before|) ==
            Scanned(Flatten(TokensAfter(f, g, before, ts)), AnyMoves(f, g, before, ts), AnyFails(f, g, before, ts))
    decreases |ts|
  {
    hide HeadEnds, TokenEnds, TokenAfter, RunMoves, RunFails;
    if ts == [] {
      assert content == before;
    } else {
      SplitHead(g, content, ends, before, ts);
      HeadScanned(f, g, content, ends, before, ts[0]);
      ScanIsTokenwise(f, g, content, ends, before + ts[0].text, ts[1..]);
      TokenwiseOnce(f, g, before, ts);
    }
  }

  lemma TokenwiseOnce(f: Rewriter, g: Guard, before: string, ts: seq<Token>)
    requires NonEmpty(ts) && ts != []
    ensures var next := before + ts[0].text;
            && NonEmpty(ts[1..])
            && Scanned(Flatten(TokensAfter(f, g, before, ts)), AnyMoves(f, g, before, ts),
                       AnyFails(f, g, before, ts)) ==
               Prefixed(TokenAfter(f, g, before, ts[0]).text,
                        ts[0].Run? && RunMoves(f, g, before, ts[0].text),
                        ts[0].Run? && RunFails(f, g, before, ts[0].text),
                        Scanned(Flatten(TokensAfter(f, g, next, ts[1..])), AnyMoves(f, g, next, ts[1..]),
                                AnyFails(f, g, next, ts[1..])))
  {
    hide TokenAfter, RunMoves, RunFails;
    var rest := TokensAfter(f, g, before + ts[0].text, ts[1..]);
    assert ([TokenAfter(f, g, before, ts[0])] + rest)[1..] == rest;
  }

  lemma HeadScanned(f: Rewriter, g: Guard, content: string, ends: seq<nat>, before: string, head: Token)
    requires head.text != "" && ValidEnds(content, ends) && |before| + |head.text| <= |content|
    requires content[|before|..|before| + |head.text|] == head.text
    requires ends[|before|..|before| + |head.text|] == HeadEnds(g, before, head)
    ensures Scan(f, content, ends, |before|) ==
            Prefixed(TokenAfter(f, g, before, head).text,
                     head.Run? && RunMoves(f, g, before, head.text),
                     head.Run? && RunFails(f, g, before, head.text),
                     Scan(f, content, ends, |before| + |head.text|))
  {
    var a, t := |before|, head.text;
    var k := if head.Run? then CandidateStart(g, before, t) else |t|;
    var m, b := a + k, a + |t|;
    TokenParts(f, g, before, head, k);
    HeadEndsAt(g, before, head, ends, k);
    hide CandidateStart, TokenAfter, RunMoves, RunFails, HeadEnds, Scan, Prefixed, Apply;
    SubSlices(content, a, m, b);
    TokenScanned(f, content, ends, a, m, b);
  }

  lemma HeadEndsAt(g: Guard, before: string, head: Token, ends: seq<nat>, k: nat)
    requires head.text != "" && |before| + |head.text| <= |ends|
    requires k == if head.Run? then CandidateStart(g, before, head.text) else |head.text|
    requires ends[|before|..|before| + |head.text|] == HeadEnds(g, before, head)
    ensures forall i :: |before| <= i < |before| + |head.text| ==>
              ends[i] == if i == |before| + k then |before| + |head.text| else 0
  {
    forall i | |before| <= i < |before| + |head.text|
      ensures ends[i] == if i == |before| + k then |before| + |head.text| else 0
    {
      assert ends[i] == ends[|before|..|before| + |head.text|][i - |before|];
    }
  }

  lemma TokenParts(f: Rewriter, g: Guard, before: string, head: Token, k: nat)
    requires head.text != ""
    requires k == if head.Run? then CandidateStart(g, before, head.text) else |head.text|
    ensures k <= |head.text|
    ensures TokenAfter(f, g, before, head).text ==
            if k == |head.text| then head.text else head.text[..k] + Apply(f, head.text[k..])
    ensures head.Run? && RunMoves(f, g, before, head.text) <==> k < |head.text| && f(head.text[k..]).Moved?
    ensures head.Run? && RunFails(f, g, before, head.text) <==> k < |head.text| && f(head.text[k..]).Failed?
  {
  }

  lemma SubSlices(s: string, a: nat, m: nat, b: nat)
    requires a <= m <= b <= |s|
    ensures s[a..b][..m - a] == s[a..m] && s[a..b][m - a..] == s[m..b]
  {
  }

  lemma TokenScanned(f: Rewriter, content: string, ends: seq<nat>, a: nat, m: nat, b: nat)
    requires ValidEnds(content, ends) && a <= m <= b <= |content|
    requires forall i :: a <= i < m ==> ends[i] == 0
    requires m < b ==> ends[m] == b
    ensures m == b ==> Scan(f, content, ends, a) == Prefixed(content[a..b], false, false, Scan(f, content, ends, b))
    ensures m < b ==>
              var c := content[m..b];
              Scan(f, content, ends, a) ==
                Prefixed(content[a..m] + Apply(f, c), f(c).Moved?, f(c).Failed?, Scan(f, content, ends, b))
  {
    ScanCopies(f, content, ends, a, m);
    if m < b {
      var c := content[m..b];
      PrefixedTwice(content[a..m], Apply(f, c), f(c).Moved?, f(c).Failed?, Scan(f, content, ends, b));
    }
  }

  lemma PrefixedTwice(x: string, y: string, moves: bool, fails: bool, rest: Scanned)
    ensures Prefixed(x, false, false, Prefixed(y, moves, fails, rest)) == Prefixed(x + y, moves, fails, rest)
  {
    assert x + (y + rest.text) == x + y + rest.text;
  }

  lemma ScanMeetsSpecification(f: Rewriter, content: string)
    ensures Scan(f, content, Ends(content), 0) ==
            Scanned(Rewritten(f, content), Moves(f, content), Fails(f, content))
  {
    var ts := Tokens(content);
    FlattenTokens(content);
    assert content == "" + Flatten(ts);
    EndsAreTokenwise(content, "", ts);
    ScanIsTokenwise(f, BEFORE_DASH, content, Ends(content), "", ts);
  }

  // ----- a second pass -----

  predicate PathText(s: string) {
    s != "" && s[0] == '/' && forall i :: 0 <= i < |s| ==> IsPathByte(s[i])
  }

  /** What a rewriter must do for its output to be read back as one candidate, and for that
      candidate to need no further move. */
  ghost predicate Settling(f: Rewriter) {
    forall v :: PathText(v) && f(v).Moved? ==> PathText(f(v).text) && !f(f(v).text).Moved?
  }

  lemma RunAfterIsRun(f: Rewriter, g: Guard, before: string, run: string)
    requires Settling(f) && WellFormedToken(Run(run))
    ensures WellFormedToken(Run(RunAfter(f, g, before, run)))
  {
    var k := CandidateStart(g, before, run);
    if k < |run| {
      CandidateIsPath(g, before, run);
      var text := Apply(f, run[k..]);
      assert PathText(text);
      forall i | 0 <= i < |run[..k] + text| ensures OfKind(true, (run[..k] + text)[i]) {
        if i < k {
          assert OfKind(true, run[i]);
        } else {
          assert IsPathByte(text[i - k]);
        }
      }
    }
  }

  lemma CandidateIsPath(g: Guard, before: string, run: string)
    requires WellFormedToken(Run(run)) && CandidateStart(g, before, run) < |run|
    ensures PathText(run[CandidateStart(g, before, run)..])
  {
    var k := CandidateStart(g, before, run);
    forall i | 0 <= i < |run| - k ensures IsPathByte(run[k..][i]) {
      assert OfKind(true, run[k + i]);
    }
  }

  lemma {:induction false} TokensAfterWellFormed(f: Rewriter, g: Guard, before: string, ts: seq<Token>)
    requires Settling(f) && WellFormed(ts)
    ensures WellFormed(TokensAfter(f, g, before, ts))
    ensures ts != [] ==> TokensAfter(f, g, before, ts)[0].Run? == ts[0].Run?
    decreases |ts|
  {
    if ts != [] {
      WellFormedTail(ts);
      var tail := TokensAfter(f, g, before + ts[0].text, ts[1..]);
      TokensAfterWellFormed(f, g, before + ts[0].text, ts[1..]);
      var head := TokenAfter(f, g, before, ts[0]);
      if ts[0].Run? {
        RunAfterIsRun(f, g, before, ts[0].text);
      }
      var all := [head] + tail;
      forall i | 0 < i < |all| ensures all[i].Run? != all[i - 1].Run? {
        if i == 1 {
          assert ts[1..] != [];
        } else {
          assert tail[i - 1].Run? != tail[i - 2].Run?;
        }
      }
    }
  }

  /** A run "-/..." that was no candidate on the first pass, but is one on the second,
      because what stands before it reads differently now. */
  predicate Exposed(f: Rewriter, g: Guard, before: string, after: string, run: string) {
    HidesPath(f, run) && !g(before) && g(after)
  }

  /** A dash before a path that would move. */
  predicate HidesPath(f: Rewriter, run: string) {
    |run| >= 2 && run[0] == '-' && run[1] == '/' && f(run[1..]).Moved?
  }

  predicate AnyExposed(f: Rewriter, g: Guard, before: string, after: string, ts: seq<Token>)
    requires NonEmpty(ts)
    decreases |ts|
  {
    ts != [] &&
    ((ts[0].Run? && Exposed(f, g, before, after, ts[0].text)) ||
     AnyExposed(f, g, before + ts[0].text, after + TokenAfter(f, g, before, ts[0]).text, ts[1..]))
  }

  lemma RunMovesAgain(f: Rewriter, g: Guard, before: string, after: string, run: string)
    requires Settling(f) && WellFormedToken(Run(run))
    ensures RunAfter(f, g, before, run) != ""
    ensures RunMoves(f, g, after, RunAfter(f, g, before, run)) <==> Exposed(f, g, before, after, run)
  {
    var k := CandidateStart(g, before, run);
    var again := RunAfter(f, g, before, run);
    if k < |run| {
      CandidateIsPath(g, before, run);
      var text := Apply(f, run[k..]);
      assert PathText(text) && !f(text).Moved?;
      assert again == run[..k] + text && again[k..] == text && again[k] == '/';
      if k == 1 {
        assert again[0] == '-';
      }
    }
  }

  lemma {:induction false} MovesAgain(f: Rewriter, g: Guard, before: string, after: string, ts: seq<Token>)
    requires Settling(f) && WellFormed(ts)
    ensures NonEmpty(TokensAfter(f, g, before, ts))
    ensures AnyMoves(f, g, after, TokensAfter(f, g, before, ts)) <==> AnyExposed(f, g, before, after, ts)
    decreases |ts|
  {
    TokensAfterWellFormed(f, g, before, ts);
    if ts != [] {
      WellFormedTail(ts);
      var head := TokenAfter(f, g, before, ts[0]);
      MovesAgain(f, g, before + ts[0].text, after + head.text, ts[1..]);
      assert TokensAfter(f, g, before, ts)[1..] == TokensAfter(f, g, before + ts[0].text, ts[1..]);
      if ts[0].Run? {
        RunMovesAgain(f, g, before, after, ts[0].text);
      }
    }
  }

  /** An equals sign, and then nothing but blanks on the same line. */
  predicate Assigns(gap: string) {
    gap != "" && gap[0] == '=' && forall i :: 1 <= i < |gap| ==> IsBlank(gap[i]) && gap[i] != '\n'
  }

  /** The dash at token i hides a path, an assignment stands before it, and the run that is
      assigned to is not the directive yet, but is rewritten to end in it. */
  predicate DashExposed(f: Rewriter, ts: seq<Token>, i: nat)
    requires NonEmpty(ts)
  {
    && 2 <= i < |ts| && ts[i].Run? && HidesPath(f, ts[i].text)
    && ts[i - 1].Gap? && Assigns(ts[i - 1].text)
    && ts[i - 2].Run? && !HasSuffix(ts[i - 2].text, DIRECTIVE)
    && HasSuffix(RunAfter(f, BEFORE_DASH, Flatten(ts[..i - 2]), ts[i - 2].text), DIRECTIVE)
  }

  /** The first pass writes the directive in front of a dash that hides a path. */
  predicate Exposes(f: Rewriter, content: string) {
    exists i :: 0 <= i < |Tokens(content)| && DashExposed(f, Tokens(content), i)
  }

  // ----- what the guard looks at -----

  lemma {:induction false} TrimRightIs(s: string)
    ensures TrimRight(s) <= s
    ensures TrimRight(s) != "" ==> !IsBlank(TrimRight(s)[|TrimRight(s)| - 1])
    ensures forall i :: |TrimRight(s)| <= i < |s| ==> IsBlank(s[i])
  {
    if s != "" && IsBlank(s[|s| - 1]) {
      TrimRightIs(s[..|s| - 1]);
    }
  }

  lemma {:induction false} TrimRightBlanks(s: string, blanks: string)
    requires forall c :: c in blanks ==> IsBlank(c)
    ensures TrimRight(s + blanks) == TrimRight(s)
    decreases |blanks|
  {
    if blanks == "" {
      assert s + blanks == s;
    } else {
      var all, last := s + blanks, blanks[|blanks| - 1];
      assert all[..|all| - 1] == s + blanks[..|blanks| - 1] && all[|all| - 1] == last && last in blanks;
      assert forall c :: c in blanks[..|blanks| - 1] ==> c in blanks;
      TrimRightBlanks(s, blanks[..|blanks| - 1]);
    }
  }

  lemma {:induction false} TrimLeftSuffix(s: string, suffix: string)
    requires suffix != "" && forall c :: c in suffix ==> !IsBlank(c)
    ensures HasSuffix(TrimLeft(s), suffix) <==> HasSuffix(s, suffix)
    ensures forall c :: c in TrimLeft(s) ==> c in s
  {
    if s != "" && IsBlank(s[0]) {
      SuffixHas(s, suffix, 0);
      assert suffix[0] in suffix;
      TrimLeftSuffix(s[1..], suffix);
      assert forall c :: c in s[1..] ==> c in s;
      if |suffix| < |s| {
        assert s[1..][|s| - 1 - |suffix|..] == s[|s| - |suffix|..];
      }
    }
  }

  lemma {:induction false} LastLineAppend(s: string, t: string)
    ensures '\n' !in t ==> LastLine(s + t) == LastLine(s) + t
    ensures '\n' in t ==> LastLine(s + t) == LastLine(t)
    decreases |t|
  {
    if t == "" {
      assert s + t == s;
    } else {
      var all, shorter, last := s + t, t[..|t| - 1], t[|t| - 1];
      assert all[..|all| - 1] == s + shorter && all[|all| - 1] == last && t == shorter + [last];
      assert '\n' in t <==> '\n' in shorter || last == '\n';
      LastLineAppend(s, shorter);
      if last != '\n' {
        assert LastLine(all) == LastLine(s + shorter) + [last];
      }
    }
  }

  lemma {:induction false} LastLineIs(s: string)
    ensures HasSuffix(s, LastLine(s))
    ensures forall c :: c in LastLine(s) ==> c in s
  {
    if s != "" && s[|s| - 1] != '\n' {
      var shorter := s[..|s| - 1];
      LastLineIs(shorter);
      var line := LastLine(shorter);
      assert s == shorter + [s[|s| - 1]];
      assert s[|s| - |line| - 1..] == shorter[|shorter| - |line|..] + [s[|s| - 1]];
    }
  }

  lemma DirectiveBytes()
    ensures forall i :: 0 <= i < |DIRECTIVE| ==> IsPathByte(DIRECTIVE[i]) && !IsBlank(DIRECTIVE[i])
    ensures forall c :: c in ENVIRONMENT_FILE ==> !IsBlank(c)
    ensures |ENVIRONMENT_FILE| == |DIRECTIVE| + 1 && ENVIRONMENT_FILE[|DIRECTIVE|] == '='
  {
    forall c | c in ENVIRONMENT_FILE ensures !IsBlank(c) {
      assert c in DIRECTIVE || c == '=';
    }
  }

  /** A suffix of path bytes does not reach beyond the run it ends in. */
  lemma SuffixInRun(before: string, run: string)
    requires before == "" || !IsPathByte(before[|before| - 1])
    ensures HasSuffix(before + run, DIRECTIVE) <==> HasSuffix(run, DIRECTIVE)
  {
    DirectiveBytes();
    var all := before + run;
    if |run| >= |DIRECTIVE| {
      assert all[|all| - |DIRECTIVE|..] == run[|run| - |DIRECTIVE|..];
    } else {
      SuffixHas(all, DIRECTIVE, |DIRECTIVE| - |run| - 1);
    }
  }

  lemma SuffixPlus(s: string)
    ensures HasSuffix(s + "=", ENVIRONMENT_FILE) <==> HasSuffix(s, DIRECTIVE)
  {
    if |s| >= |DIRECTIVE| {
      assert (s + "=")[|s| - |DIRECTIVE|..] == s[|s| - |DIRECTIVE|..] + "=";
      assert s[|s| - |DIRECTIVE|..] == (s[|s| - |DIRECTIVE|..] + "=")[..|DIRECTIVE|];
      assert DIRECTIVE == ENVIRONMENT_FILE[..|DIRECTIVE|];
    }
  }

  /** Before a dash stands a gap, and before that a run: the guard asks for the directive at
      the end of the run and a mere assignment in the gap. */
  lemma GuardIff(before: string, run: string, gap: string)
    requires WellFormedToken(Run(run)) && WellFormedToken(Gap(gap))
    requires before == "" || !IsPathByte(before[|before| - 1])
    ensures EnvironmentFileBefore(before + run + gap) <==> Assigns(gap) && HasSuffix(run, DIRECTIVE)
  {
    LastLineAppend(before + run, gap);
    if '\n' in gap {
      GuardOfGap(gap);
    } else {
      assert '\n' !in run by {
        assert forall i :: 0 <= i < |run| ==> OfKind(true, run[i]);
      }
      LastLineAppend(before, run);
      LastLineIs(before);
      var line := LastLine(before);
      if line != "" {
        assert line[|line| - 1] == before[|before| - 1];
      }
      GuardOnLine(line, run, gap);
    }
  }

  lemma GuardOfGap(gap: string)
    requires WellFormedToken(Gap(gap)) && '\n' in gap
    ensures !HasSuffix(TrimLeft(TrimRight(LastLine(gap))), ENVIRONMENT_FILE) && !Assigns(gap)
  {
    GapBytes(gap);
    LastLineIs(gap);
    hide TrimLeft, TrimRight, LastLine;
    DirectiveBytes();
    TrimRightIs(LastLine(gap));
    TrimLeftSuffix(TrimRight(LastLine(gap)), ENVIRONMENT_FILE);
    var text := TrimLeft(TrimRight(LastLine(gap)));
    assert forall c :: c in text ==> c in TrimRight(LastLine(gap)) && c in LastLine(gap);
    NoDirective(text);
    assert exists i :: 0 <= i < |gap| && gap[i] == '\n';
  }

  lemma GapBytes(gap: string)
    requires WellFormedToken(Gap(gap))
    ensures forall c :: c in gap ==> !IsPathByte(c)
  {
    forall c | c in gap ensures !IsPathByte(c) {
      var i :| 0 <= i < |gap| && gap[i] == c;
      assert OfKind(false, gap[i]);
    }
  }

  lemma NoDirective(text: string)
    requires forall c :: c in text ==> !IsPathByte(c)
    ensures !HasSuffix(text, ENVIRONMENT_FILE)
  {
    SuffixHas(text, ENVIRONMENT_FILE, 0);
    assert ENVIRONMENT_FILE[0] == 'E' && IsPathByte('E');
  }

  lemma GuardOnLine(line: string, run: string, gap: string)
    requires WellFormedToken(Run(run)) && WellFormedToken(Gap(gap)) && '\n' !in gap
    requires line == "" || !IsPathByte(line[|line| - 1])
    ensures HasSuffix(TrimLeft(TrimRight(line + run + gap)), ENVIRONMENT_FILE) <==>
            Assigns(gap) && HasSuffix(run, DIRECTIVE)
  {
    hide TrimLeft, TrimRight, HasSuffix, Assigns;
    DirectiveBytes();
    TrimRightIs(gap);
    var core := TrimRight(gap);
    var blanks, text := gap[|core|..], line + run + core;
    assert line + run + gap == text + blanks;
    forall c | c in blanks ensures IsBlank(c) {
      var i :| 0 <= i < |blanks| && blanks[i] == c;
      assert gap[|core| + i] == c;
    }
    TrimRightBlanks(text, blanks);
    NothingToTrim(line, run, core);
    TrimLeftSuffix(text, ENVIRONMENT_FILE);
    CoreIff(line, run, gap, core);
  }

  lemma NothingToTrim(line: string, run: string, core: string)
    requires WellFormedToken(Run(run)) && (core != "" ==> !IsBlank(core[|core| - 1]))
    ensures TrimRight(line + run + core) == line + run + core
  {
    assert OfKind(true, run[|run| - 1]);
    var text := line + run + core;
    assert text[|text| - 1] == if core == "" then run[|run| - 1] else core[|core| - 1];
  }

  /** Without the blanks behind it, the gap is one equals sign, or no assignment. */
  lemma CoreIff(line: string, run: string, gap: string, core: string)
    requires WellFormedToken(Run(run)) && WellFormedToken(Gap(gap)) && '\n' !in gap
    requires line == "" || !IsPathByte(line[|line| - 1])
    requires core <= gap && (core != "" ==> !IsBlank(core[|core| - 1]))
    requires forall i :: |core| <= i < |gap| ==> IsBlank(gap[i])
    ensures HasSuffix(line + run + core, ENVIRONMENT_FILE) <==> Assigns(gap) && HasSuffix(run, DIRECTIVE)
  {
    hide HasSuffix;
    DirectiveBytes();
    var text := line + run + core;
    SuffixHas(text, ENVIRONMENT_FILE, |DIRECTIVE|);
    if core == "" {
      assert OfKind(true, run[|run| - 1]) && text[|text| - 1] == run[|run| - 1];
    } else if core == "=" {
      SuffixPlus(line + run);
      SuffixInRun(line, run);
    } else {
      assert text[|text| - 1] == core[|core| - 1];
      if |core| > 1 {
        assert core[|core| - 2] == gap[|core| - 2] && OfKind(false, gap[|core| - 2]);
        SuffixHas(text, ENVIRONMENT_FILE, |DIRECTIVE| - 1);
        assert ENVIRONMENT_FILE[|DIRECTIVE| - 1] == 'e' && text[|text| - 2] == core[|core| - 2];
      }
    }
  }

  lemma SuffixHas(s: string, suffix: string, j: nat)
    requires j < |suffix|
    ensures HasSuffix(s, suffix) ==>
              |suffix| <= |s| && s[|s| - |suffix| + j] == suffix[j] && suffix[j] in s
  {
    if HasSuffix(s, suffix) {
      assert s[|s| - |suffix|..][j] == s[|s| - |suffix| + j];
    }
  }

  // ----- exposure, read off the tokens -----

  lemma {:induction false} TokensAfterAppend(f: Rewriter, g: Guard, before: string, a: seq<Token>, b: seq<Token>)
    requires NonEmpty(a + b) && NonEmpty(a) && NonEmpty(b)
    ensures TokensAfter(f, g, before, a + b) == TokensAfter(f, g, before, a) + TokensAfter(f, g, before + Flatten(a), b)
    decreases |a|
  {
    if a == [] {
      assert a + b == b && before + "" == before;
    } else {
      assert (a + b)[1..] == a[1..] + b;
      assert before + a[0].text + Flatten(a[1..]) == before + Flatten(a);
      TokensAfterAppend(f, g, before + a[0].text, a[1..], b);
    }
  }

  lemma WellFormedPrefix(ts: seq<Token>, k: nat)
    requires WellFormed(ts) && k <= |ts|
    ensures WellFormed(ts[..k]) && NonEmpty(ts[..k]) && NonEmpty(ts[k..])
    ensures k > 0 ==> Flatten(ts[..k]) == Flatten(ts[..k - 1]) + ts[k - 1].text
    ensures k > 0 ==> Flatten(ts[..k]) != "" && IsPathByte(Flatten(ts[..k])[|Flatten(ts[..k])| - 1]) == ts[k - 1].Run?
  {
    if k > 0 {
      var t := ts[k - 1];
      assert ts[..k] == ts[..k - 1] + [t] && Flatten([t]) == t.text + "" == t.text;
      FlattenAppend(ts[..k - 1], [t]);
      assert WellFormedToken(t) && OfKind(t.Run?, t.text[|t.text| - 1]);
    }
  }

  lemma TwoAfter(f: Rewriter, g: Guard, before: string, run: Token, gap: Token)
    requires run.Run? && gap.Gap? && run.text != "" && gap.text != ""
    ensures var later := Run(RunAfter(f, g, before, run.text));
            TokensAfter(f, g, before, [run, gap]) == [later, gap] && Flatten([later, gap]) == later.text + gap.text
  {
    var later := Run(RunAfter(f, g, before, run.text));
    assert [run, gap][1..] == [gap] && [gap][1..] == [] && [later, gap][1..] == [gap];
    assert TokensAfter(f, g, before + run.text, [gap]) == [gap];
    assert Flatten([gap]) == gap.text + "" == gap.text;
  }

  /** One more run and gap after the first pass. */
  lemma TwoMore(f: Rewriter, g: Guard, rest: seq<Token>, run: Token, gap: Token)
    requires run.Run? && gap.Gap? && run.text != "" && gap.text != "" && NonEmpty(rest)
    ensures NonEmpty(rest + [run, gap])
    ensures Flatten(TokensAfter(f, g, "", rest + [run, gap])) ==
            Flatten(TokensAfter(f, g, "", rest)) + RunAfter(f, g, Flatten(rest), run.text) + gap.text
  {
    hide TokensAfter, Flatten, RunAfter;
    TokensAfterAppend(f, g, "", rest, [run, gap]);
    assert "" + Flatten(rest) == Flatten(rest);
    TwoAfter(f, g, Flatten(rest), run, gap);
    var later := Run(RunAfter(f, g, Flatten(rest), run.text));
    var done := TokensAfter(f, g, "", rest);
    FlattenAppend(done, [later, gap]);
    assert Flatten(done) + (later.text + gap.text) == Flatten(done) + later.text + gap.text;
  }

  lemma NotAfterRun(f: Rewriter, ts: seq<Token>)
    requires Settling(f) && WellFormed(ts) && (ts != [] ==> ts[|ts| - 1].Gap?)
    ensures NonEmpty(ts)
    ensures var before := Flatten(TokensAfter(f, BEFORE_DASH, "", ts));
            before == "" || !IsPathByte(before[|before| - 1])
  {
    WellFormedPrefix(ts, |ts|);
    assert ts[..|ts|] == ts;
    var done := TokensAfter(f, BEFORE_DASH, "", ts);
    TokensAfterWellFormed(f, BEFORE_DASH, "", ts);
    TokensAfterKinds(f, BEFORE_DASH, "", ts);
    WellFormedPrefix(done, |done|);
    assert done[..|done|] == done;
  }

  /** The text before token k after the first pass, split at its last run and gap. */
  lemma AfterSplit(f: Rewriter, ts: seq<Token>, k: nat)
    requires Settling(f) && WellFormed(ts) && 2 <= k <= |ts| && ts[k - 2].Run? && ts[k - 1].Gap?
    ensures NonEmpty(ts[..k]) && NonEmpty(ts[..k - 2]) && ts[k - 2].text != ""
    ensures var run := RunAfter(f, BEFORE_DASH, Flatten(ts[..k - 2]), ts[k - 2].text);
            var before := Flatten(TokensAfter(f, BEFORE_DASH, "", ts[..k - 2]));
            && WellFormedToken(Run(run))
            && Flatten(TokensAfter(f, BEFORE_DASH, "", ts[..k])) == before + run + ts[k - 1].text
            && (before == "" || !IsPathByte(before[|before| - 1]))
  {
    var rest, run, gap := ts[..k - 2], ts[k - 2], ts[k - 1];
    NonEmptyParts(ts, k);
    NonEmptyParts(ts, k - 2);
    WellFormedPrefix(ts, k - 2);
    assert WellFormedToken(run) && WellFormedToken(gap);
    if rest != [] {
      assert ts[k - 2].Run? != ts[k - 3].Run?;
    }
    hide TokensAfter, Flatten, RunAfter, WellFormed;
    assert ts[..k] == rest + [run, gap];
    TwoMore(f, BEFORE_DASH, rest, run, gap);
    RunAfterIsRun(f, BEFORE_DASH, Flatten(rest), run.text);
    NotAfterRun(f, rest);
  }

  lemma {:induction false} TokensAfterKinds(f: Rewriter, g: Guard, before: string, ts: seq<Token>)
    requires NonEmpty(ts)
    ensures var r := TokensAfter(f, g, before, ts); |r| == |ts| && forall i :: 0 <= i < |ts| ==> r[i].Run? == ts[i].Run?
    decreases |ts|
  {
    if ts != [] {
      TokensAfterKinds(f, g, before + ts[0].text, ts[1..]);
    }
  }

  /** The run at token k is exposed exactly when the tokens before it say so. */
  lemma ExposedIff(f: Rewriter, ts: seq<Token>, k: nat)
    requires Settling(f) && WellFormed(ts) && k < |ts| && ts[k].Run? && NonEmpty(ts) && NonEmpty(ts[..k])
    ensures Exposed(f, BEFORE_DASH, Flatten(ts[..k]), Flatten(TokensAfter(f, BEFORE_DASH, "", ts[..k])),
                    ts[k].text) <==>
            DashExposed(f, ts, k)
  {
    if k >= 2 {
      assert ts[k - 1].Run? != ts[k].Run? && ts[k - 2].Run? != ts[k - 1].Run?;
      var run, gap := ts[k - 2].text, ts[k - 1].text;
      WellFormedPrefix(ts, k);
      WellFormedPrefix(ts, k - 1);
      WellFormedPrefix(ts, k - 2);
      assert ts[..k][..k - 1] == ts[..k - 1];
      if k > 2 {
        assert ts[k - 3].Run? != ts[k - 2].Run?;
      }
      assert Flatten(ts[..k]) == Flatten(ts[..k - 2]) + run + gap;
      GuardIff(Flatten(ts[..k - 2]), run, gap);
      AfterSplit(f, ts, k);
      GuardIff(Flatten(TokensAfter(f, BEFORE_DASH, "", ts[..k - 2])),
               RunAfter(f, BEFORE_DASH, Flatten(ts[..k - 2]), run), gap);
    } else if k == 1 {
      assert ts[0].Run? != ts[1].Run?;
      assert ts[..1] == [ts[0]] && TokensAfter(f, BEFORE_DASH, "", [ts[0]]) == [ts[0]];
    } else {
      assert ts[..0] == [];
    }
  }

  lemma NonEmptyParts(ts: seq<Token>, k: nat)
    requires WellFormed(ts) && k <= |ts|
    ensures NonEmpty(ts) && NonEmpty(ts[..k]) && NonEmpty(ts[k..])
  {
    forall i | 0 <= i < |ts| ensures ts[i].text != "" {
      assert WellFormedToken(ts[i]);
    }
  }

  lemma {:induction false} AnyExposedIff(f: Rewriter, ts: seq<Token>, k: nat)
    requires Settling(f) && WellFormed(ts) && k <= |ts|
    ensures NonEmpty(ts) && NonEmpty(ts[..k]) && NonEmpty(ts[k..])
    ensures AnyExposed(f, BEFORE_DASH, Flatten(ts[..k]), Flatten(TokensAfter(f, BEFORE_DASH, "", ts[..k])),
                       ts[k..]) <==>
            exists i :: k <= i < |ts| && DashExposed(f, ts, i)
    decreases |ts| - k
  {
    NonEmptyParts(ts, k);
    if k < |ts| {
      AnyExposedIff(f, ts, k + 1);
      ExposedNext(f, ts, k);
      hide DashExposed, Exposed, TokensAfter, Flatten, Settling, WellFormed, NonEmpty;
      if ts[k].Run? {
        ExposedIff(f, ts, k);
      } else {
        NoDashInGap(f, ts, k);
      }
    }
  }

  lemma NoDashInGap(f: Rewriter, ts: seq<Token>, k: nat)
    requires NonEmpty(ts) && k < |ts| && ts[k].Gap?
    ensures !DashExposed(f, ts, k)
  {
  }

  lemma ExposedNext(f: Rewriter, ts: seq<Token>, k: nat)
    requires WellFormed(ts) && k < |ts| && NonEmpty(ts[..k]) && NonEmpty(ts[..k + 1]) && NonEmpty(ts[k..])
    ensures ts[k..][1..] == ts[k + 1..] && ts[k..][0] == ts[k]
    ensures Flatten(ts[..k + 1]) == Flatten(ts[..k]) + ts[k].text
    ensures Flatten(TokensAfter(f, BEFORE_DASH, "", ts[..k + 1])) ==
            Flatten(TokensAfter(f, BEFORE_DASH, "", ts[..k])) + TokenAfter(f, BEFORE_DASH, Flatten(ts[..k]), ts[k]).text
  {
    var g, t := BEFORE_DASH, ts[k];
    assert ts[..k + 1] == ts[..k] + [t] && Flatten([t]) == t.text + "" == t.text;
    FlattenAppend(ts[..k], [t]);
    TokensAfterAppend(f, g, "", ts[..k], [t]);
    assert "" + Flatten(ts[..k]) == Flatten(ts[..k]);
    var later := TokenAfter(f, g, Flatten(ts[..k]), t);
    assert [t][1..] == [];
    assert TokensAfter(f, g, Flatten(ts[..k]), [t]) == [later];
    FlattenAppend(TokensAfter(f, g, "", ts[..k]), [later]);
    assert Flatten([later]) == later.text + "" == later.text;
  }

  /** Exactly when one pass is enough: a second pass moves something if and only if the
      first one exposes a path behind a dash. The condition is about the text given. */
  lemma SecondPassMovesIffExposed(f: Rewriter, content: string)
    requires Settling(f)
    ensures Moves(f, Rewritten(f, content)) <==> Exposes(f, content)
  {
    var ts := Tokens(content);
    TokensAfterWellFormed(f, BEFORE_DASH, "", ts);
    TokensFlatten(TokensAfter(f, BEFORE_DASH, "", ts));
    MovesAgain(f, BEFORE_DASH, "", "", ts);
    AnyExposedIff(f, ts, 0);
    assert ts[..0] == [] && ts[0..] == ts;
  }

  // ----- the mappings as a settling rewriter -----

  predicate PathBytes(s: string) {
    forall i :: 0 <= i < |s| ==> IsPathByte(s[i])
  }

  /** Every moving mapping leads to an absolute root written in path bytes. */
  predicate PathByteTargets(ms: seq<Mapping>) {
    forall m :: m in ms && !m.Identity() ==> m.Target().abs && forall c :: c in m.Target().parts ==> PathBytes(c)
  }

  lemma {:induction false} SplitPathBytes(s: string)
    requires PathBytes(s)
    ensures forall c :: c in Split(s) ==> PathBytes(c)
  {
    if s != "" {
      assert PathBytes(s[1..]);
      SplitPathBytes(s[1..]);
      var rest := Split(s[1..]);
      assert rest[0] in rest;
      assert forall c :: c in rest[1..] ==> c in rest;
    }
  }

  lemma {:induction false} ResolvePathBytes(abs: bool, acc: seq<string>, raw: seq<string>)
    requires Clean(abs, acc) && forall c :: c in raw ==> '/' !in c && PathBytes(c)
    requires forall c :: c in acc ==> PathBytes(c)
    ensures forall c :: c in Resolve(abs, acc, raw) ==> PathBytes(c)
    decreases |raw|
  {
    if raw != [] {
      assert raw[0] in raw && forall c :: c in raw[1..] ==> c in raw;
      var next := Push(abs, acc, raw[0]);
      assert forall c :: c in next ==> c in acc || c == raw[0];
      ResolvePathBytes(abs, next, raw[1..]);
    }
  }

  lemma {:induction false} JoinPathBytes(parts: seq<string>)
    requires forall c :: c in parts ==> PathBytes(c)
    ensures PathBytes(JoinSlash(parts))
  {
    if parts != [] {
      assert parts[0] in parts;
      if |parts| > 1 {
        assert forall c :: c in parts[1..] ==> c in parts;
        JoinPathBytes(parts[1..]);
      }
    }
  }

  lemma RenderIsPathText(p: Path)
    requires p.abs && forall c :: c in p.parts ==> PathBytes(c)
    ensures PathText(Render(p))
  {
    JoinPathBytes(p.parts);
  }

  lemma {:induction false} MovedTextIsRendered(order: seq<Mapping>, v: string)
    ensures RewriteInOrder(order, v).Moved? ==>
              exists p :: Cleaned(p) && RewriteInOrder(order, v).text == Render(p)
  {
    if IsAbs(v) && order != [] {
      var m := order[0];
      match Relocate(v, m.from, m.to)
      case BadRoot =>
      case Outside =>
        MovedTextIsRendered(order[1..], v);
      case Relocated(text) =>
        GraftCleaned(Parse(v), m.Root(), m.Target());
        assert text == Render(Graft(Parse(v), m.Root(), m.Target()));
    }
  }

  lemma MovedTextIsPathText(ms: seq<Mapping>, v: string)
    requires PathByteTargets(ms) && PathText(v) && Rewrite(ms, v).Moved?
    ensures PathText(Rewrite(ms, v).text)
  {
    var order := Sorted(ms);
    SameMembers(ms, order);
    RewriteByHit(order, v);
    var m := FirstHit(order, Parse(v)).m;
    MovedTextIsRendered(order, v);
    var p :| Cleaned(p) && Rewrite(ms, v).text == Render(p);
    ParseRender(p);
    SplitPathBytes(v);
    ResolvePathBytes(true, [], Split(v));
    var rest := Parse(v).parts[|m.Root().parts|..];
    assert forall c :: c in rest ==> c in Parse(v).parts;
    RenderIsPathText(p);
  }

  lemma MappingsSettle(ms: seq<Mapping>)
    requires Settled(ms) && PathByteTargets(ms)
    ensures Honest(By(ms)) && Settling(By(ms))
  {
    ByIsHonest(ms);
    forall v | PathText(v) && By(ms)(v).Moved?
      ensures PathText(By(ms)(v).text) && !By(ms)(By(ms)(v).text).Moved?
    {
      MovedTextIsPathText(ms, v);
      RewriteIdempotent(ms, v);
    }
  }

  /** For settled mappings with path-byte targets, rewriting a file twice is rewriting it
      once, except when the first pass exposes a path behind a dash. */
  lemma TextRewriteIdempotentIffNothingExposed(ms: seq<Mapping>, content: string)
    requires Settled(ms) && PathByteTargets(ms)
    ensures Moves(By(ms), Rewritten(By(ms), content)) <==> Exposes(By(ms), content)
  {
    MappingsSettle(ms);
    SecondPassMovesIffExposed(By(ms), content);
  }

  // ----- a file on which one pass is not enough -----

  lemma {:induction false} LastLineOfLine(s: string)
    requires '\n' !in s
    ensures LastLine(s) == s
  {
    if s != "" {
      assert s == s[..|s| - 1] + [s[|s| - 1]];
      assert s[|s| - 1] in s && forall c :: c in s[..|s| - 1] ==> c in s;
      LastLineOfLine(s[..|s| - 1]);
    }
  }

  lemma GuardOfLine(s: string)
    requires s != "" && '\n' !in s && !IsBlank(s[0]) && !IsBlank(s[|s| - 1])
    ensures EnvironmentFileBefore(s) <==> HasSuffix(s, ENVIRONMENT_FILE)
  {
    LastLineOfLine(s);
  }

  lemma ExposedBy(f: Rewriter, g: Guard, a: string, moved: string, dash: string)
    requires PathText(a) && f(a) == Moved(moved) && dash == "-" + a
    requires !g(a + "=")
    ensures TokensAfter(f, g, "", [Run(a), Gap("="), Run(dash)]) == [Run(moved), Gap("="), Run(dash)]
    ensures RunAfter(f, g, "", a) == moved && HidesPath(f, dash)
  {
    var ts := [Run(a), Gap("="), Run(dash)];
    assert "" + a == a && "" + moved == moved && a[0..] == a && a[..0] == "" && dash[1..] == a;
    assert ts[1..] == [Gap("="), Run(dash)] && ts[1..][1..] == [Run(dash)] && [Run(dash)][1..] == [];
    assert TokenAfter(f, g, "", Run(a)) == Run(moved);
    assert TokenAfter(f, g, a + "=", Run(dash)) == Run(dash);
    assert TokensAfter(f, g, a + "=", [Run(dash)]) == [Run(dash)];
    assert TokensAfter(f, g, a, ts[1..]) == ts[1..];
  }

  lemma FlattenThree(x: Token, y: Token, z: Token)
    ensures Flatten([x, y, z]) == x.text + (y.text + z.text)
  {
    assert [x, y, z][1..] == [y, z] && [y, z][1..] == [z] && [z][1..] == [];
    assert Flatten([z]) == z.text + "" == z.text;
    assert Flatten([y, z]) == y.text + Flatten([z]);
  }

  lemma DirectiveEnds()
    ensures EnvironmentFileBefore("/" + DIRECTIVE + "=") && !EnvironmentFileBefore("/a=")
  {
    var s := "/" + ENVIRONMENT_FILE;
    assert "/" + DIRECTIVE + "=" == s;
    assert s[|s| - |ENVIRONMENT_FILE|..] == ENVIRONMENT_FILE;
    assert '\n' !in ENVIRONMENT_FILE;
    assert s[|s| - 1] == '=' && s[0] == '/';
    GuardOfLine(s);
    GuardOfLine("/a=");
  }

  lemma ExampleTokens(moved: string, t: string)
    requires t == "/a=-/a"
    ensures Tokens(t) == [Run("/a"), Gap("="), Run("-/a")]
    ensures Flatten([Run(moved), Gap("="), Run("-/a")]) == moved + "=-/a"
  {
    var x, y, z := Run("/a"), Gap("="), Run("-/a");
    assert WellFormed([x, y, z]);
    FlattenThree(x, y, z);
    FlattenThree(Run(moved), y, z);
    assert "=" + "-/a" == "=-/a" && "/a" + "=-/a" == t;
    TokensFlatten([x, y, z]);
  }

  /** Moving /a to /EnvironmentFile in the line "/a=-/a" gives "/EnvironmentFile=-/a": now
      the dash follows "EnvironmentFile=", and a second pass moves the second path too. */
  lemma ExposedExample(f: Rewriter)
    requires f("/a") == Moved("/" + DIRECTIVE)
    ensures Rewritten(f, "/a=-/a") == "/" + DIRECTIVE + "=-/a"
    ensures Exposes(f, "/a=-/a")
  {
    DirectiveEnds();
    assert "/a" + "=" == "/a=" && "-" + "/a" == "-/a";
    ExposedBy(f, BEFORE_DASH, "/a", "/" + DIRECTIVE, "-/a");
    ExampleTokens("/" + DIRECTIVE, "/a=-/a");
    hide EnvironmentFileBefore, Tokens, TokensAfter;
    ExampleExposed(f, [Run("/a"), Gap("="), Run("-/a")]);
  }

  lemma ExampleExposed(f: Rewriter, ts: seq<Token>)
    requires ts == [Run("/a"), Gap("="), Run("-/a")]
    requires RunAfter(f, BEFORE_DASH, "", "/a") == "/" + DIRECTIVE && HidesPath(f, "-/a")
    ensures NonEmpty(ts) && DashExposed(f, ts, 2)
  {
    hide RunAfter, HidesPath;
    assert ts[..0] == [];
    assert ("/" + DIRECTIVE)[1..] == DIRECTIVE;
  }

  lemma SingleMove(m: Mapping, a: string, b: string)
    requires IsName(a) && IsName(b) && a != b
    requires m == Mapping("/" + a, "/" + b, DataDir, "")
    ensures NonNested([m]) && By([m])("/" + a) == Moved("/" + b)
    ensures !m.Identity() && m.Target() == Path(true, [b])
  {
    ParseNames([a], "/" + a);
    ParseNames([b], "/" + b);
    assert Sorted([m]) == [m];
    assert Graft(Parse(m.from), m.Root(), m.Target()) == m.Target() by {
      assert [a][1..] == [];
      assert [b] + [] == [b];
    }
    assert Render(m.Target()) == "/" + b && Render(m.Root()) == "/" + a;
    assert m.Root().parts[0] == a && m.Target().parts[0] == b;
    assert Relocate(m.from, m.from, m.to) == Relocated("/" + b);
    assert ("/" + a)[1..] == a && ("/" + b)[1..] == b;
  }

  /** So settled mappings with path-byte targets alone do not make the pass idempotent. */
  lemma ExposedByMapping()
    ensures var ms := [Mapping("/a", "/" + DIRECTIVE, DataDir, "")];
            Settled(ms) && PathByteTargets(ms) &&
            Moves(By(ms), Rewritten(By(ms), "/a=-/a"))
  {
    hide Rewritten, Settled, NonNested;
    var m := Mapping("/a", "/" + DIRECTIVE, DataDir, "");
    assert "/" + "a" == "/a" && IsName("a");
    assert '/' !in DIRECTIVE && |DIRECTIVE| > 2 && PathBytes(DIRECTIVE);
    SingleMove(m, "a", DIRECTIVE);
    NonNestedIsSettled([m]);
    assert PathByteTargets([m]) by {
      assert forall c :: c in m.Target().parts ==> c == DIRECTIVE;
    }
    ExposedExample(By([m]));
    TextRewriteIdempotentIffNothingExposed([m], "/a=-/a");
  }
}
