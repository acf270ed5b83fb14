/** When applying the resolver guard a second time changes nothing: exactly when the written
    directives can be read back. */
module ResolverUnitFixpoint {
  import opened Artifacts
  import opened Paths
  import opened Words
  import opened ResolverUnit
  import opened ResolverUnitProof

  /** What the directives are made of contains nothing that the parser splits or refuses. */
  predicate Readable(p: Parsed, catchBin: string) {
    NoSpace(catchBin) && NoQuote(catchBin) && NoSpace(Source(p.namespace)) && !EndsWith(p.daemon, '\\')
  }

  // ----- what a parser has read -----

  predicate Neat(p: Parser) {
    && (forall x :: x in p.execStarts ==> Tidy(x) && NoQuote(x) && !EndsWith(x, '\\'))
    && NoQuote(p.namespace)
    && (forall c :: c in p.conditions ==> !Continued(c))
  }

  lemma RestNeat(t: string, prefix: string)
    requires HasPrefix(t, prefix) && Tidy(t) && !Continued(t) && NoQuote(t)
    ensures Tidy(Rest(t, prefix)) && NoQuote(Rest(t, prefix)) && !EndsWith(Rest(t, prefix), '\\')
  {
    var y := t[|prefix|..];
    TrimTidy(y);
    assert forall c :: c in y ==> c in t;
    if y != "" {
      assert y[|y| - 1] == t[|t| - 1];
      TrimKeepsEnd(y);
    }
  }

  lemma NeatStep(p: Parser, line: string)
    requires Neat(p) && Consume(p, Trim(line)).Some?
    ensures Neat(Consume(p, Trim(line)).value)
  {
    var t := Trim(line);
    TrimTidy(line);
    if HasPrefix(t, EXEC) && NoQuote(t) && !Continued(t) {
      RestNeat(t, EXEC);
    }
    if HasPrefix(t, NAMESPACE) && NoQuote(t) && !Continued(t) {
      RestNeat(t, NAMESPACE);
    }
  }

  lemma {:induction false} NeatAll(p: Parser, lines: seq<string>)
    requires Neat(p) && ConsumeAll(p, lines).Some?
    ensures Neat(ConsumeAll(p, lines).value)
    decreases |lines|
  {
    if lines != [] {
      NeatStep(p, lines[0]);
      NeatAll(Consume(p, Trim(lines[0])).value, lines[1..]);
    }
  }

  /** The daemon and its arguments are words without quotes, and the last of them does not end
      in a backslash. */
  predicate NeatWords(p: Parsed) {
    && IsWord(p.daemon) && NoQuote(p.daemon) && CleanAbs(p.daemon)
    && (forall a :: a in p.args ==> IsWord(a) && NoQuote(a))
    && !EndsWith(([p.daemon] + p.args)[|p.args|], '\\')
  }

  lemma ParsedWords(p: Parser)
    requires Neat(p) && Finish(p).Some?
    ensures NeatWords(Finish(p).value) && NoQuote(Finish(p).value.namespace) && CleanAbs(Finish(p).value.namespace)
  {
    hide Fields, CleanAbs;
    var x, r := p.execStarts[0], Finish(p).value;
    var fields := Fields(x);
    var k := |fields| - |r.args|;
    assert r.args == fields[k..] && r.daemon == fields[k - 1];
    FieldsChars(x);
    assert x in p.execStarts;
    FieldsNoQuote(x);
    assert fields[k - 1] in fields;
    forall a | a in r.args ensures IsWord(a) && NoQuote(a) {
      var i :| 0 <= i < |r.args| && r.args[i] == a;
      assert a == fields[k + i] && a in fields;
    }
    assert ([r.daemon] + r.args)[|r.args|] == fields[|fields| - 1];
    LastFieldEnds(x);
  }

  lemma FieldsNoQuote(x: string)
    requires NoQuote(x)
    ensures forall f :: f in Fields(x) ==> NoQuote(f)
  {
    FieldsChars(x);
  }

  /** The last word of a text ends in a backslash only if the trimmed text does. */
  lemma {:induction false} LastFieldEnds(x: string)
    requires Fields(x) != [] && Tidy(x) && !EndsWith(x, '\\')
    ensures !EndsWith(Fields(x)[|Fields(x)| - 1], '\\')
  {
    LastWord(x);
  }

  // ----- the directives can be read back -----

  lemma {:induction false} SplitChars(s: string)
    ensures forall i, c :: 0 <= i < |Split(s)| && c in Split(s)[i] ==> c in s
  {
    if s != "" {
      SplitChars(s[1..]);
      assert forall c :: c in s[1..] ==> c in s;
      var rest := Split(s[1..]);
      forall i, c | 0 <= i < |Split(s)| && c in Split(s)[i] ensures c in s {
        if s[0] != '/' && i == 0 {
          assert c == s[0] || c in rest[0];
        }
      }
    }
  }

  lemma PushMembers(acc: seq<string>, c: string)
    requires Clean(true, acc) && '/' !in c
    ensures forall x :: x in Push(true, acc, c) ==> x in acc || x == c
  {
  }

  lemma {:induction false} ResolveMembers(acc: seq<string>, raw: seq<string>)
    requires Clean(true, acc) && forall c :: c in raw ==> '/' !in c
    ensures forall x :: x in Resolve(true, acc, raw) ==> x in acc || x in raw
    decreases |raw|
  {
    if raw != [] {
      assert raw[0] in raw && forall c :: c in raw[1..] ==> c in raw;
      PushMembers(acc, raw[0]);
      ResolveMembers(Push(true, acc, raw[0]), raw[1..]);
    }
  }

  lemma PartsChars(s: string)
    requires IsAbs(s)
    ensures forall x, c :: x in Parse(s).parts && c in x ==> c in s
  {
    SplitChars(s);
    ResolveMembers([], Split(s));
    forall x, c | x in Parse(s).parts && c in x ensures c in s {
      assert x in Split(s);
    }
  }

  lemma {:induction false} JoinSlashChars(parts: seq<string>)
    ensures forall c :: c in JoinSlash(parts) ==> c == '/' || exists x :: x in parts && c in x
  {
    if |parts| == 1 {
      assert parts[0] in parts;
    } else if |parts| > 1 {
      JoinSlashChars(parts[1..]);
      assert parts[0] in parts && forall x :: x in parts[1..] ==> x in parts;
    }
  }

  lemma {:induction false} JoinSlashEnds(parts: seq<string>, last: string)
    requires parts != [] && parts[|parts| - 1] == last && last != ""
    ensures EndsWith(JoinSlash(parts), last[|last| - 1])
  {
    if |parts| > 1 {
      JoinSlashEnds(parts[1..], last);
    }
  }

  function SourceParts(namespace: string): seq<string> {
    var parts := Parse(namespace).parts;
    ["etc", "netns"] + parts[if parts == [] then 0 else |parts| - 1..] + ["resolv.conf"]
  }

  lemma SourceCleaned(namespace: string)
    requires IsAbs(namespace)
    ensures Cleaned(Path(true, SourceParts(namespace)))
    ensures forall x :: x in SourceParts(namespace) ==>
            x in ["etc", "netns", "resolv.conf"] || x in Parse(namespace).parts
  {
    var all, parts := SourceParts(namespace), Parse(namespace).parts;
    hide Parse;
    assert IsName("etc") && IsName("netns") && IsName("resolv.conf");
    forall i | 0 <= i < |all| ensures CleanAt(true, all, i) {
      if i == 2 && |all| == 4 {
        assert all[2] == parts[|parts| - 1];
        assert CleanAt(true, parts, |parts| - 1);
      }
    }
  }

  lemma SourceFacts(namespace: string)
    requires IsAbs(namespace) && NoQuote(namespace)
    ensures CleanAbs(Source(namespace)) && NoQuote(Source(namespace))
    ensures Tidy(Source(namespace)) && Source(namespace) != "" && !EndsWith(Source(namespace), '\\')
  {
    SourceCleaned(namespace);
    PartsChars(namespace);
    var all := SourceParts(namespace);
    assert Source(namespace) == Render(Path(true, all));
    assert all[|all| - 1] == "resolv.conf";
    RenderedFacts(all, Parse(namespace).parts, namespace);
  }

  lemma RenderedFacts(all: seq<string>, parts: seq<string>, namespace: string)
    requires Cleaned(Path(true, all)) && all != [] && all[|all| - 1] == "resolv.conf"
    requires forall x :: x in all ==> x in ["etc", "netns", "resolv.conf"] || x in parts
    requires NoQuote(namespace) && forall x, c :: x in parts && c in x ==> c in namespace
    ensures var r := Render(Path(true, all));
            CleanAbs(r) && NoQuote(r) && Tidy(r) && r != "" && !EndsWith(r, '\\')
  {
    ParseRender(Path(true, all));
    hide Parse, Cleaned;
    JoinSlashChars(all);
    JoinSlashEnds(all, "resolv.conf");
    hide JoinSlash;
    assert NoQuote("etc") && NoQuote("netns") && NoQuote("resolv.conf");
    assert forall x :: x in all ==> NoQuote(x);
  }

  lemma CatchFacts(catchBin: string)
    requires ValidCatch(catchBin)
    ensures catchBin != "" && catchBin[0] == '/' && EndsWith(catchBin, 'h')
  {
    JoinSlashEnds(Parse(catchBin).parts, "catch");
  }

  lemma WordEnds(prefix: string, w: string)
    requires prefix != "" && !IsSpace(prefix[0]) && IsWord(w)
    ensures Tidy(prefix + w) && (EndsWith(prefix + w, '\\') <==> EndsWith(w, '\\'))
  {
    assert w[|w| - 1] in w;
  }

  /** The guarded command line, with words only. */
  lemma GuardedWords(p: Parsed, catchBin: string)
    requires NeatWords(p) && NoQuote(p.namespace) && CleanAbs(p.namespace) && ValidCatch(catchBin)
    requires Readable(p, catchBin)
    ensures forall w :: w in GuardedArgs(p, catchBin) ==> IsWord(w) && NoQuote(w)
    ensures !EndsWith(GuardedArgs(p, catchBin)[|GuardedArgs(p, catchBin)| - 1], '\\')
  {
    SourceFacts(p.namespace);
    CatchFacts(catchBin);
    ConstantWords();
    assert PlainWord(catchBin) && PlainWord(Source(p.namespace)) && PlainWord(p.daemon);
    assert PlainWord(GUARD) && PlainWord("--source") && PlainWord("--");
    hide CleanAbs, ValidCatch, Source, PlainWord;
    SixAndMore(catchBin, GUARD, "--source", Source(p.namespace), "--", p.daemon, p.args);
  }

  predicate PlainWord(w: string) {
    IsWord(w) && NoQuote(w)
  }

  lemma SixAndMore(a: string, b: string, c: string, d: string, e: string, f: string, rest: seq<string>)
    requires PlainWord(a) && PlainWord(b) && PlainWord(c) && PlainWord(d) && PlainWord(e) && PlainWord(f)
    requires forall w :: w in rest ==> PlainWord(w)
    ensures forall w :: w in [a, b, c, d, e, f] + rest ==> PlainWord(w)
    ensures var all := [a, b, c, d, e, f] + rest; all[|all| - 1] == ([f] + rest)[|rest|]
  {
    hide PlainWord;
  }

  lemma ConstantWords()
    ensures IsWord(GUARD) && IsWord("--source") && IsWord("--")
    ensures NoQuote(GUARD) && NoQuote("--source") && NoQuote("--")
  {
  }

  lemma GuardedText(args: seq<string>)
    requires args != [] && forall w :: w in args ==> IsWord(w) && NoQuote(w)
    requires !EndsWith(args[|args| - 1], '\\')
    ensures Tidy(Join(args)) && Join(args) != "" && NoQuote(Join(args)) && !EndsWith(Join(args), '\\')
    ensures Fields(Join(args)) == args
  {
    JoinEnds(args);
    JoinChars(args);
    FieldsJoin(args);
    var w := args[|args| - 1];
    assert args[0] in args && w in args;
    assert args[0][0] in args[0] && w[|w| - 1] in w;
  }

  lemma GuardedParses(p: Parsed, catchBin: string)
    requires CleanAbs(catchBin) && CleanAbs(Source(p.namespace)) && CleanAbs(p.daemon)
    requires Fields(Join(GuardedArgs(p, catchBin))) == GuardedArgs(p, catchBin)
    ensures ParseExec(Join(GuardedArgs(p, catchBin))) == Some((p.daemon, p.args))
  {
    hide CleanAbs, Source, Join, Fields;
    assert GuardedArgs(p, catchBin)[6..] == p.args;
  }

  lemma ConditionFits(daemon: string)
    requires IsWord(daemon) && NoQuote(daemon) && !EndsWith(daemon, '\\')
    ensures HasPrefix(CONDITION + daemon, CONDITION) && Tidy(CONDITION + daemon)
    ensures !Continued(CONDITION + daemon) && NoQuote(CONDITION + daemon)
  {
    WordEnds(CONDITION, daemon);
  }

  lemma BindFits(source: string)
    ensures HasPrefix(BIND + source + ":/etc/resolv.conf", BIND)
    ensures HasPrefix(BIND_READ_ONLY + source + ":/etc/resolv.conf", BIND_READ_ONLY)
  {
    PrefixOfSum(BIND, source + ":/etc/resolv.conf");
    PrefixOfSum(BIND_READ_ONLY, source + ":/etc/resolv.conf");
    assert BIND + source + ":/etc/resolv.conf" == BIND + (source + ":/etc/resolv.conf");
    assert BIND_READ_ONLY + source + ":/etc/resolv.conf" == BIND_READ_ONLY + (source + ":/etc/resolv.conf");
  }

  lemma ReadableFits(p: Parsed, catchBin: string)
    requires NeatWords(p) && NoQuote(p.namespace) && CleanAbs(p.namespace) && ValidCatch(catchBin)
    requires Readable(p, catchBin)
    ensures var d := DirectivesFor(p, catchBin);
            Fit(d) && ParseExec(Rest(d.execStart, EXEC)) == Some((p.daemon, p.args))
  {
    var args := GuardedArgs(p, catchBin);
    GuardedWords(p, catchBin);
    GuardedText(args);
    SourceFacts(p.namespace);
    GuardedParses(p, catchBin);
    ConditionFits(p.daemon);
    ExecText(Join(args));
    BindFits(Source(p.namespace));
    hide CleanAbs, Source, Join, Fields, ParseExec, GuardedArgs, HasPrefix, Tidy, NoQuote, Continued, Rest;
  }

  lemma ExecText(text: string)
    requires Tidy(text) && text != "" && NoQuote(text) && !EndsWith(text, '\\')
    ensures HasPrefix(EXEC + text, EXEC) && Rest(EXEC + text, EXEC) == text
    ensures Tidy(EXEC + text) && NoQuote(EXEC + text) && !Continued(EXEC + text)
  {
    assert (EXEC + text)[|EXEC|..] == text;
    TidyTrims(text);
  }

  lemma PrefixOfSum(a: string, b: string)
    ensures HasPrefix(a + b, a)
  {
  }

  // ----- what is certainly written -----

  lemma {:induction false} ExecEmitted(d: Directives, p: Parser, r: Rewriter, lines: seq<string>)
    requires r.section == p.section && ConsumeAll(p, lines).Some?
    requires |ConsumeAll(p, lines).value.execStarts| > |p.execStarts|
    ensures d.execStart in RewriteLines(d, r, lines).0
    decreases |lines|
  {
    var t := Trim(lines[0]);
    var p1 := Consume(p, t).value;
    PrefixesDiffer(t);
    SectionsAgree(p, r, lines[0], d);
    if |p1.execStarts| == |p.execStarts| {
      ExecEmitted(d, p1, Advanced(d, r, lines[0]), lines[1..]);
    } else {
      assert d.execStart in Body(d, r, lines[0]);
    }
  }

  lemma SectionsAgree(p: Parser, r: Rewriter, line: string, d: Directives)
    requires r.section == p.section && Consume(p, Trim(line)).Some?
    ensures Advanced(d, r, line).section == Consume(p, Trim(line)).value.section
  {
    var t := Trim(line);
    if Ignored(t) {
      IgnoredIsNoSection(t);
    }
  }

  lemma {:induction false} ConditionEmitted(d: Directives, r: Rewriter, lines: seq<string>)
    requires !r.insertedCondition && RewriteLines(d, r, lines).1.insertedCondition
    ensures d.condition in RewriteLines(d, r, lines).0
    decreases |lines|
  {
    if Trim(lines[0]) != SERVICE {
      ConditionEmitted(d, Advanced(d, r, lines[0]), lines[1..]);
    }
  }

  /** A unit that parses contains no continued line and no quoted command line, and all its
      command lines have been read. */
  lemma {:induction false} LinesRead(p: Parser, lines: seq<string>, i: nat)
    requires ConsumeAll(p, lines).Some? && i < |lines|
    ensures var t := Trim(lines[i]);
            && !Continued(t)
            && (HasPrefix(t, EXEC) ==> NoQuote(t) && Rest(t, EXEC) in ConsumeAll(p, lines).value.execStarts)
    decreases |lines|
  {
    var p1 := Consume(p, Trim(lines[0])).value;
    if i == 0 {
      PrefixesDiffer(Trim(lines[0]));
      if HasPrefix(Trim(lines[0]), EXEC) {
        ExecsGrow(p1, lines[1..], Rest(Trim(lines[0]), EXEC));
      }
    } else {
      LinesRead(p1, lines[1..], i - 1);
    }
  }

  lemma {:induction false} ExecsGrow(p: Parser, lines: seq<string>, x: string)
    requires ConsumeAll(p, lines).Some? && x in p.execStarts
    ensures x in ConsumeAll(p, lines).value.execStarts
    decreases |lines|
  {
    if lines != [] {
      ExecsGrow(Consume(p, Trim(lines[0])).value, lines[1..], x);
    }
  }

  // ----- the namespace is read alike, readable or not -----

  /** What one line does to the section and the namespace. */
  lemma NamespaceEffect(p: Parser, t: string)
    requires Consume(p, t).Some?
    ensures var q := Consume(p, t).value;
            && q.section == (if IsSection(t) then t else p.section)
            && (if p.section == SERVICE && HasPrefix(t, NAMESPACE)
                then q.namespace == Rest(t, NAMESPACE) && q.namespaces == 1
                else q.namespace == p.namespace && q.namespaces == p.namespaces)
  {
    PrefixesDiffer(t);
    if Ignored(t) {
      IgnoredIsNoSection(t);
    }
  }

  predicate Alike(p: Parser, q: Parser) {
    q.section == p.section && q.namespace == p.namespace && q.namespaces == p.namespaces
  }

  lemma InsertedTrims(d: Directives)
    requires HasPrefix(d.condition, CONDITION) && Tidy(d.condition) && HasPrefix(d.execStart, EXEC)
    ensures Trim(d.condition) == d.condition && Trim(UNIT) == UNIT && Trim(PRIVATE_YES) == PRIVATE_YES
    ensures !IsSection(d.condition) && !HasPrefix(d.condition, NAMESPACE)
    ensures IsSection(UNIT) && !IsSection(PRIVATE_YES) && !HasPrefix(PRIVATE_YES, NAMESPACE)
  {
    TidyTrims(d.condition);
    assert Tidy(UNIT) && Tidy(PRIVATE_YES) && UNIT[..1] == "[";
    TidyTrims(UNIT);
    TidyTrims(PRIVATE_YES);
    PrefixesDiffer(d.condition);
    PrivateIsNothingElse();
    PrefixesDiffer(PRIVATE_YES);
  }

  /** Directives whose text is what the parser sees, readable or not. */
  predicate Placed(d: Directives) {
    && HasPrefix(d.condition, CONDITION) && Tidy(d.condition) && HasPrefix(d.execStart, EXEC) && Tidy(d.execStart)
    && HasPrefix(d.writableBind, BIND) && HasPrefix(d.readOnlyBind, BIND_READ_ONLY)
  }

  lemma {:induction false} QuietLines(q: Parser, lines: seq<string>)
    requires ConsumeAll(q, lines).Some?
    requires forall l :: l in lines ==> !IsSection(Trim(l)) && !HasPrefix(Trim(l), NAMESPACE)
    ensures Alike(q, ConsumeAll(q, lines).value)
    decreases |lines|
  {
    if lines != [] {
      assert lines[0] in lines && forall l :: l in lines[1..] ==> l in lines;
      NamespaceEffect(q, Trim(lines[0]));
      QuietLines(Consume(q, Trim(lines[0])).value, lines[1..]);
    }
  }

  /** The part in front of a service section touches the section only. */
  lemma AheadAlike(d: Directives, q: Parser, r: Rewriter, t: string)
    requires Placed(d) && ConsumeAll(q, Ahead(d, r, t)).Some?
    ensures var q' := ConsumeAll(q, Ahead(d, r, t)).value;
            q'.namespace == q.namespace && q'.namespaces == q.namespaces && (t != SERVICE ==> q' == q)
  {
    InsertedTrims(d);
    if t == SERVICE && !r.insertedCondition {
      if r.section != UNIT {
        ConsumeConcat(q, [UNIT], [d.condition]);
        ConsumeOne(q, UNIT);
        NamespaceEffect(q, UNIT);
        QuietLines(Consume(q, UNIT).value, [d.condition]);
      } else {
        assert [] + [d.condition] == [d.condition];
        QuietLines(q, [d.condition]);
      }
    }
  }

  lemma DroppedQuiet(d: Directives, section: string, t: string)
    requires Placed(d) && (Dropped(d, section, t) || HasPrefix(t, EXEC))
    ensures !IsSection(t) && !HasPrefix(t, NAMESPACE)
  {
    PrefixesDiffer(t);
    PrefixesDiffer(d.writableBind);
    PrefixesDiffer(d.readOnlyBind);
    PrivateIsNothingElse();
    PrefixesDiffer(PRIVATE_YES);
  }

  lemma BodyAlike(d: Directives, p: Parser, q: Parser, r: Rewriter, line: string)
    requires Placed(d) && r.section == p.section && q.namespace == p.namespace && q.namespaces == p.namespaces
    requires q.section == p.section || IsSection(Trim(line))
    requires Consume(p, Trim(line)).Some? && ConsumeAll(q, Body(d, r, line)).Some?
    ensures Alike(Consume(p, Trim(line)).value, ConsumeAll(q, Body(d, r, line)).value)
  {
    var t := Trim(line);
    var section := SectionAfter(r, t);
    NamespaceEffect(p, t);
    InsertedTrims(d);
    if HasPrefix(t, CONDITION) {
      DroppedQuiet(d, section, t);
    } else if section == SERVICE && HasPrefix(t, EXEC) {
      DroppedQuiet(d, section, t);
      TidyTrims(d.execStart);
      DroppedQuiet(d, section, d.execStart);
      QuietLines(q, [d.execStart]);
    } else if Dropped(d, section, t) {
      DroppedQuiet(d, section, t);
    } else {
      LineAlike(p, q, line, if Resolves(r, section, t) then [PRIVATE_YES] else []);
    }
  }

  lemma LineAlike(p: Parser, q: Parser, line: string, more: seq<string>)
    requires q.namespace == p.namespace && q.namespaces == p.namespaces
    requires q.section == p.section || IsSection(Trim(line))
    requires Consume(p, Trim(line)).Some? && ConsumeAll(q, [line] + more).Some?
    requires forall l :: l in more ==> !IsSection(Trim(l)) && !HasPrefix(Trim(l), NAMESPACE)
    ensures Alike(Consume(p, Trim(line)).value, ConsumeAll(q, [line] + more).value)
  {
    var t := Trim(line);
    PrefixesDiffer(t);
    NamespaceEffect(p, t);
    ConsumeConcat(q, [line], more);
    ConsumeOne(q, line);
    NamespaceEffect(q, t);
    QuietLines(Consume(q, t).value, more);
  }

  lemma {:induction false} AllAlike(d: Directives, p: Parser, q: Parser, r: Rewriter, lines: seq<string>)
    requires Placed(d) && r.section == p.section && Alike(p, q)
    requires ConsumeAll(p, lines).Some? && ConsumeAll(q, RewriteLines(d, r, lines).0).Some?
    ensures Alike(ConsumeAll(p, lines).value, ConsumeAll(q, RewriteLines(d, r, lines).0).value)
    decreases |lines|
  {
    hide Consume, Ahead, Body, Advanced, Placed;
    if lines != [] {
      var t := Trim(lines[0]);
      var out := RewriteLines(d, Advanced(d, r, lines[0]), lines[1..]).0;
      ConsumeConcat(q, Emitted(d, r, lines[0]), out);
      ConsumeConcat(q, Ahead(d, r, t), Body(d, r, lines[0]));
      AheadAlike(d, q, r, t);
      var q0 := ConsumeAll(q, Ahead(d, r, t)).value;
      ServiceIsSection();
      BodyAlike(d, p, q0, r, lines[0]);
      SectionsAgree(p, r, lines[0], d);
      AllAlike(d, Consume(p, t).value, ConsumeAll(q0, Body(d, r, lines[0])).value, Advanced(d, r, lines[0]),
               lines[1..]);
    }
  }

  lemma ServiceIsSection()
    ensures IsSection(SERVICE)
  {
    assert SERVICE[..1] == "[";
  }

  // ----- the first application -----

  /** The unit parses and nothing in it conflicts with the guard. */
  predicate Accepted(unit: seq<string>, catchBin: string) {
    && ValidCatch(catchBin) && ConsumeAll(START, unit).Some? && Finish(ConsumeAll(START, unit).value).Some?
    && var p := ConsumeAll(START, unit).value;
       var d := DirectivesFor(Finish(p).value, catchBin);
       ValidConditions(d, p) && ValidMounts(d, p)
  }

  function Read(unit: seq<string>, catchBin: string): (r: (Parser, Parsed, Directives))
    requires Accepted(unit, catchBin)
  {
    var p := ConsumeAll(START, unit).value;
    (p, Finish(p).value, DirectivesFor(Finish(p).value, catchBin))
  }

  lemma ReadFacts(unit: seq<string>, catchBin: string)
    requires Accepted(unit, catchBin)
    ensures var (p, parsed, d) := Read(unit, catchBin);
            && Neat(p) && NeatWords(parsed) && NoQuote(parsed.namespace) && CleanAbs(parsed.namespace)
            && |p.execStarts| == 1 && p.namespaces == 1 && Placed(d)
  {
    NeatAll(START, unit);
    var (p, parsed, d) := Read(unit, catchBin);
    ParsedWords(p);
    DirectivesPlaced(parsed, catchBin);
  }

  lemma DirectivesPlaced(parsed: Parsed, catchBin: string)
    requires NeatWords(parsed) && NoQuote(parsed.namespace) && CleanAbs(parsed.namespace) && ValidCatch(catchBin)
    ensures Placed(DirectivesFor(parsed, catchBin))
  {
    SourceFacts(parsed.namespace);
    CatchFacts(catchBin);
    hide CleanAbs, ValidCatch, Source;
    GuardedTidy(parsed, catchBin);
    BindFits(Source(parsed.namespace));
    WordEnds(CONDITION, parsed.daemon);
    PrefixOfSum(CONDITION, parsed.daemon);
    PrefixOfSum(EXEC, Join(GuardedArgs(parsed, catchBin)));
    hide HasPrefix, GuardedArgs;
  }

  lemma GuardedTidy(parsed: Parsed, catchBin: string)
    requires NeatWords(parsed) && catchBin != "" && catchBin[0] == '/' && Source(parsed.namespace) != ""
    ensures var text := Join(GuardedArgs(parsed, catchBin)); text != "" && Tidy(text) && Tidy(EXEC + text)
  {
    hide Source, CleanAbs;
    var args := GuardedArgs(parsed, catchBin);
    forall w | w in args ensures w != "" {
      assert w in [catchBin, GUARD, "--source", Source(parsed.namespace), "--", parsed.daemon] || w in parsed.args;
    }
    JoinEnds(args);
    var w := args[|args| - 1];
    assert w == ([parsed.daemon] + parsed.args)[|parsed.args|];
    assert IsWord(w) && w[|w| - 1] in w;
  }

  /** Rewriting never fails: whatever is accepted has a service section with a namespace. */
  lemma AcceptedIsDone(unit: seq<string>, catchBin: string)
    ensures EnsureIsolation(unit, catchBin).Done? <==> Accepted(unit, catchBin)
  {
    if Accepted(unit, catchBin) {
      ReadFacts(unit, catchBin);
      var (p, parsed, d) := Read(unit, catchBin);
      BothInserted(d, START, FRESH, unit);
    }
  }

  // ----- the second application -----

  lemma SecondReads(unit: seq<string>, catchBin: string)
    requires Accepted(unit, catchBin) && Readable(Read(unit, catchBin).1, catchBin)
    ensures var (p, parsed, d) := Read(unit, catchBin);
            var out := RewriteLines(d, FRESH, unit).0;
            && ConsumeAll(START, out).Some?
            && Finish(ConsumeAll(START, out).value) == Some(parsed)
            && AlreadyApplied(d, out, ConsumeAll(START, out).value)
            && ConsumeAll(START, out).value.mountsOutside == []
  {
    ReadFacts(unit, catchBin);
    var (p, parsed, d) := Read(unit, catchBin);
    ReadableFits(parsed, catchBin);
    SimStart(d);
    SimAll(d, START, START, FRESH, unit);
    BothInserted(d, START, FRESH, unit);
    ExecEmitted(d, START, FRESH, unit);
    var (out, last) := RewriteLines(d, FRESH, unit);
    SecondParses(p, ConsumeAll(START, out).value, d, last, out, parsed);
  }

  lemma SecondParses(p: Parser, q: Parser, d: Directives, last: Rewriter, out: seq<string>, parsed: Parsed)
    requires Fit(d) && Sim(d, p, q, last) && |p.execStarts| == 1 && Finish(p) == Some(parsed)
    requires last.insertedCondition && last.insertedResolver && d.execStart in out
    requires ParseExec(Rest(d.execStart, EXEC)) == Some((parsed.daemon, parsed.args))
    ensures Finish(q) == Some(parsed) && AlreadyApplied(d, out, q) && q.mountsOutside == []
  {
    hide ParseExec, CleanAbs;
    assert q.execStarts[0] in q.execStarts;
    TidyTrims(d.execStart);
    var i :| 0 <= i < |out| && out[i] == d.execStart;
    assert Trim(out[i]) == d.execStart;
  }

  /** Where an accepted unit is rewritten, or left alone. */
  lemma FirstApplication(unit: seq<string>, catchBin: string)
    requires Accepted(unit, catchBin)
    ensures var (p, parsed, d) := Read(unit, catchBin); var out := RewriteLines(d, FRESH, unit).0;
            EnsureIsolation(unit, catchBin) ==
            if AlreadyApplied(d, unit, p) then Done(unit, false) else Done(out, out != unit)
  {
    AcceptedIsDone(unit, catchBin);
  }

  lemma SecondApplication(out: seq<string>, catchBin: string, parsed: Parsed)
    requires ValidCatch(catchBin) && ConsumeAll(START, out).Some? &&
             Finish(ConsumeAll(START, out).value) == Some(parsed)
    requires AlreadyApplied(DirectivesFor(parsed, catchBin), out, ConsumeAll(START, out).value)
    requires ConsumeAll(START, out).value.mountsOutside == []
    ensures EnsureIsolation(out, catchBin) == Done(out, false) && ParseUnit(out) == Some(parsed)
  {
    hide ConsumeAll, Finish, ValidCatch, DirectivesFor;
  }

  /** With readable directives the first application is final: the second one accepts its
      result and changes nothing, the daemon reads the same, and what is not managed is kept. */
  lemma ReadableIsFixpoint(unit: seq<string>, catchBin: string)
    requires Accepted(unit, catchBin) && Readable(Read(unit, catchBin).1, catchBin)
    ensures EnsureIsolation(unit, catchBin).Done?
    ensures var next := EnsureIsolation(unit, catchBin).unit;
            && EnsureIsolation(next, catchBin) == Done(next, false)
            && ParseUnit(next) == ParseUnit(unit)
            && Others(Read(unit, catchBin).2, next) == Others(Read(unit, catchBin).2, unit)
  {
    FirstApplication(unit, catchBin);
    ReadFacts(unit, catchBin);
    var (p, parsed, d) := Read(unit, catchBin);
    ParsesTo(unit, catchBin);
    hide EnsureIsolation, ConsumeAll, Finish, ParseUnit, RewriteLines, Others, AlreadyApplied;
    hide Neat, NeatWords, Placed, CleanAbs, ValidCatch, DirectivesFor;
    if !AlreadyApplied(d, unit, p) {
      SecondReads(unit, catchBin);
      ReadableFits(parsed, catchBin);
      OthersKept(d, FRESH, unit);
      SecondApplication(RewriteLines(d, FRESH, unit).0, catchBin, parsed);
    }
  }

  lemma ParsesTo(unit: seq<string>, catchBin: string)
    requires Accepted(unit, catchBin)
    ensures ParseUnit(unit) == Some(Read(unit, catchBin).1) && ValidCatch(catchBin)
    ensures Read(unit, catchBin).2 == DirectivesFor(Read(unit, catchBin).1, catchBin)
  {
  }

  // ----- and only with readable directives -----

  lemma {:induction false} JoinFirst(fs: seq<string>)
    requires fs != []
    ensures forall c :: c in fs[0] ==> c in Join(fs)
  {
  }

  lemma {:induction false} CountTail(fs: seq<string>, k: nat)
    requires k <= |fs| && forall i :: k <= i < |fs| ==> IsWord(fs[i])
    ensures WordCount(fs) == WordCount(fs[..k]) + (|fs| - k)
    decreases |fs|
  {
    if fs != [] {
      if k == 0 {
        FieldsWord(fs[0]);
        assert fs[..0] == [] && fs[1..][..0] == [];
        CountTail(fs[1..], 0);
      } else {
        assert fs[..k][0] == fs[0] && fs[..k][1..] == fs[1..][..k - 1];
        CountTail(fs[1..], k - 1);
      }
    }
  }

  lemma CountCons(s: string, rest: seq<string>)
    ensures WordCount([s] + rest) == |Fields(s)| + WordCount(rest)
  {
    assert ([s] + rest)[1..] == rest;
  }

  lemma SixWords(a: string, b: string)
    ensures WordCount([a, GUARD, "--source", b, "--"]) == |Fields(a)| + |Fields(b)| + 3
  {
    ConstantWords();
    FieldsWord(GUARD);
    FieldsWord("--source");
    FieldsWord("--");
    CountFive(a, GUARD, "--source", b, "--");
  }

  lemma CountFive(a: string, b: string, c: string, d: string, e: string)
    ensures WordCount([a, b, c, d, e]) == |Fields(a)| + |Fields(b)| + |Fields(c)| + |Fields(d)| + |Fields(e)|
  {
    CountCons(e, []);
    CountCons(d, [e]);
    CountCons(c, [d, e]);
    CountCons(b, [c, d, e]);
    CountCons(a, [b, c, d, e]);
    hide WordCount, Fields;
    assert [e] == [e] + [] && [d, e] == [d] + [e] && [c, d, e] == [c] + [d, e];
    assert [b, c, d, e] == [b] + [c, d, e] && [a, b, c, d, e] == [a] + [b, c, d, e];
    WordCountNone();
  }

  lemma WordCountNone()
    ensures WordCount([]) == 0
  {
  }

  /** A guarded command line from which its own daemon and arguments are read back has a Catch
      path and a resolver file of one word each: blanks would show as more words. */
  lemma ReadBackIsWords(p: Parsed, catchBin: string)
    requires NeatWords(p) && catchBin != "" && catchBin[0] == '/' && EndsWith(catchBin, 'h')
    requires Source(p.namespace) != "" && Tidy(Source(p.namespace))
    requires ParseExec(Join(GuardedArgs(p, catchBin))) == Some((p.daemon, p.args))
    ensures NoSpace(catchBin) && NoSpace(Source(p.namespace))
  {
    var text, source := Join(GuardedArgs(p, catchBin)), Source(p.namespace);
    GuardedCount(p, catchBin);
    WordsOfExec(text, p);
    assert |Fields(catchBin)| >= 1 && |Fields(source)| >= 1;
    hide Join, GuardedArgs, Source, ParseExec, Fields, NeatWords;
    OneWord(catchBin);
    OneWord(source);
  }

  lemma GuardedCount(p: Parsed, catchBin: string)
    requires NeatWords(p)
    ensures |Fields(Join(GuardedArgs(p, catchBin)))| ==
            |Fields(catchBin)| + |Fields(Source(p.namespace))| + 4 + |p.args|
  {
    var all, source := GuardedArgs(p, catchBin), Source(p.namespace);
    forall i | 5 <= i < |all| ensures IsWord(all[i]) {
      assert i > 5 ==> all[i] in p.args;
    }
    assert all[..5] == [catchBin, GUARD, "--source", source, "--"] && |all| == 6 + |p.args|;
    hide GuardedArgs, Source, Join, WordCount, Fields, NeatWords;
    JoinCount(all);
    CountTail(all, 5);
    SixWords(catchBin, source);
  }

  lemma WordsOfExec(text: string, p: Parsed)
    requires ParseExec(text) == Some((p.daemon, p.args))
    ensures |Fields(text)| == |p.args| + 1 || |Fields(text)| == |p.args| + 6
  {
  }

  lemma CommandLineStands(next: seq<string>, catchBin: string)
    requires Accepted(next, catchBin) && EnsureIsolation(next, catchBin) == Done(next, false)
    ensures HasDirective(next, Read(next, catchBin).2.execStart)
  {
    ReadFacts(next, catchBin);
    FirstApplication(next, catchBin);
    var (p, parsed, d) := Read(next, catchBin);
    if !AlreadyApplied(d, next, p) {
      ExecEmitted(d, START, FRESH, next);
      hide EnsureIsolation, RewriteLines, ConsumeAll, Finish;
      var j :| 0 <= j < |next| && next[j] == d.execStart;
      TidyTrims(d.execStart);
      assert Trim(next[j]) == d.execStart;
    }
  }

  lemma StandingLineRead(lines: seq<string>, exec: string)
    requires ConsumeAll(START, lines).Some? && HasDirective(lines, exec) && HasPrefix(exec, EXEC)
    ensures NoQuote(exec) && Rest(exec, EXEC) in ConsumeAll(START, lines).value.execStarts
  {
    var i :| 0 <= i < |lines| && Trim(lines[i]) == exec;
    LinesRead(START, lines, i);
  }

  lemma ReadOf(unit: seq<string>, catchBin: string)
    requires Accepted(unit, catchBin)
    ensures var (p, parsed, d) := Read(unit, catchBin);
            && ConsumeAll(START, unit) == Some(p) && d.execStart == EXEC + Join(GuardedArgs(parsed, catchBin))
            && ValidCatch(catchBin)
  {
  }

  lemma CommandLineIsOwn(next: seq<string>, catchBin: string)
    requires Accepted(next, catchBin) && EnsureIsolation(next, catchBin) == Done(next, false)
    ensures var (p, parsed, d) := Read(next, catchBin);
            p.execStarts == [Join(GuardedArgs(parsed, catchBin))] && NoQuote(d.execStart)
  {
    ReadFacts(next, catchBin);
    CommandLineStands(next, catchBin);
    ReadOf(next, catchBin);
    hide Read, Accepted, EnsureIsolation, ConsumeAll, HasDirective;
    var (p, parsed, d) := Read(next, catchBin);
    CatchFacts(catchBin);
    SourceFacts(parsed.namespace);
    OwnLine(next, p, parsed, d, catchBin);
  }

  lemma OwnLine(next: seq<string>, p: Parser, parsed: Parsed, d: Directives, catchBin: string)
    requires ConsumeAll(START, next) == Some(p) && HasDirective(next, d.execStart) && |p.execStarts| == 1
    requires d.execStart == EXEC + Join(GuardedArgs(parsed, catchBin)) && NeatWords(parsed)
    requires catchBin != "" && catchBin[0] == '/' && Source(parsed.namespace) != ""
    ensures p.execStarts == [Join(GuardedArgs(parsed, catchBin))] && NoQuote(d.execStart)
  {
    hide ConsumeAll, HasDirective, NeatWords, Source, GuardedArgs, Join, Rest, HasPrefix, Tidy, NoQuote;
    GuardedTidy(parsed, catchBin);
    ExecRest(Join(GuardedArgs(parsed, catchBin)));
    StandingLineRead(next, d.execStart);
  }

  lemma ExecRest(text: string)
    requires Tidy(text)
    ensures HasPrefix(EXEC + text, EXEC) && Rest(EXEC + text, EXEC) == text
  {
    assert (EXEC + text)[|EXEC|..] == text;
    TidyTrims(text);
  }

  lemma FixpointIsReadable(unit: seq<string>, catchBin: string)
    requires Accepted(unit, catchBin) && EnsureIsolation(unit, catchBin).Done?
    requires var next := EnsureIsolation(unit, catchBin).unit; EnsureIsolation(next, catchBin) == Done(next, false)
    ensures Readable(Read(unit, catchBin).1, catchBin)
  {
    var next := EnsureIsolation(unit, catchBin).unit;
    AcceptedIsDone(next, catchBin);
    ReadFacts(next, catchBin);
    CommandLineIsOwn(next, catchBin);
    CatchFacts(catchBin);
    var (p2, parsed2, d2) := Read(next, catchBin);
    SourceFacts(parsed2.namespace);
    OwnCommandLine(p2, parsed2, catchBin);
    ReadBackIsWords(parsed2, catchBin);
    JoinFirst(GuardedArgs(parsed2, catchBin));
    assert NoQuote(catchBin);
    SameNamespace(unit, catchBin);
    DaemonEnds(unit, catchBin);
  }

  lemma OwnCommandLine(p: Parser, parsed: Parsed, catchBin: string)
    requires Finish(p) == Some(parsed) && p.execStarts == [Join(GuardedArgs(parsed, catchBin))]
    ensures ParseExec(Join(GuardedArgs(parsed, catchBin))) == Some((parsed.daemon, parsed.args))
  {
  }

  lemma SameNamespace(unit: seq<string>, catchBin: string)
    requires Accepted(unit, catchBin) && EnsureIsolation(unit, catchBin).Done?
    requires Accepted(EnsureIsolation(unit, catchBin).unit, catchBin)
    ensures Read(EnsureIsolation(unit, catchBin).unit, catchBin).1.namespace == Read(unit, catchBin).1.namespace
  {
    FirstApplication(unit, catchBin);
    ReadFacts(unit, catchBin);
    var (p, parsed, d) := Read(unit, catchBin);
    if !AlreadyApplied(d, unit, p) {
      AllAlike(d, START, START, FRESH, unit);
    }
  }

  lemma DaemonEnds(unit: seq<string>, catchBin: string)
    requires Accepted(unit, catchBin) && EnsureIsolation(unit, catchBin).Done?
    requires Accepted(EnsureIsolation(unit, catchBin).unit, catchBin)
    ensures !EndsWith(Read(unit, catchBin).1.daemon, '\\')
  {
    FirstApplication(unit, catchBin);
    ReadFacts(unit, catchBin);
    var (p, parsed, d) := Read(unit, catchBin);
    WordEnds(CONDITION, parsed.daemon);
    if AlreadyApplied(d, unit, p) {
      assert d.condition in p.conditions;
    } else {
      hide EnsureIsolation, Finish, DirectivesFor, NeatWords, AlreadyApplied;
      ConditionStands(unit, p, d);
    }
  }

  lemma ConditionStands(unit: seq<string>, p: Parser, d: Directives)
    requires ConsumeAll(START, unit) == Some(p) && p.namespaces == 1 && Placed(d) && Tidy(d.condition)
    requires ConsumeAll(START, RewriteLines(d, FRESH, unit).0).Some?
    ensures !Continued(d.condition)
  {
    BothInserted(d, START, FRESH, unit);
    ConditionEmitted(d, FRESH, unit);
    hide RewriteLines, ConsumeAll, Tidy;
    var out := RewriteLines(d, FRESH, unit).0;
    var i :| 0 <= i < |out| && out[i] == d.condition;
    TidyTrims(d.condition);
    LinesRead(START, out, i);
  }

  /** Applying the guard twice is applying it once exactly when the Catch path is free of white
      space and quotes, the resolver file is free of white space, and the daemon's path does
      not end in a backslash. */
  lemma FixpointIffReadable(unit: seq<string>, catchBin: string)
    requires EnsureIsolation(unit, catchBin).Done?
    ensures Accepted(unit, catchBin)
    ensures var next := EnsureIsolation(unit, catchBin).unit;
            EnsureIsolation(next, catchBin) == Done(next, false) <==> Readable(Read(unit, catchBin).1, catchBin)
  {
    AcceptedIsDone(unit, catchBin);
    if Readable(Read(unit, catchBin).1, catchBin) {
      ReadableIsFixpoint(unit, catchBin);
    } else {
      var next := EnsureIsolation(unit, catchBin).unit;
      if EnsureIsolation(next, catchBin) == Done(next, false) {
        FixpointIsReadable(unit, catchBin);
      }
    }
  }

  // ----- a unit that is not read back as it was written -----

  const SMALL: seq<string> := [SERVICE, EXEC + "/d", NAMESPACE + "/n", ENVIRONMENT + "/e", DIRECTORY + "/w"]

  lemma CleanName(c: string, path: string)
    requires IsName(c) && path == "/" + c
    ensures CleanAbs(path) && Parse(path) == Path(true, [c])
  {
    ParseRender(Path(true, [c]));
  }

  lemma Value(prefix: string, path: string)
    requires IsWord(path) && prefix != "" && !IsSpace(prefix[0])
    ensures HasPrefix(prefix + path, prefix) && Rest(prefix + path, prefix) == path &&
            Trim(prefix + path) == prefix + path
  {
    assert (prefix + path)[|prefix|..] == path;
    WordEnds(prefix, path);
    assert path[0] in path && path[|path| - 1] in path;
    TidyTrims(path);
    TidyTrims(prefix + path);
  }

  lemma FileFacts(prefix: string, path: string)
    requires prefix == ENVIRONMENT || prefix == DIRECTORY
    requires IsWord(path) && NoQuote(path) && !EndsWith(path, '\\') && !EndsWith(path, ']')
    ensures var t := prefix + path;
            && !Continued(t) && !Ignored(t) && !IsSection(t) && NoQuote(t)
            && !HasPrefix(t, CONDITION) && !HasPrefix(t, EXEC) && !HasPrefix(t, NAMESPACE) && !IsMount(t)
            && !HasPrefix(t, if prefix == DIRECTORY then ENVIRONMENT else DIRECTORY)
  {
    var t := prefix + path;
    assert t[0] == prefix[0] && t[1] == prefix[1] && t[|t| - 1] == path[|path| - 1];
    assert NoQuote(t) by {
      assert NoQuote(prefix) && forall c :: c in t ==> c in prefix || c in path;
    }
    hide NoQuote, HasPrefix;
    NoOther(t, CONDITION);
    NoOther(t, EXEC);
    NoOther(t, NAMESPACE);
    NoOther(t, BIND);
    NoOther(t, BIND_READ_ONLY);
    NoOther(t, PRIVATE);
    NoOther(t, if prefix == DIRECTORY then ENVIRONMENT else DIRECTORY);
    NoOther(t, "[");
  }

  lemma FileLine(q: Parser, prefix: string, path: string)
    requires prefix == ENVIRONMENT || prefix == DIRECTORY
    requires q.section == SERVICE && IsWord(path) && NoQuote(path) && !EndsWith(path, '\\') && !EndsWith(path, ']')
    ensures prefix == ENVIRONMENT && q.environmentFiles == 0 ==>
              Consume(q, Trim(prefix + path)) == Some(q.(environmentFile := path, environmentFiles := 1))
    ensures prefix == DIRECTORY && q.workingDirectories == 0 ==>
              Consume(q, Trim(prefix + path)) == Some(q.(workingDirectory := path, workingDirectories := 1))
  {
    Value(prefix, path);
    FileFacts(prefix, path);
    hide HasPrefix, Continued, Ignored, IsSection, NoQuote, IsMount, Rest, Trim;
    BindsAreMounts(prefix + path);
  }

  lemma BindsAreMounts(t: string)
    ensures HasPrefix(t, BIND) || HasPrefix(t, BIND_READ_ONLY) || HasPrefix(t, PRIVATE) ==> IsMount(t)
  {
  }

  lemma NoOther(t: string, prefix: string)
    requires |t| > 1 && prefix != ""
    ensures HasPrefix(t, prefix) ==> t[0] == prefix[0] && (|prefix| > 1 ==> t[1] == prefix[1])
  {
    if HasPrefix(t, prefix) {
      PrefixAt(t, prefix, 0);
      if |prefix| > 1 {
        PrefixAt(t, prefix, 1);
      }
    }
  }

  lemma ServiceLine()
    ensures Consume(START, Trim(SERVICE)) == Some(START.(section := SERVICE))
  {
    assert Tidy(SERVICE) && SERVICE[..1] == "[";
    TidyTrims(SERVICE);
  }

  lemma CommandLine(q: Parser)
    requires q.section == SERVICE
    ensures Consume(q, Trim(EXEC + "/d")) == Some(q.(execStarts := q.execStarts + ["/d"]))
  {
    var t := EXEC + "/d";
    Value(EXEC, "/d");
    assert t[|t| - 1] == 'd' && NoQuote(EXEC) && NoQuote(t);
    PrefixesDiffer(t);
  }

  lemma NamespaceLine(q: Parser)
    requires q.section == SERVICE && q.namespaces == 0
    ensures Consume(q, Trim(NAMESPACE + "/n")) == Some(q.(namespace := "/n", namespaces := 1))
  {
    var t := NAMESPACE + "/n";
    Value(NAMESPACE, "/n");
    assert t[|t| - 1] == 'n' && NoQuote(NAMESPACE) && NoQuote(t);
    NamespaceRead(q, t);
  }

  lemma ConsumeNext(q: Parser, lines: seq<string>, q': Parser, rest: seq<string>)
    requires lines != [] && lines[1..] == rest && Consume(q, Trim(lines[0])) == Some(q')
    ensures ConsumeAll(q, lines) == ConsumeAll(q', rest)
  {
  }

  lemma ConsumedNone(q: Parser)
    ensures ConsumeAll(q, []) == Some(q)
  {
  }

  lemma SmallRead()
    ensures ConsumeAll(START, SMALL) ==
            Some(START.(section := SERVICE, execStarts := ["/d"], namespace := "/n", namespaces := 1,
              environmentFile := "/e", environmentFiles := 1, workingDirectory := "/w", workingDirectories := 1))
  {
    ServiceLine();
    SmallSettings(START.(section := SERVICE));
    hide Consume, Trim;
    ConsumeNext(START, SMALL, START.(section := SERVICE), SMALL[1..]);
  }

  lemma SmallSettings(q1: Parser)
    requires q1 == START.(section := SERVICE)
    ensures ConsumeAll(q1, SMALL[1..]) == Some(q1.(execStarts := ["/d"], namespace := "/n", namespaces := 1,
              environmentFile := "/e", environmentFiles := 1, workingDirectory := "/w", workingDirectories := 1))
  {
    hide Consume, Trim, ConsumeAll;
    var q2 := q1.(execStarts := ["/d"]);
    var q3 := q2.(namespace := "/n", namespaces := 1);
    var q4 := q3.(environmentFile := "/e", environmentFiles := 1);
    var q5 := q4.(workingDirectory := "/w", workingDirectories := 1);
    CommandLine(q1);
    NamespaceLine(q2);
    FileLine(q3, ENVIRONMENT, "/e");
    FileLine(q4, DIRECTORY, "/w");
    assert [] + ["/d"] == ["/d"];
    ConsumeNext(q1, SMALL[1..], q2, SMALL[2..]);
    ConsumeNext(q2, SMALL[2..], q3, SMALL[3..]);
    ConsumeNext(q3, SMALL[3..], q4, SMALL[4..]);
    ConsumeNext(q4, SMALL[4..], q5, []);
    ConsumedNone(q5);
  }

  lemma SmallParsed(p: Parser)
    requires ConsumeAll(START, SMALL) == Some(p)
    ensures Finish(p) == Some(Parsed("/d", [], "/n", "/e", "/w"))
    ensures p.conditions == p.conditionsOutside == p.mountsOutside == p.bindPaths == p.bindReadOnlyPaths ==
            p.privateMounts == []
  {
    SmallRead();
    hide ConsumeAll;
    assert "/" + "d" == "/d" && "/" + "n" == "/n";
    CleanName("d", "/d");
    CleanName("n", "/n");
    FieldsWord("/d");
    assert ["/d"][1..] == [];
  }

  lemma CleanNames(a: string, b: string, path: string)
    requires IsName(a) && IsName(b) && path == "/" + (a + "/" + b)
    ensures CleanAbs(path) && Parse(path).parts == [a, b]
  {
    var p := Path(true, [a, b]);
    assert [a, b][1..] == [b];
    assert JoinSlash(p.parts) == a + "/" + JoinSlash([b]) == a + "/" + b;
    ParseRender(p);
  }

  const BLANK_CATCH := "/" + ("a b" + "/" + "catch")

  lemma BlankNames()
    ensures IsName("a b") && IsName("catch")
  {
  }

  lemma BlankCatch()
    ensures ValidCatch(BLANK_CATCH) && !NoSpace(BLANK_CATCH)
  {
    assert BLANK_CATCH[2] == ' ' && IsSpace(' ');
    assert BLANK_CATCH[2] in BLANK_CATCH;
    BlankNames();
    hide IsName, Parse;
    CleanNames("a b", "catch", BLANK_CATCH);
  }

  /** A small unit and a Catch below a directory with a blank in its name: the guard is
      applied, and applying it again does not leave the result alone. */
  lemma UnreadableExample()
    ensures Accepted(SMALL, BLANK_CATCH) && !Readable(Read(SMALL, BLANK_CATCH).1, BLANK_CATCH)
    ensures EnsureIsolation(SMALL, BLANK_CATCH).Done?
    ensures var next := EnsureIsolation(SMALL, BLANK_CATCH).unit;
            EnsureIsolation(next, BLANK_CATCH) != Done(next, false)
  {
    BlankCatch();
    SmallRead();
    SmallParsed(ConsumeAll(START, SMALL).value);
    SmallAccepted(ConsumeAll(START, SMALL).value, BLANK_CATCH);
    AcceptedIsDone(SMALL, BLANK_CATCH);
    FixpointIffReadable(SMALL, BLANK_CATCH);
  }

  lemma SmallAccepted(p: Parser, catchBin: string)
    requires ValidCatch(catchBin) && ConsumeAll(START, SMALL) == Some(p) && Finish(p).Some?
    requires p.conditions == p.conditionsOutside == p.mountsOutside == p.bindPaths == p.bindReadOnlyPaths ==
             p.privateMounts == []
    ensures Accepted(SMALL, catchBin)
  {
    hide ConsumeAll, Finish, ValidCatch, DirectivesFor;
  }
}
