/** What the rewritten unit of a Tailscale daemon says, in the words systemd reads. */
module ResolverUnitMeaning {
  import opened Artifacts
  import opened Paths
  import opened Words
  import opened ResolverUnit
  import opened ResolverUnitProof
  import opened ResolverUnitFixpoint

  // ----- the resolver file -----

  /** The resolver file is the one below /etc/netns that has the last name of the namespace. */
  lemma SourceText(namespace: string, n: string)
    requires Parse(namespace).parts != [] && Parse(namespace).parts[|Parse(namespace).parts| - 1] == n
    ensures Source(namespace) == "/etc/netns/" + n + "/resolv.conf"
  {
    var parts := Parse(namespace).parts;
    assert parts[|parts| - 1..] == [n];
    assert ["etc", "netns"] + [n] + ["resolv.conf"] == ["etc", "netns", n, "resolv.conf"];
    FourNames("etc", "netns", n, "resolv.conf");
    assert "/" + ("etc" + "/" + ("netns" + "/" + (n + "/" + "resolv.conf"))) == "/etc/netns/" + n + "/resolv.conf";
  }

  lemma FourNames(a: string, b: string, c: string, d: string)
    ensures JoinSlash([a, b, c, d]) == a + "/" + (b + "/" + (c + "/" + d))
  {
    NameAhead(c, [d]);
    NameAhead(b, [c, d]);
    NameAhead(a, [b, c, d]);
    hide JoinSlash;
    assert [c] + [d] == [c, d] && [b] + [c, d] == [b, c, d] && [a] + [b, c, d] == [a, b, c, d];
  }

  lemma NameAhead(a: string, rest: seq<string>)
    requires rest != []
    ensures JoinSlash([a] + rest) == a + "/" + JoinSlash(rest) && (|rest| == 1 ==> JoinSlash(rest) == rest[0])
  {
    assert ([a] + rest)[1..] == rest;
  }

  /** Namespaces with different last names have different resolver files. */
  lemma SourcesDiffer(one: string, n: string, other: string, m: string)
    requires Parse(one).parts != [] && Parse(one).parts[|Parse(one).parts| - 1] == n
    requires Parse(other).parts != [] && Parse(other).parts[|Parse(other).parts| - 1] == m
    ensures Source(one) == Source(other) <==> n == m
  {
    SourceText(one, n);
    SourceText(other, m);
    hide Source, Parse;
    Middle("/etc/netns/", n, "/resolv.conf");
    Middle("/etc/netns/", m, "/resolv.conf");
  }

  lemma Middle(a: string, b: string, c: string)
    ensures var s := a + b + c; |s| == |a| + |b| + |c| && s[|a|..|s| - |c|] == b
  {
  }

  // ----- the command line -----

  /** The words of the daemon's own command line: those behind an old guard, or all of them. */
  function DaemonWords(words: seq<string>): seq<string> {
    if |words| >= 6 && words[1] == "tailscale-resolver-exec" then words[5..] else words
  }

  lemma ParsedIsDaemon(p: Parser)
    requires Finish(p).Some?
    ensures [Finish(p).value.daemon] + Finish(p).value.args == DaemonWords(Fields(p.execStarts[0]))
    ensures Finish(p).value.namespace == p.namespace
  {
    hide Fields, CleanAbs;
    var words := Fields(p.execStarts[0]);
    assert |words| >= 6 ==> words[5..] == [words[5]] + words[6..];
    assert words != [] ==> words == [words[0]] + words[1..];
  }

  lemma ReadOnce(unit: seq<string>, catchBin: string)
    requires Accepted(unit, catchBin)
    ensures var (p, parsed, d) := Read(unit, catchBin);
            ConsumeAll(START, unit) == Some(p) && Finish(p) == Some(parsed)
  {
  }

  /** Whatever is accepted and readable ends as a unit in which the guard is applied. */
  lemma NextApplied(unit: seq<string>, catchBin: string)
    requires Accepted(unit, catchBin) && Readable(Read(unit, catchBin).1, catchBin)
    ensures EnsureIsolation(unit, catchBin).Done?
    ensures var next, d := EnsureIsolation(unit, catchBin).unit, Read(unit, catchBin).2;
            ConsumeAll(START, next).Some? && AlreadyApplied(d, next, ConsumeAll(START, next).value)
  {
    FirstApplication(unit, catchBin);
    ReadOnce(unit, catchBin);
    var (p, parsed, d) := Read(unit, catchBin);
    hide EnsureIsolation, ConsumeAll, RewriteLines, AlreadyApplied, Accepted, Finish;
    if !AlreadyApplied(d, unit, p) {
      SecondReads(unit, catchBin);
    }
  }

  lemma NextAccepted(unit: seq<string>, catchBin: string)
    requires Accepted(unit, catchBin) && Readable(Read(unit, catchBin).1, catchBin)
    ensures EnsureIsolation(unit, catchBin).Done?
    ensures var next := EnsureIsolation(unit, catchBin).unit;
            && EnsureIsolation(next, catchBin) == Done(next, false) && Accepted(next, catchBin)
            && Read(next, catchBin).1 == Read(unit, catchBin).1
  {
    ReadableIsFixpoint(unit, catchBin);
    var next := EnsureIsolation(unit, catchBin).unit;
    ParsesTo(unit, catchBin);
    AcceptedIsDone(next, catchBin);
    ParsesTo(next, catchBin);
  }

  /** The written unit has one command line: Catch, the guard, the resolver file of the
      namespace, and the daemon's own command line as it was. The unit is conditional on that
      daemon, and its mounts are private. */
  lemma WrittenUnit(unit: seq<string>, catchBin: string, n: string)
    requires Accepted(unit, catchBin) && Readable(Read(unit, catchBin).1, catchBin)
    requires var names := Parse(Read(unit, catchBin).0.namespace).parts; names != [] && names[|names| - 1] == n
    ensures EnsureIsolation(unit, catchBin).Done?
    ensures ConsumeAll(START, EnsureIsolation(unit, catchBin).unit).Some?
    ensures var before := Read(unit, catchBin).0;
            var after := ConsumeAll(START, EnsureIsolation(unit, catchBin).unit).value;
            && |before.execStarts| == |after.execStarts| == 1
            && var own := DaemonWords(Fields(before.execStarts[0]));
               && own != []
               && Fields(after.execStarts[0]) ==
                  [catchBin, "tailscale-resolver-exec", "--source", "/etc/netns/" + n + "/resolv.conf", "--"] + own
               && after.conditions == ["ConditionFileIsExecutable=" + own[0]] && after.conditionsOutside == []
               && after.privateMounts == ["PrivateMounts=yes"]
               && after.bindPaths == [] && after.bindReadOnlyPaths == []
  {
    ReadFacts(unit, catchBin);
    ReadOnce(unit, catchBin);
    NextApplied(unit, catchBin);
    NextAccepted(unit, catchBin);
    ParsesTo(unit, catchBin);
    var (p, parsed, d) := Read(unit, catchBin);
    var next := EnsureIsolation(unit, catchBin).unit;
    CommandLineIsOwn(next, catchBin);
    ReadOnce(next, catchBin);
    hide Accepted, Read, EnsureIsolation, ConsumeAll, Finish, Source, Fields, Join, Readable, Parse, Neat, NeatWords;
    hide AlreadyApplied, DirectivesFor, GuardedArgs, ValidCatch, CleanAbs, Placed;
    ParsedIsDaemon(p);
    Meant(p, parsed, d, catchBin, next, ConsumeAll(START, next).value, n);
  }

  lemma Meant(p: Parser, parsed: Parsed, d: Directives, catchBin: string, next: seq<string>, q: Parser, n: string)
    requires NeatWords(parsed) && NoQuote(parsed.namespace) && CleanAbs(parsed.namespace) && ValidCatch(catchBin)
    requires Readable(parsed, catchBin) && d == DirectivesFor(parsed, catchBin) && AlreadyApplied(d, next, q)
    requires var names := Parse(parsed.namespace).parts; names != [] && names[|names| - 1] == n
    requires q.execStarts == [Join(GuardedArgs(parsed, catchBin))]
    ensures Fields(q.execStarts[0]) ==
            [catchBin, "tailscale-resolver-exec", "--source", "/etc/netns/" + n + "/resolv.conf", "--"] +
            ([parsed.daemon] + parsed.args)
    ensures q.conditions == ["ConditionFileIsExecutable=" + parsed.daemon] && q.conditionsOutside == []
    ensures q.privateMounts == ["PrivateMounts=yes"] && q.bindPaths == [] && q.bindReadOnlyPaths == []
  {
    hide Source, Fields, Join, Readable, Parse, NeatWords, ValidCatch, CleanAbs, HasDirective, GuardedArgs;
    GuardedWords(parsed, catchBin);
    SourceText(parsed.namespace, n);
    DirectiveText(parsed, catchBin, n);
    GuardedText(GuardedArgs(parsed, catchBin));
  }

  lemma DirectiveText(p: Parsed, catchBin: string, n: string)
    requires Source(p.namespace) == "/etc/netns/" + n + "/resolv.conf"
    ensures GuardedArgs(p, catchBin) ==
            [catchBin, "tailscale-resolver-exec", "--source", "/etc/netns/" + n + "/resolv.conf", "--"] +
            ([p.daemon] + p.args)
    ensures DirectivesFor(p, catchBin).condition == "ConditionFileIsExecutable=" + p.daemon
  {
    hide Source, Join;
  }

  // ----- what is read -----

  predicate IsHeader(t: string) {
    |t| > 0 && t[0] == '[' && t[|t| - 1] == ']'
  }

  /** The section of the line behind the first n. */
  function SectionAt(lines: seq<string>, n: nat): string
    requires n <= |lines|
  {
    if n == 0 then "" else if IsHeader(Trim(lines[n - 1])) then Trim(lines[n - 1]) else SectionAt(lines, n - 1)
  }

  /** The first n lines that set something, in a section or outside of it. */
  function Settings(lines: seq<string>, n: nat, name: string, section: string, within: bool): seq<string>
    requires n <= |lines|
  {
    if n == 0 then []
    else
      var t := Trim(lines[n - 1]);
      Settings(lines, n - 1, name, section, within) +
      if name <= t && (SectionAt(lines, n - 1) == section) == within then [t] else []
  }

  function Value(name: string, t: string): string {
    if name <= t then Trim(t[|name|..]) else ""
  }

  /** A line the parser takes, by the section it stands in. */
  predicate Fine(t: string, section: string) {
    && (t == "" || t[|t| - 1] != '\\')
    && (t == "" || t[0] == '#' || t[0] == ';' || IsHeader(t) ||
        ('"' !in t && '\'' !in t && ("ExecStart=" <= t ==> section == "[Service]")
         && ("ProtectSystem=" <= t ==> section != "[Service]")))
  }

  predicate AtMostOne(lines: seq<string>, n: nat, name: string)
    requires n <= |lines|
  {
    |Settings(lines, n, name, "[Service]", true)| <= 1
  }

  predicate AllFine(lines: seq<string>, n: nat)
    requires n <= |lines|
  {
    && (forall i :: 0 <= i < n ==> Fine(Trim(lines[i]), SectionAt(lines, i)))
    && AtMostOne(lines, n, "NetworkNamespacePath=") && AtMostOne(lines, n, "EnvironmentFile=")
    && AtMostOne(lines, n, "WorkingDirectory=")
  }

  /** The names of the settings that are looked at. */
  const NAMES: seq<string> :=
    [EXEC, CONDITION, NAMESPACE, ENVIRONMENT, DIRECTORY, BIND, BIND_READ_ONLY, PRIVATE, PROTECT]

  lemma PrefixIs(t: string, name: string)
    ensures HasPrefix(t, name) <==> name <= t
  {
  }

  /** No line has two of the names, and a line that has one is no comment and no header. */
  lemma OneName(t: string, i: nat, j: nat)
    requires i < |NAMES| && j < |NAMES| && NAMES[i] <= t && NAMES[j] <= t
    ensures i == j && !Ignored(t) && !IsHeader(t)
  {
    var a, b := NAMES[i], NAMES[j];
    assert a[0] == t[0] == b[0] && a[1] == t[1] == b[1] && a[2] == t[2] == b[2];
    assert |a| > 4 && |b| > 4 && a[4] == t[4] == b[4];
  }

  /** The fields of the parser, by name. */
  predicate Reads(p: Parser, lines: seq<string>, n: nat)
    requires n <= |lines|
  {
    && p.section == SectionAt(lines, n)
    && ReadsCommands(p, lines, n)
    && ReadsOne(p.namespace, p.namespaces, Settings(lines, n, "NetworkNamespacePath=", "[Service]", true),
                "NetworkNamespacePath=")
    && ReadsOne(p.environmentFile, p.environmentFiles, Settings(lines, n, "EnvironmentFile=", "[Service]", true),
                "EnvironmentFile=")
    && ReadsOne(p.workingDirectory, p.workingDirectories, Settings(lines, n, "WorkingDirectory=", "[Service]", true),
                "WorkingDirectory=")
    && p.conditions == Settings(lines, n, "ConditionFileIsExecutable=", "[Unit]", true)
    && p.conditionsOutside == Settings(lines, n, "ConditionFileIsExecutable=", "[Unit]", false)
    && p.bindPaths == Settings(lines, n, "BindPaths=", "[Service]", true)
    && p.bindReadOnlyPaths == Settings(lines, n, "BindReadOnlyPaths=", "[Service]", true)
    && p.privateMounts == Settings(lines, n, "PrivateMounts=", "[Service]", true)
    && (p.mountsOutside == [] <==>
          && Settings(lines, n, "BindPaths=", "[Service]", false) == []
          && Settings(lines, n, "BindReadOnlyPaths=", "[Service]", false) == []
          && Settings(lines, n, "PrivateMounts=", "[Service]", false) == [])
  }

  predicate ReadsCommands(p: Parser, lines: seq<string>, n: nat)
    requires n <= |lines|
  {
    var commands := Settings(lines, n, "ExecStart=", "[Service]", true);
    && |p.execStarts| == |commands|
    && forall i :: 0 <= i < |commands| ==> p.execStarts[i] == Value("ExecStart=", commands[i])
  }

  predicate ReadsOne(value: string, count: nat, found: seq<string>, name: string) {
    count == |found| <= 1 && (found != [] ==> value == Value(name, found[0]))
  }

  /** What one line adds to the settings of a name. */
  function Adds(t: string, name: string, inside: bool): seq<string> {
    if name <= t && inside then [t] else []
  }

  lemma SettingsNext(lines: seq<string>, n: nat, name: string, section: string, within: bool)
    requires n < |lines|
    ensures Settings(lines, n + 1, name, section, within) ==
            Settings(lines, n, name, section, within) +
            Adds(Trim(lines[n]), name, (SectionAt(lines, n) == section) == within)
  {
  }

  lemma NameAt(k: nat)
    requires k < |NAMES|
    ensures NAMES[k] == match k
            case 0 => "ExecStart=" case 1 => "ConditionFileIsExecutable=" case 2 => "NetworkNamespacePath="
            case 3 => "EnvironmentFile=" case 4 => "WorkingDirectory=" case 5 => "BindPaths="
            case 6 => "BindReadOnlyPaths=" case 7 => "PrivateMounts=" case _ => "ProtectSystem="
  {
  }

  /** The name a line begins with; |NAMES|: none. */
  function NameOf(t: string): (k: nat)
    ensures k <= |NAMES| && (k < |NAMES| ==> NAMES[k] <= t)
    ensures k == |NAMES| ==> forall i :: 0 <= i < |NAMES| ==> !(NAMES[i] <= t)
  {
    if EXEC <= t then 0 else if CONDITION <= t then 1 else if NAMESPACE <= t then 2 else if ENVIRONMENT <= t then 3
    else if DIRECTORY <= t then 4 else if BIND <= t then 5 else if BIND_READ_ONLY <= t then 6
    else if PRIVATE <= t then 7 else if PROTECT <= t then 8 else 9
  }

  lemma NamesDecided(t: string)
    ensures forall i :: 0 <= i < |NAMES| ==> (NAMES[i] <= t <==> i == NameOf(t))
    ensures NameOf(t) < |NAMES| ==> !Ignored(t) && !IsHeader(t)
  {
    if NameOf(t) < |NAMES| {
      OneName(t, NameOf(t), NameOf(t));
    }
    forall i | 0 <= i < |NAMES| && NAMES[i] <= t ensures i == NameOf(t) {
      OneName(t, i, NameOf(t));
    }
  }

  /** What the parser does with a line that has the k-th name, or none. */
  function ConsumeNamed(p: Parser, t: string, k: nat): Option<Parser>
    requires k < |NAMES| ==> NAMES[k] <= t
  {
    var inside := p.section == "[Service]";
    match k
    case 0 => if inside then Some(p.(execStarts := p.execStarts + [Value("ExecStart=", t)])) else None
    case 1 => Some(if p.section == "[Unit]" then p.(conditions := p.conditions + [t])
                   else p.(conditionsOutside := p.conditionsOutside + [t]))
    case 2 => if !inside then Some(p) else if p.namespaces != 0 then None
              else Some(p.(namespace := Value("NetworkNamespacePath=", t), namespaces := 1))
    case 3 => if !inside then Some(p) else if p.environmentFiles != 0 then None
              else Some(p.(environmentFile := Value("EnvironmentFile=", t), environmentFiles := 1))
    case 4 => if !inside then Some(p) else if p.workingDirectories != 0 then None
              else Some(p.(workingDirectory := Value("WorkingDirectory=", t), workingDirectories := 1))
    case 5 => Some(if inside then p.(bindPaths := p.bindPaths + [t]) else p.(mountsOutside := p.mountsOutside + [t]))
    case 6 => Some(if inside then p.(bindReadOnlyPaths := p.bindReadOnlyPaths + [t])
                   else p.(mountsOutside := p.mountsOutside + [t]))
    case 7 => Some(if inside then p.(privateMounts := p.privateMounts + [t])
                   else p.(mountsOutside := p.mountsOutside + [t]))
    case 8 => if inside then None else Some(p)
    case _ => Some(p)
  }

  lemma HeaderIs(t: string)
    ensures IsHeader(t) <==> IsSection(t)
  {
    if IsHeader(t) {
      assert t[..1] == "[";
    }
  }

  lemma ConsumeByName(p: Parser, t: string)
    ensures Consume(p, t) ==
            if t != "" && t[|t| - 1] == '\\' then None
            else if t == "" || t[0] == '#' || t[0] == ';' then Some(p)
            else if IsHeader(t) then Some(p.(section := t))
            else if '"' in t || '\'' in t then None
            else ConsumeNamed(p, t, NameOf(t))
  {
    NamesDecided(t);
    HeaderIs(t);
    NamesPrefix(t);
    hide HasPrefix, IsHeader, IsSection;
  }

  lemma NamesPrefix(t: string)
    ensures HasPrefix(t, EXEC) == (NameOf(t) == 0) && HasPrefix(t, CONDITION) == (NameOf(t) == 1)
    ensures HasPrefix(t, NAMESPACE) == (NameOf(t) == 2) && HasPrefix(t, ENVIRONMENT) == (NameOf(t) == 3)
    ensures HasPrefix(t, DIRECTORY) == (NameOf(t) == 4) && HasPrefix(t, BIND) == (NameOf(t) == 5)
    ensures HasPrefix(t, BIND_READ_ONLY) == (NameOf(t) == 6) && HasPrefix(t, PRIVATE) == (NameOf(t) == 7)
    ensures HasPrefix(t, PROTECT) == (NameOf(t) == 8)
  {
    NamesDecided(t);
    forall i | 0 <= i < |NAMES| ensures HasPrefix(t, NAMES[i]) == (NameOf(t) == i) {
      PrefixIs(t, NAMES[i]);
    }
    assert NAMES[0] == EXEC && NAMES[1] == CONDITION && NAMES[2] == NAMESPACE && NAMES[3] == ENVIRONMENT;
    assert NAMES[4] == DIRECTORY && NAMES[5] == BIND && NAMES[6] == BIND_READ_ONLY && NAMES[7] == PRIVATE;
    assert NAMES[8] == PROTECT;
  }

  /** Whether a line that may be taken repeats a setting that must be unique. */
  predicate Repeats(p: Parser, t: string) {
    && p.section == "[Service]"
    && (("NetworkNamespacePath=" <= t && p.namespaces != 0) || ("EnvironmentFile=" <= t && p.environmentFiles != 0)
        || ("WorkingDirectory=" <= t && p.workingDirectories != 0))
  }

  lemma NamesSpelled(t: string)
    ensures ("ExecStart=" <= t <==> NameOf(t) == 0) && ("ConditionFileIsExecutable=" <= t <==> NameOf(t) == 1)
    ensures ("NetworkNamespacePath=" <= t <==> NameOf(t) == 2) && ("EnvironmentFile=" <= t <==> NameOf(t) == 3)
    ensures ("WorkingDirectory=" <= t <==> NameOf(t) == 4) && ("BindPaths=" <= t <==> NameOf(t) == 5)
    ensures ("BindReadOnlyPaths=" <= t <==> NameOf(t) == 6) && ("PrivateMounts=" <= t <==> NameOf(t) == 7)
    ensures ("ProtectSystem=" <= t <==> NameOf(t) == 8)
    ensures NameOf(t) < |NAMES| ==> t != "" && t[0] != '#' && t[0] != ';' && !IsHeader(t)
  {
    NamesDecided(t);
    forall i | 0 <= i < |NAMES| ensures NAMES[i] <= t <==> NameOf(t) == i {
    }
    NameAt(0); NameAt(1); NameAt(2); NameAt(3); NameAt(4); NameAt(5); NameAt(6); NameAt(7); NameAt(8);
  }

  lemma TakenIff(p: Parser, t: string)
    ensures Consume(p, t).Some? <==> Fine(t, p.section) && !Repeats(p, t)
  {
    ConsumeByName(p, t);
    NamesSpelled(t);
    hide Consume, NameOf, IsHeader;
  }

  /** What one line adds to each field. */
  lemma FieldsNext(p: Parser, t: string, q: Parser)
    requires Consume(p, t) == Some(q)
    ensures q.section == if IsHeader(t) then t else p.section
    ensures var service, unit := p.section == "[Service]", p.section == "[Unit]";
            && q.execStarts == p.execStarts + (if "ExecStart=" <= t then [Value("ExecStart=", t)] else [])
            && ("ExecStart=" <= t ==> service)
            && q.conditions == p.conditions + Adds(t, "ConditionFileIsExecutable=", unit)
            && q.conditionsOutside == p.conditionsOutside + Adds(t, "ConditionFileIsExecutable=", !unit)
            && q.bindPaths == p.bindPaths + Adds(t, "BindPaths=", service)
            && q.bindReadOnlyPaths == p.bindReadOnlyPaths + Adds(t, "BindReadOnlyPaths=", service)
            && q.privateMounts == p.privateMounts + Adds(t, "PrivateMounts=", service)
            && (q.mountsOutside == [] <==>
                  && p.mountsOutside == [] && Adds(t, "BindPaths=", !service) == []
                  && Adds(t, "BindReadOnlyPaths=", !service) == [] && Adds(t, "PrivateMounts=", !service) == [])
  {
    ConsumeByName(p, t);
    NamesSpelled(t);
    hide Consume, NameOf, Value;
  }

  lemma OnesNext(p: Parser, t: string, q: Parser)
    requires Consume(p, t) == Some(q)
    ensures var service := p.section == "[Service]";
            && OneNext(p.namespace, p.namespaces, t, q.namespace, q.namespaces, "NetworkNamespacePath=", service)
            && OneNext(p.environmentFile, p.environmentFiles, t, q.environmentFile, q.environmentFiles,
                       "EnvironmentFile=", service)
            && OneNext(p.workingDirectory, p.workingDirectories, t, q.workingDirectory, q.workingDirectories,
                       "WorkingDirectory=", service)
  {
    ConsumeByName(p, t);
    NamesSpelled(t);
    hide Consume, NameOf, IsHeader, Value;
  }

  predicate OneNext(value: string, count: nat, t: string, value': string, count': nat, name: string, inside: bool) {
    if name <= t && inside then count == 0 && count' == 1 && value' == Value(name, t)
    else value' == value && count' == count
  }

  lemma ReadsOneNext(value: string, count: nat, value': string, count': nat, lines: seq<string>, n: nat, name: string)
    requires n < |lines| && ReadsOne(value, count, Settings(lines, n, name, "[Service]", true), name)
    requires OneNext(value, count, Trim(lines[n]), value', count', name, SectionAt(lines, n) == "[Service]")
    ensures ReadsOne(value', count', Settings(lines, n + 1, name, "[Service]", true), name)
  {
    SettingsNext(lines, n, name, "[Service]", true);
    hide Settings, SectionAt, Value;
  }

  lemma CommandsNext(p: Parser, q: Parser, lines: seq<string>, n: nat)
    requires n < |lines| && ReadsCommands(p, lines, n) && p.section == SectionAt(lines, n)
    requires var t := Trim(lines[n]);
             && q.execStarts == p.execStarts + (if "ExecStart=" <= t then [Value("ExecStart=", t)] else [])
             && ("ExecStart=" <= t ==> p.section == "[Service]")
    ensures ReadsCommands(q, lines, n + 1)
  {
    SettingsNext(lines, n, "ExecStart=", "[Service]", true);
    hide Settings, SectionAt, Value;
  }

  lemma ReadsNext(p: Parser, q: Parser, lines: seq<string>, n: nat)
    requires n < |lines| && Reads(p, lines, n) && Consume(p, Trim(lines[n])) == Some(q)
    ensures Reads(q, lines, n + 1)
  {
    FieldsNext(p, Trim(lines[n]), q);
    OnesNext(p, Trim(lines[n]), q);
    CommandsNext(p, q, lines, n);
    ReadsOneNext(p.namespace, p.namespaces, q.namespace, q.namespaces, lines, n, "NetworkNamespacePath=");
    ReadsOneNext(p.environmentFile, p.environmentFiles, q.environmentFile, q.environmentFiles, lines, n,
                 "EnvironmentFile=");
    ReadsOneNext(p.workingDirectory, p.workingDirectories, q.workingDirectory, q.workingDirectories, lines, n,
                 "WorkingDirectory=");
    SettingsNext(lines, n, "ConditionFileIsExecutable=", "[Unit]", true);
    SettingsNext(lines, n, "ConditionFileIsExecutable=", "[Unit]", false);
    SettingsNext(lines, n, "BindPaths=", "[Service]", true);
    SettingsNext(lines, n, "BindReadOnlyPaths=", "[Service]", true);
    SettingsNext(lines, n, "PrivateMounts=", "[Service]", true);
    SettingsNext(lines, n, "BindPaths=", "[Service]", false);
    SettingsNext(lines, n, "BindReadOnlyPaths=", "[Service]", false);
    SettingsNext(lines, n, "PrivateMounts=", "[Service]", false);
    assert SectionAt(lines, n + 1) == q.section;
    hide Consume, Settings, SectionAt, ReadsOne, ReadsCommands, OneNext, Adds, IsHeader, Value;
  }

  lemma SettingsGrow(lines: seq<string>, n: nat, name: string)
    requires n < |lines|
    ensures |Settings(lines, n, name, "[Service]", true)| <= |Settings(lines, n + 1, name, "[Service]", true)|
  {
  }

  lemma RepeatsIff(p: Parser, lines: seq<string>, n: nat)
    requires n < |lines| && Reads(p, lines, n)
    ensures Repeats(p, Trim(lines[n])) <==>
            !(AtMostOne(lines, n + 1, "NetworkNamespacePath=") && AtMostOne(lines, n + 1, "EnvironmentFile=")
              && AtMostOne(lines, n + 1, "WorkingDirectory="))
  {
    SettingsNext(lines, n, "NetworkNamespacePath=", "[Service]", true);
    SettingsNext(lines, n, "EnvironmentFile=", "[Service]", true);
    SettingsNext(lines, n, "WorkingDirectory=", "[Service]", true);
    hide Settings, SectionAt, ReadsCommands, Value;
  }

  lemma AllFineNext(lines: seq<string>, n: nat)
    requires n < |lines|
    ensures AllFine(lines, n + 1) <==>
            && AllFine(lines, n) && Fine(Trim(lines[n]), SectionAt(lines, n))
            && AtMostOne(lines, n + 1, "NetworkNamespacePath=") && AtMostOne(lines, n + 1, "EnvironmentFile=")
            && AtMostOne(lines, n + 1, "WorkingDirectory=")
  {
    SettingsGrow(lines, n, "NetworkNamespacePath=");
    SettingsGrow(lines, n, "EnvironmentFile=");
    SettingsGrow(lines, n, "WorkingDirectory=");
    hide Fine, Settings, SectionAt;
  }

  lemma LineMeaning(p: Parser, lines: seq<string>, n: nat)
    requires n < |lines| && Reads(p, lines, n)
    ensures Consume(p, Trim(lines[n])).Some? <==>
            && Fine(Trim(lines[n]), SectionAt(lines, n))
            && AtMostOne(lines, n + 1, "NetworkNamespacePath=") && AtMostOne(lines, n + 1, "EnvironmentFile=")
            && AtMostOne(lines, n + 1, "WorkingDirectory=")
    ensures Consume(p, Trim(lines[n])).Some? ==> Reads(Consume(p, Trim(lines[n])).value, lines, n + 1)
  {
    TakenIff(p, Trim(lines[n]));
    RepeatsIff(p, lines, n);
    assert p.section == SectionAt(lines, n);
    hide Consume, Reads, Repeats, Fine, AtMostOne;
    if Consume(p, Trim(lines[n])).Some? {
      ReadsNext(p, Consume(p, Trim(lines[n])).value, lines, n);
    }
  }

  lemma ReadsStart(lines: seq<string>)
    ensures ConsumeAll(START, lines[..0]) == Some(START) && AllFine(lines, 0) && Reads(START, lines, 0)
  {
  }

  lemma ConsumeNextLine(lines: seq<string>, n: nat)
    requires n < |lines|
    ensures ConsumeAll(START, lines[..n + 1]) ==
            match ConsumeAll(START, lines[..n]) case None => None case Some(p) => Consume(p, Trim(lines[n]))
  {
    hide Consume, ConsumeAll;
    assert lines[..n + 1] == lines[..n] + [lines[n]];
    ConsumeConcat(START, lines[..n], [lines[n]]);
    if ConsumeAll(START, lines[..n]).Some? {
      ConsumeOne(ConsumeAll(START, lines[..n]).value, lines[n]);
    }
  }

  /** A unit is taken exactly when each of its lines is fine in its section and nothing unique
      is set twice, and every field then holds what the lines of its name and section say. */
  lemma {:induction false} ParserMeaning(lines: seq<string>, n: nat)
    requires n <= |lines|
    ensures ConsumeAll(START, lines[..n]).Some? <==> AllFine(lines, n)
    ensures ConsumeAll(START, lines[..n]).Some? ==> Reads(ConsumeAll(START, lines[..n]).value, lines, n)
  {
    hide Consume, ConsumeAll, Reads, AllFine, AtMostOne, Fine;
    if n == 0 {
      ReadsStart(lines);
    } else {
      ParserMeaning(lines, n - 1);
      ConsumeNextLine(lines, n - 1);
      AllFineNext(lines, n - 1);
      if ConsumeAll(START, lines[..n - 1]).Some? {
        LineMeaning(ConsumeAll(START, lines[..n - 1]).value, lines, n - 1);
      }
    }
  }

  // ----- which units are accepted -----

  /** The command line of a unit that is accepted: an absolute clean program, and behind an old
      guard the shape the guard has. */
  predicate CommandFits(words: seq<string>) {
    && words != [] && CleanAbs(words[0])
    && (|words| >= 6 && words[1] == "tailscale-resolver-exec" ==>
          words[2] == "--source" && CleanAbs(words[3]) && words[4] == "--" && CleanAbs(words[5]))
  }

  /** Conditions and mounts that the unit may already have: the guard's own. */
  predicate OnlyOwn(p: Parser, daemon: string, source: string) {
    && (forall c :: c in p.conditions + p.conditionsOutside ==> c == "ConditionFileIsExecutable=" + daemon)
    && p.mountsOutside == []
    && (forall b :: b in p.bindPaths ==> b == "BindPaths=" + source + ":/etc/resolv.conf")
    && (forall b :: b in p.bindReadOnlyPaths ==> b == "BindReadOnlyPaths=" + source + ":/etc/resolv.conf")
    && (forall m :: m in p.privateMounts ==> m == "PrivateMounts=yes")
  }

  predicate Complete(p: Parser) {
    && |p.execStarts| == 1 && CommandFits(Fields(p.execStarts[0]))
    && p.namespaces == 1 && p.namespace != "" && CleanAbs(p.namespace)
    && p.environmentFiles == 1 && p.environmentFile != ""
    && p.workingDirectories == 1 && p.workingDirectory != ""
  }

  /** The guard is applied exactly to units that can be read, with one fitting command line, one
      clean namespace, an environment file and a directory, whose conditions and mounts are the
      guard's own. */
  lemma AppliedIff(unit: seq<string>, catchBin: string)
    ensures EnsureIsolation(unit, catchBin).Done? <==>
            && ValidCatch(catchBin) && AllFine(unit, |unit|) && ConsumeAll(START, unit).Some?
            && var p := ConsumeAll(START, unit).value;
               && Reads(p, unit, |unit|) && Complete(p)
               && OnlyOwn(p, DaemonWords(Fields(p.execStarts[0]))[0], Source(p.namespace))
  {
    assert unit[..|unit|] == unit;
    ParserMeaning(unit, |unit|);
    AcceptedIsDone(unit, catchBin);
    hide EnsureIsolation, ConsumeAll, AllFine, ValidCatch, Source, Reads, Finish, Complete, OnlyOwn, Fields;
    hide DaemonWords, ValidConditions, ValidMounts, DirectivesFor;
    if ConsumeAll(START, unit).Some? {
      FinishedIff(ConsumeAll(START, unit).value);
      var p := ConsumeAll(START, unit).value;
      if Finish(p).Some? {
        OwnIff(p, catchBin);
      }
    }
  }

  lemma OwnIff(p: Parser, catchBin: string)
    requires Finish(p).Some?
    ensures Complete(p)
    ensures var d := DirectivesFor(Finish(p).value, catchBin);
            ValidConditions(d, p) && ValidMounts(d, p) <==>
            OnlyOwn(p, DaemonWords(Fields(p.execStarts[0]))[0], Source(p.namespace))
  {
    FinishedIff(p);
    ParsedIsDaemon(p);
    hide Finish, Fields, Source, DaemonWords;
    DirectivesSpelled(Finish(p).value, catchBin);
    hide DirectivesFor;
    assert DaemonWords(Fields(p.execStarts[0]))[0] == Finish(p).value.daemon;
  }

  lemma FinishedIff(p: Parser)
    ensures Finish(p).Some? <==> Complete(p)
  {
    hide Fields, CleanAbs;
  }

  lemma DirectivesSpelled(p: Parsed, catchBin: string)
    ensures var d := DirectivesFor(p, catchBin);
            && d.condition == "ConditionFileIsExecutable=" + p.daemon
            && d.writableBind == "BindPaths=" + Source(p.namespace) + ":/etc/resolv.conf"
            && d.readOnlyBind == "BindReadOnlyPaths=" + Source(p.namespace) + ":/etc/resolv.conf"
  {
    hide Source, Join, GuardedArgs;
  }

  // ----- where the inserted lines stand -----

  /** One line stands directly in front of another kind of line. */
  predicate Follows(lines: seq<string>, i: nat, one: string, next: string) {
    i + 1 < |lines| && one <= Trim(lines[i]) && next <= Trim(lines[i + 1])
  }

  lemma FollowsIn(a: seq<string>, b: seq<string>, c: seq<string>, i: nat, one: string, next: string)
    requires Follows(b, i, one, next)
    ensures Follows(a + b + c, |a| + i, one, next)
  {
    assert (a + b + c)[|a| + i] == b[i] && (a + b + c)[|a| + i + 1] == b[i + 1];
  }

  /** The private mount stands directly behind the namespace. */
  lemma {:induction false} PrivateFollows(d: Directives, r: Rewriter, lines: seq<string>)
    requires !r.insertedResolver && RewriteLines(d, r, lines).1.insertedResolver
    ensures exists i: nat :: Follows(RewriteLines(d, r, lines).0, i, "NetworkNamespacePath=", "PrivateMounts=yes")
    decreases |lines|
  {
    hide Advanced;
    var line := lines[0];
    var t, section := Trim(line), SectionAfter(r, Trim(line));
    var rest := RewriteLines(d, Advanced(d, r, line), lines[1..]).0;
    assert RewriteLines(d, r, lines).0 == Ahead(d, r, t) + Body(d, r, line) + rest;
    NamespaceDecides(d, r, line);
    if Advanced(d, r, line).insertedResolver {
      FollowsIn(Ahead(d, r, t), Body(d, r, line), rest, 0, "NetworkNamespacePath=", "PrivateMounts=yes");
    } else {
      PrivateFollows(d, Advanced(d, r, line), lines[1..]);
      var i: nat :| Follows(rest, i, "NetworkNamespacePath=", "PrivateMounts=yes");
      var before := Ahead(d, r, t) + Body(d, r, line);
      FollowsIn(before, rest, [], i, "NetworkNamespacePath=", "PrivateMounts=yes");
      assert before + rest + [] == before + rest;
    }
  }

  lemma NamespaceDecides(d: Directives, r: Rewriter, line: string)
    requires !r.insertedResolver
    ensures Advanced(d, r, line).insertedResolver ==>
              Follows(Body(d, r, line), 0, "NetworkNamespacePath=", "PrivateMounts=yes")
  {
    if Advanced(d, r, line).insertedResolver {
      assert Body(d, r, line) == [line] + [PRIVATE_YES];
      assert Tidy(PRIVATE_YES);
      TidyTrims(PRIVATE_YES);
    }
  }

  /** The condition stands directly in front of the service section. */
  lemma {:induction false} ConditionPrecedes(d: Directives, r: Rewriter, lines: seq<string>)
    requires !r.insertedCondition && RewriteLines(d, r, lines).1.insertedCondition && Placed(d)
    ensures exists i: nat :: Follows(RewriteLines(d, r, lines).0, i, d.condition, "[Service]")
    decreases |lines|
  {
    var line := lines[0];
    var t, rest := Trim(line), RewriteLines(d, Advanced(d, r, line), lines[1..]).0;
    assert RewriteLines(d, r, lines).0 == Ahead(d, r, t) + Body(d, r, line) + rest;
    if t == SERVICE {
      ServiceStays(d, r, line);
      var head := if r.section != UNIT then [UNIT] else [];
      assert Ahead(d, r, t) + Body(d, r, line) + rest == head + [d.condition, line] + rest;
      TidyTrims(d.condition);
      FollowsIn(head, [d.condition, line], rest, 0, d.condition, "[Service]");
    } else {
      ConditionPrecedes(d, Advanced(d, r, line), lines[1..]);
      var i: nat :| Follows(rest, i, d.condition, "[Service]");
      var before := Ahead(d, r, t) + Body(d, r, line);
      FollowsIn(before, rest, [], i, d.condition, "[Service]");
      assert before + rest + [] == before + rest;
    }
  }

  lemma ServiceStays(d: Directives, r: Rewriter, line: string)
    requires Trim(line) == SERVICE && Placed(d)
    ensures Body(d, r, line) == [line]
  {
    PrefixesDiffer(SERVICE);
    PrefixesDiffer(d.writableBind);
    PrefixesDiffer(d.readOnlyBind);
    ServiceIsSection();
    assert SERVICE != PRIVATE_YES;
  }

  /** Where a unit is rewritten, the condition stands directly in front of the service section
      and the private mount directly behind the namespace. */
  lemma InsertedInPlace(unit: seq<string>, catchBin: string)
    requires EnsureIsolation(unit, catchBin).Done? && EnsureIsolation(unit, catchBin).changed
    ensures Accepted(unit, catchBin)
    ensures var next := EnsureIsolation(unit, catchBin).unit;
            && (exists i: nat :: Follows(next, i, "NetworkNamespacePath=", "PrivateMounts=yes"))
            && (exists i: nat ::
                  Follows(next, i, "ConditionFileIsExecutable=" + Read(unit, catchBin).1.daemon, "[Service]"))
  {
    AcceptedIsDone(unit, catchBin);
    FirstApplication(unit, catchBin);
    ReadFacts(unit, catchBin);
    var (p, parsed, d) := Read(unit, catchBin);
    BothInserted(d, START, FRESH, unit);
    ParsesTo(unit, catchBin);
    hide EnsureIsolation, RewriteLines, Accepted, Read, AlreadyApplied, NeatWords, Neat;
    DirectivesSpelled(parsed, catchBin);
    PrivateFollows(d, FRESH, unit);
    ConditionPrecedes(d, FRESH, unit);
  }
}
