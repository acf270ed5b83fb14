/** Rewriting the systemd unit of a service's Tailscale daemon so that it runs behind the
    resolver guard. A unit is the list of its lines. */
module ResolverUnit {
  import opened Artifacts
  import opened Paths
  import opened Words

  // ----- parsing -----

  datatype Parser = Parser(
    section: string, execStarts: seq<string>,
    namespace: string, namespaces: nat, environmentFile: string, environmentFiles: nat,
    workingDirectory: string, workingDirectories: nat,
    conditions: seq<string>, conditionsOutside: seq<string>,
    bindPaths: seq<string>, bindReadOnlyPaths: seq<string>, privateMounts: seq<string>, mountsOutside: seq<string>)

  const START := Parser("", [], "", 0, "", 0, "", 0, [], [], [], [], [], [])

  const SERVICE := "[Service]"
  const UNIT := "[Unit]"
  const EXEC := "ExecStart="
  const CONDITION := "ConditionFileIsExecutable="
  const NAMESPACE := "NetworkNamespacePath="
  const ENVIRONMENT := "EnvironmentFile="
  const DIRECTORY := "WorkingDirectory="
  const BIND := "BindPaths="
  const BIND_READ_ONLY := "BindReadOnlyPaths="
  const PRIVATE := "PrivateMounts="
  const PRIVATE_YES := "PrivateMounts=yes"
  const PROTECT := "ProtectSystem="
  const GUARD := "tailscale-resolver-exec"

  predicate Continued(t: string) {
    EndsWith(t, '\\')
  }

  predicate Ignored(t: string) {
    t == "" || t[0] == '#' || t[0] == ';'
  }

  predicate IsSection(t: string) {
    HasPrefix(t, "[") && EndsWith(t, ']')
  }

  predicate IsMount(t: string) {
    HasPrefix(t, BIND) || HasPrefix(t, BIND_READ_ONLY) || HasPrefix(t, PRIVATE)
  }

  function Rest(t: string, prefix: string): string
    requires HasPrefix(t, prefix)
  {
    Trim(t[|prefix|..])
  }

  /** A directive of the service section; None: the unit is refused. */
  function ServiceDirective(p: Parser, t: string): Option<Parser> {
    if HasPrefix(t, NAMESPACE) then
      if p.namespaces != 0 then None else Some(p.(namespace := Rest(t, NAMESPACE), namespaces := 1))
    else if HasPrefix(t, ENVIRONMENT) then
      if p.environmentFiles != 0 then None else Some(p.(environmentFile := Rest(t, ENVIRONMENT), environmentFiles := 1))
    else if HasPrefix(t, DIRECTORY) then
      if p.workingDirectories != 0 then None
      else Some(p.(workingDirectory := Rest(t, DIRECTORY), workingDirectories := 1))
    else if HasPrefix(t, BIND) then Some(p.(bindPaths := p.bindPaths + [t]))
    else if HasPrefix(t, BIND_READ_ONLY) then Some(p.(bindReadOnlyPaths := p.bindReadOnlyPaths + [t]))
    else if HasPrefix(t, PRIVATE) then Some(p.(privateMounts := p.privateMounts + [t]))
    else if HasPrefix(t, PROTECT) then None
    else Some(p)
  }

  /** One trimmed line. */
  function Consume(p: Parser, t: string): Option<Parser> {
    if Continued(t) then None
    else if Ignored(t) then Some(p)
    else if IsSection(t) then Some(p.(section := t))
    else if !NoQuote(t) then None
    else if HasPrefix(t, CONDITION) then
      Some(if p.section == UNIT then p.(conditions := p.conditions + [t])
           else p.(conditionsOutside := p.conditionsOutside + [t]))
    else if IsMount(t) && p.section != SERVICE then Some(p.(mountsOutside := p.mountsOutside + [t]))
    else if HasPrefix(t, EXEC) then
      if p.section != SERVICE then None else Some(p.(execStarts := p.execStarts + [Rest(t, EXEC)]))
    else if p.section == SERVICE then ServiceDirective(p, t)
    else Some(p)
  }

  function ConsumeAll(p: Parser, lines: seq<string>): Option<Parser>
    decreases |lines|
  {
    if lines == [] then Some(p)
    else
      match Consume(p, Trim(lines[0]))
      case None => None
      case Some(q) => ConsumeAll(q, lines[1..])
  }

  /** What a unit says about the daemon. */
  datatype Parsed = Parsed(daemon: string, args: seq<string>, namespace: string, environmentFile: string,
                           workingDirectory: string)

  predicate CleanAbs(path: string) {
    IsAbs(path) && Render(Parse(path)) == path
  }

  /** The daemon and its arguments, with or without the guard in front. */
  function ParseExec(text: string): Option<(string, seq<string>)> {
    var args := Fields(text);
    if args == [] || !CleanAbs(args[0]) then None
    else if |args| >= 6 && args[1] == GUARD then
      if args[2] == "--source" && args[4] == "--" && CleanAbs(args[3]) && CleanAbs(args[5])
      then Some((args[5], args[6..]))
      else None
    else Some((args[0], args[1..]))
  }

  function Finish(p: Parser): Option<Parsed> {
    if |p.execStarts| != 1 || p.namespaces != 1 || p.namespace == "" || !CleanAbs(p.namespace) then None
    else
      match ParseExec(p.execStarts[0])
      case None => None
      case Some(exec) =>
        if p.environmentFiles != 1 || p.environmentFile == "" || p.workingDirectories != 1 || p.workingDirectory == ""
        then None
        else Some(Parsed(exec.0, exec.1, p.namespace, p.environmentFile, p.workingDirectory))
  }

  function ParseUnit(unit: seq<string>): Option<Parsed> {
    match ConsumeAll(START, unit)
    case None => None
    case Some(p) => Finish(p)
  }

  // ----- the directives of the guard -----

  datatype Directives = Directives(condition: string, execStart: string, writableBind: string, readOnlyBind: string)

  /** The resolver file of the namespace, by its last component. */
  function Source(namespace: string): string {
    var parts := Parse(namespace).parts;
    Render(Path(true, ["etc", "netns"] + parts[if parts == [] then 0 else |parts| - 1..] + ["resolv.conf"]))
  }

  function GuardedArgs(p: Parsed, catchBin: string): seq<string> {
    [catchBin, GUARD, "--source", Source(p.namespace), "--", p.daemon] + p.args
  }

  function DirectivesFor(p: Parsed, catchBin: string): Directives {
    Directives(CONDITION + p.daemon, EXEC + Join(GuardedArgs(p, catchBin)),
               BIND + Source(p.namespace) + ":/etc/resolv.conf",
               BIND_READ_ONLY + Source(p.namespace) + ":/etc/resolv.conf")
  }

  predicate ValidConditions(d: Directives, p: Parser) {
    forall c :: c in p.conditions + p.conditionsOutside ==> c == d.condition
  }

  predicate ValidMounts(d: Directives, p: Parser) {
    && p.mountsOutside == []
    && (forall b :: b in p.bindPaths ==> b == d.writableBind)
    && (forall b :: b in p.bindReadOnlyPaths ==> b == d.readOnlyBind)
    && (forall m :: m in p.privateMounts ==> m == PRIVATE_YES)
  }

  predicate HasDirective(unit: seq<string>, directive: string) {
    exists i :: 0 <= i < |unit| && Trim(unit[i]) == directive
  }

  predicate AlreadyApplied(d: Directives, unit: seq<string>, p: Parser) {
    && p.conditions == [d.condition] && p.conditionsOutside == []
    && HasDirective(unit, d.execStart)
    && p.bindPaths == [] && p.bindReadOnlyPaths == [] && p.privateMounts == [PRIVATE_YES]
  }

  // ----- rewriting -----

  datatype Rewriter = Rewriter(section: string, insertedCondition: bool, insertedResolver: bool)

  const FRESH := Rewriter("", false, false)

  /** What is written in front of the first service section. */
  function Ahead(d: Directives, r: Rewriter, t: string): seq<string> {
    if t != SERVICE || r.insertedCondition then []
    else (if r.section != UNIT then [UNIT] else []) + [d.condition]
  }

  function SectionAfter(r: Rewriter, t: string): string {
    if IsSection(t) then t else r.section
  }

  predicate Resolves(r: Rewriter, section: string, t: string) {
    section == SERVICE && HasPrefix(t, NAMESPACE) && !r.insertedResolver
  }

  predicate Dropped(d: Directives, section: string, t: string) {
    || HasPrefix(t, CONDITION)
    || (section == SERVICE && (t == d.writableBind || t == d.readOnlyBind || t == PRIVATE_YES))
  }

  /** What becomes of one line. */
  function Body(d: Directives, r: Rewriter, line: string): seq<string> {
    var t := Trim(line);
    var section := SectionAfter(r, t);
    if HasPrefix(t, CONDITION) then []
    else if section == SERVICE && HasPrefix(t, EXEC) then [d.execStart]
    else if Dropped(d, section, t) then []
    else [line] + (if Resolves(r, section, t) then [PRIVATE_YES] else [])
  }

  function Emitted(d: Directives, r: Rewriter, line: string): seq<string> {
    Ahead(d, r, Trim(line)) + Body(d, r, line)
  }

  function Advanced(d: Directives, r: Rewriter, line: string): Rewriter {
    var t := Trim(line);
    var section := SectionAfter(r, t);
    var kept := !Dropped(d, section, t) && !(section == SERVICE && HasPrefix(t, EXEC));
    Rewriter(section, r.insertedCondition || t == SERVICE, r.insertedResolver || (kept && Resolves(r, section, t)))
  }

  function RewriteLines(d: Directives, r: Rewriter, lines: seq<string>): (seq<string>, Rewriter)
    decreases |lines|
  {
    if lines == [] then ([], r)
    else
      var (out, last) := RewriteLines(d, Advanced(d, r, lines[0]), lines[1..]);
      (Emitted(d, r, lines[0]) + out, last)
  }

  datatype Outcome = Refused | Done(unit: seq<string>, changed: bool)

  predicate ValidCatch(catchBin: string) {
    CleanAbs(catchBin) && Parse(catchBin).parts != [] && Parse(catchBin).parts[|Parse(catchBin).parts| - 1] == "catch"
  }

  /** Puts the daemon behind the guard, unless it is already. */
  function EnsureIsolation(unit: seq<string>, catchBin: string): Outcome {
    if !ValidCatch(catchBin) then Refused
    else
      match ConsumeAll(START, unit)
      case None => Refused
      case Some(p) =>
        match Finish(p)
        case None => Refused
        case Some(parsed) =>
          var d := DirectivesFor(parsed, catchBin);
          if !ValidConditions(d, p) || !ValidMounts(d, p) then Refused
          else if AlreadyApplied(d, unit, p) then Done(unit, false)
          else
            var (out, last) := RewriteLines(d, FRESH, unit);
            if !last.insertedCondition || !last.insertedResolver then Refused
            else Done(out, out != unit)
  }

  // ----- line by line -----

  class UnitRewriter {
    const d: Directives
    var out: seq<string>
    var section: string
    var insertedCondition: bool
    var insertedResolver: bool

    constructor (d: Directives)
      ensures this.d == d && out == [] && State() == FRESH
    {
      this.d, out, section, insertedCondition, insertedResolver := d, [], "", false, false;
    }

    function State(): Rewriter
      reads this
    {
      Rewriter(section, insertedCondition, insertedResolver)
    }

    method InsertConditionBeforeService(t: string)
      modifies `out, `insertedCondition
      ensures out == old(out) + Ahead(d, old(State()), t)
      ensures insertedCondition == (old(insertedCondition) || t == SERVICE)
    {
      if t != SERVICE || insertedCondition {
        return;
      }
      if section != UNIT {
        out := out + [UNIT];
      }
      out := out + [d.condition];
      insertedCondition := true;
    }

    /** Writes or drops a managed directive of the service section. */
    method RewriteServiceDirective(t: string) returns (done: bool)
      modifies `out
      ensures done <==>
                && section == SERVICE
                && (HasPrefix(t, EXEC) || t == d.writableBind || t == d.readOnlyBind || t == PRIVATE_YES)
      ensures out == old(out) + if done && HasPrefix(t, EXEC) then [d.execStart] else []
    {
      if section != SERVICE {
        return false;
      }
      if HasPrefix(t, EXEC) {
        out := out + [d.execStart];
        return true;
      }
      return t == d.writableBind || t == d.readOnlyBind || t == PRIVATE_YES;
    }

    method InsertResolverAfterNamespace(t: string)
      modifies `out, `insertedResolver
      ensures var resolves := section == SERVICE && HasPrefix(t, NAMESPACE) && !old(insertedResolver);
              && out == old(out) + (if resolves then [PRIVATE_YES] else [])
              && insertedResolver == (old(insertedResolver) || resolves)
    {
      if section == SERVICE && HasPrefix(t, NAMESPACE) && !insertedResolver {
        out := out + [PRIVATE_YES];
        insertedResolver := true;
      }
    }

    method AppendLine(line: string)
      modifies this
      ensures out == old(out) + Emitted(d, old(State()), line)
      ensures State() == Advanced(d, old(State()), line)
    {
      hide HasPrefix, Ahead, IsSection;
      var t := Trim(line);
      InsertConditionBeforeService(t);
      ghost var ahead := Ahead(d, old(State()), t);
      assert out == old(out) + ahead;
      if IsSection(t) {
        section := t;
      }
      if HasPrefix(t, CONDITION) {
        return;
      }
      var done := RewriteServiceDirective(t);
      if done {
        return;
      }
      out := out + [line];
      InsertResolverAfterNamespace(t);
    }
  }

  method ReadUnit(unit: seq<string>) returns (r: Option<Parser>)
    ensures r == ConsumeAll(START, unit)
  {
    var p, i := START, 0;
    while i < |unit|
      invariant 0 <= i <= |unit|
      invariant ConsumeAll(START, unit) == ConsumeAll(p, unit[i..])
    {
      assert unit[i..][1..] == unit[i + 1..];
      var next := Consume(p, Trim(unit[i]));
      if next.None? {
        return None;
      }
      p := next.value;
      i := i + 1;
    }
    return Some(p);
  }

  lemma RewriteNone(d: Directives, r: Rewriter)
    ensures RewriteLines(d, r, []) == ([], r)
  {
  }

  lemma RewriteOne(d: Directives, r: Rewriter, lines: seq<string>, i: nat)
    requires i < |lines|
    ensures var (out, last) := RewriteLines(d, Advanced(d, r, lines[i]), lines[i + 1..]);
            RewriteLines(d, r, lines[i..]) == (Emitted(d, r, lines[i]) + out, last)
  {
    hide Emitted, Advanced;
    assert lines[i..][1..] == lines[i + 1..];
  }

  method RewriteUnit(unit: seq<string>, d: Directives) returns (r: Option<seq<string>>)
    ensures var (out, last) := RewriteLines(d, FRESH, unit);
            r == if last.insertedCondition && last.insertedResolver then Some(out) else None
  {
    hide Emitted, Advanced, RewriteLines;
    var rewriter := new UnitRewriter(d);
    var i := 0;
    assert unit[0..] == unit;
    while i < |unit|
      invariant 0 <= i <= |unit|
      invariant RewriteLines(d, FRESH, unit).0 == rewriter.out + RewriteLines(d, rewriter.State(), unit[i..]).0
      invariant RewriteLines(d, FRESH, unit).1 == RewriteLines(d, rewriter.State(), unit[i..]).1
    {
      RewriteOne(d, rewriter.State(), unit, i);
      rewriter.AppendLine(unit[i]);
      i := i + 1;
    }
    RewriteNone(d, rewriter.State());
    assert unit[i..] == [] && rewriter.out + [] == rewriter.out;
    if !rewriter.insertedCondition || !rewriter.insertedResolver {
      return None;
    }
    return Some(rewriter.out);
  }

  method EnsureUnitIsolation(unit: seq<string>, catchBin: string) returns (r: Outcome)
    ensures r == EnsureIsolation(unit, catchBin)
  {
    if !ValidCatch(catchBin) {
      return Refused;
    }
    var read := ReadUnit(unit);
    if read.None? || Finish(read.value).None? {
      return Refused;
    }
    var d := DirectivesFor(Finish(read.value).value, catchBin);
    if !ValidConditions(d, read.value) || !ValidMounts(d, read.value) {
      return Refused;
    }
    if AlreadyApplied(d, unit, read.value) {
      return Done(unit, false);
    }
    var next := RewriteUnit(unit, d);
    if next.None? {
      return Refused;
    }
    return Done(next.value, next.value != unit);
  }
}
