/** The rewriting of resolver units is a fixpoint exactly when its own directives can be read
    back, and it keeps everything it does not manage. */
module ResolverUnitProof {
  import opened Artifacts
  import opened Paths
  import opened Words
  import opened ResolverUnit

  // ----- prefixes -----

  lemma PrefixHead(t: string, p: string)
    requires HasPrefix(t, p) && p != ""
    ensures t != "" && t[0] == p[0]
  {
    assert t[..|p|][0] == t[0];
  }

  lemma PrefixAt(t: string, p: string, i: nat)
    requires HasPrefix(t, p) && i < |p|
    ensures i < |t| && t[i] == p[i]
  {
    assert t[..|p|][i] == t[i];
  }

  /** The managed prefixes exclude each other, comments, sections and the empty line. */
  lemma PrefixesDiffer(t: string)
    ensures HasPrefix(t, CONDITION) || HasPrefix(t, EXEC) || HasPrefix(t, NAMESPACE) || IsMount(t) ==>
              !Ignored(t) && !IsSection(t)
    ensures HasPrefix(t, CONDITION) ==> !HasPrefix(t, EXEC) && !HasPrefix(t, NAMESPACE) && !IsMount(t)
    ensures HasPrefix(t, EXEC) ==> !HasPrefix(t, NAMESPACE) && !IsMount(t)
    ensures HasPrefix(t, NAMESPACE) ==> !IsMount(t)
    ensures HasPrefix(t, BIND) ==> !HasPrefix(t, BIND_READ_ONLY) && !HasPrefix(t, PRIVATE)
    ensures HasPrefix(t, BIND_READ_ONLY) ==> !HasPrefix(t, PRIVATE)
  {
    if HasPrefix(t, CONDITION) { PrefixHead(t, CONDITION); }
    if HasPrefix(t, EXEC) { PrefixHead(t, EXEC); }
    if HasPrefix(t, NAMESPACE) { PrefixHead(t, NAMESPACE); }
    if HasPrefix(t, BIND) { PrefixHead(t, BIND); PrefixAt(t, BIND, 4); }
    if HasPrefix(t, BIND_READ_ONLY) { PrefixHead(t, BIND_READ_ONLY); PrefixAt(t, BIND_READ_ONLY, 4); }
    if HasPrefix(t, PRIVATE) { PrefixHead(t, PRIVATE); }
    if HasPrefix(t, "[") { PrefixHead(t, "["); }
  }

  /** Directives that the parser reads back as they were written. */
  predicate Fit(d: Directives) {
    && HasPrefix(d.condition, CONDITION) && Tidy(d.condition) && !Continued(d.condition) && NoQuote(d.condition)
    && HasPrefix(d.execStart, EXEC) && Tidy(d.execStart) && !Continued(d.execStart) && NoQuote(d.execStart)
    && HasPrefix(d.writableBind, BIND) && HasPrefix(d.readOnlyBind, BIND_READ_ONLY)
  }

  lemma {:induction false} ConsumeConcat(p: Parser, a: seq<string>, b: seq<string>)
    ensures ConsumeAll(p, a + b) ==
            match ConsumeAll(p, a) case None => None case Some(q) => ConsumeAll(q, b)
    decreases |a|
  {
    if a == [] {
      assert a + b == b;
    } else {
      assert (a + b)[0] == a[0] && (a + b)[1..] == a[1..] + b;
      match Consume(p, Trim(a[0]))
      case None =>
      case Some(q) => ConsumeConcat(q, a[1..], b);
    }
  }

  lemma ConsumeOne(p: Parser, line: string)
    ensures ConsumeAll(p, [line]) == Consume(p, Trim(line))
  {
    assert [line][1..] == [];
  }

  // ----- the parser on the rewritten unit follows the parser on the unit -----

  predicate Same(p: Parser, q: Parser) {
    && q.section == p.section && |q.execStarts| == |p.execStarts|
    && q.namespace == p.namespace && q.namespaces == p.namespaces
    && q.environmentFile == p.environmentFile && q.environmentFiles == p.environmentFiles
    && q.workingDirectory == p.workingDirectory && q.workingDirectories == p.workingDirectories
  }

  predicate Managed(d: Directives, q: Parser, r: Rewriter)
    requires HasPrefix(d.execStart, EXEC)
  {
    && (forall x :: x in q.execStarts ==> x == Rest(d.execStart, EXEC))
    && q.conditions == (if r.insertedCondition then [d.condition] else []) && q.conditionsOutside == []
    && q.bindPaths == [] && q.bindReadOnlyPaths == [] && q.mountsOutside == []
    && q.privateMounts == (if r.insertedResolver then [PRIVATE_YES] else [])
  }

  predicate Sim(d: Directives, p: Parser, q: Parser, r: Rewriter)
    requires HasPrefix(d.execStart, EXEC)
  {
    && Same(p, q) && Managed(d, q, r)
    && r.section == p.section && (r.insertedResolver <==> p.namespaces > 0)
    && (p.section == SERVICE ==> r.insertedCondition)
  }

  lemma SimStart(d: Directives)
    requires HasPrefix(d.execStart, EXEC)
    ensures Sim(d, START, START, FRESH)
  {
  }

  lemma UnitLine(q: Parser)
    ensures ConsumeAll(q, [UNIT]) == Some(q.(section := UNIT))
  {
    ConsumeOne(q, UNIT);
    assert Tidy(UNIT);
    TidyTrims(UNIT);
    assert UNIT[..1] == "[";
  }

  lemma ConditionLine(d: Directives, q: Parser)
    requires Fit(d) && q.section == UNIT
    ensures ConsumeAll(q, [d.condition]) == Some(q.(conditions := q.conditions + [d.condition]))
  {
    ConsumeOne(q, d.condition);
    TidyTrims(d.condition);
    PrefixesDiffer(d.condition);
  }

  lemma ExecLine(d: Directives, q: Parser)
    requires Fit(d) && q.section == SERVICE
    ensures ConsumeAll(q, [d.execStart]) == Some(q.(execStarts := q.execStarts + [Rest(d.execStart, EXEC)]))
  {
    ConsumeOne(q, d.execStart);
    TidyTrims(d.execStart);
    PrefixesDiffer(d.execStart);
  }

  lemma PrivateLine(q: Parser)
    requires q.section == SERVICE
    ensures ConsumeAll(q, [PRIVATE_YES]) == Some(q.(privateMounts := q.privateMounts + [PRIVATE_YES]))
  {
    ConsumeOne(q, PRIVATE_YES);
    assert Tidy(PRIVATE_YES) && PRIVATE_YES[..|PRIVATE|] == PRIVATE;
    TidyTrims(PRIVATE_YES);
    PrefixesDiffer(PRIVATE_YES);
    PrivateIsNothingElse();
  }

  lemma PrivateIsNothingElse()
    ensures !Continued(PRIVATE_YES) && NoQuote(PRIVATE_YES) && HasPrefix(PRIVATE_YES, PRIVATE)
    ensures !HasPrefix(PRIVATE_YES, ENVIRONMENT) && !HasPrefix(PRIVATE_YES, DIRECTORY)
  {
    assert PRIVATE_YES[..|PRIVATE|] == PRIVATE;
    if HasPrefix(PRIVATE_YES, ENVIRONMENT) { PrefixHead(PRIVATE_YES, ENVIRONMENT); }
    if HasPrefix(PRIVATE_YES, DIRECTORY) { PrefixHead(PRIVATE_YES, DIRECTORY); }
  }

  lemma AheadConsumed(d: Directives, p: Parser, q: Parser, r: Rewriter, t: string)
    requires Fit(d) && Sim(d, p, q, r)
    ensures ConsumeAll(q, Ahead(d, r, t)) ==
            Some(if t == SERVICE && !r.insertedCondition then q.(section := UNIT, conditions := [d.condition]) else q)
  {
    if t == SERVICE && !r.insertedCondition {
      var u := q.(section := UNIT);
      if r.section != UNIT {
        UnitLine(q);
        ConsumeConcat(q, [UNIT], [d.condition]);
      } else {
        assert u == q && [] + [d.condition] == [d.condition];
      }
      ConditionLine(d, u);
      assert u.conditions + [d.condition] == [d.condition];
    }
  }

  /** Only conditions, command lines and mounts are taken out. */
  lemma NotDropped(d: Directives, section: string, t: string)
    requires HasPrefix(d.writableBind, BIND) && HasPrefix(d.readOnlyBind, BIND_READ_ONLY)
    requires !HasPrefix(t, CONDITION) && !IsMount(t)
    ensures !Dropped(d, section, t)
  {
    PrivateIsNothingElse();
  }

  lemma BodyPlain(d: Directives, r: Rewriter, line: string)
    requires HasPrefix(d.writableBind, BIND) && HasPrefix(d.readOnlyBind, BIND_READ_ONLY)
    requires var t := Trim(line); !HasPrefix(t, CONDITION) && !IsMount(t)
    requires SectionAfter(r, Trim(line)) == SERVICE ==> !HasPrefix(Trim(line), EXEC)
    ensures Body(d, r, line) ==
            if Resolves(r, SectionAfter(r, Trim(line)), Trim(line)) then [line] + [PRIVATE_YES] else [line]
  {
    NotDropped(d, SectionAfter(r, Trim(line)), Trim(line));
    hide Dropped, HasPrefix;
    assert [line] + [] == [line];
  }

  /** A section header goes over as it is, behind the inserted condition if it is the first
      service section. */
  lemma SectionStep(d: Directives, p: Parser, q: Parser, r: Rewriter, line: string)
    requires Fit(d) && Sim(d, p, q, r)
    requires var t := Trim(line); !Continued(t) && !Ignored(t) && IsSection(t)
    ensures var t := Trim(line);
            && Consume(p, t) == Some(p.(section := t))
            && ConsumeAll(q, Emitted(d, r, line)).Some?
            && Sim(d, p.(section := t), ConsumeAll(q, Emitted(d, r, line)).value, Advanced(d, r, line))
  {
    var t := Trim(line);
    PrefixesDiffer(t);
    BodyPlain(d, r, line);
    NotDropped(d, SectionAfter(r, t), t);
    AheadConsumed(d, p, q, r, t);
    hide Body, Ahead, Dropped, IsMount;
    ConsumeConcat(q, Ahead(d, r, t), [line]);
    var q1 := ConsumeAll(q, Ahead(d, r, t)).value;
    ConsumeOne(q1, line);
  }

  /** A line that both parsers pass by, or read alike. */
  lemma PlainStep(d: Directives, p: Parser, q: Parser, r: Rewriter, line: string, p': Parser, q': Parser)
    requires HasPrefix(d.execStart, EXEC) && Sim(d, p, q, r)
    requires var t := Trim(line); t != SERVICE && !IsSection(t)
    requires Body(d, r, line) == [line] && Consume(q, Trim(line)) == Some(q')
    requires p'.section == p.section && p'.namespaces == p.namespaces && Same(p', q') && Managed(d, q', r)
    ensures ConsumeAll(q, Emitted(d, r, line)) == Some(q')
    ensures Sim(d, p', q', Advanced(d, r, line))
  {
    assert Emitted(d, r, line) == [] + [line] == [line];
    ConsumeOne(q, line);
  }

  lemma DropStep(d: Directives, p: Parser, q: Parser, r: Rewriter, line: string, p': Parser)
    requires HasPrefix(d.execStart, EXEC) && Sim(d, p, q, r)
    requires var t := Trim(line); t != SERVICE && !IsSection(t) && Dropped(d, SectionAfter(r, t), t)
    requires Body(d, r, line) == []
    requires p'.section == p.section && p'.namespaces == p.namespaces && Same(p', q)
    ensures ConsumeAll(q, Emitted(d, r, line)) == Some(q)
    ensures Sim(d, p', q, Advanced(d, r, line))
  {
    assert Emitted(d, r, line) == [];
  }

  lemma ExecStep(d: Directives, p: Parser, q: Parser, r: Rewriter, line: string)
    requires Fit(d) && Sim(d, p, q, r) && p.section == SERVICE
    requires var t := Trim(line); !Continued(t) && NoQuote(t) && HasPrefix(t, EXEC)
    ensures var t := Trim(line); var p' := p.(execStarts := p.execStarts + [Rest(t, EXEC)]);
            && Consume(p, t) == Some(p')
            && ConsumeAll(q, Emitted(d, r, line)).Some?
            && Sim(d, p', ConsumeAll(q, Emitted(d, r, line)).value, Advanced(d, r, line))
  {
    var t := Trim(line);
    PrefixesDiffer(t);
    assert t != SERVICE;
    assert Emitted(d, r, line) == [] + [d.execStart] == [d.execStart];
    ExecLine(d, q);
  }

  lemma NamespaceEmitted(d: Directives, r: Rewriter, line: string)
    requires Fit(d) && r.section == SERVICE && !r.insertedResolver && HasPrefix(Trim(line), NAMESPACE)
    ensures Emitted(d, r, line) == [line] + [PRIVATE_YES]
    ensures Advanced(d, r, line) == Rewriter(SERVICE, r.insertedCondition, true)
  {
    var t := Trim(line);
    PrefixesDiffer(t);
    BodyPlain(d, r, line);
    NotDropped(d, SERVICE, t);
    assert t != SERVICE && !IsSection(t);
    hide Body, Dropped, IsMount, Fit;
    assert [] + ([line] + [PRIVATE_YES]) == [line] + [PRIVATE_YES];
  }

  lemma NamespaceRead(p: Parser, t: string)
    requires p.section == SERVICE && p.namespaces == 0
    requires !Continued(t) && NoQuote(t) && HasPrefix(t, NAMESPACE)
    ensures Consume(p, t) == Some(p.(namespace := Rest(t, NAMESPACE), namespaces := 1))
  {
    PrefixesDiffer(t);
  }

  lemma NamespaceLines(q: Parser, line: string, q1: Parser)
    requires Consume(q, Trim(line)) == Some(q1) && q1.section == SERVICE && q1.privateMounts == []
    ensures ConsumeAll(q, [line] + [PRIVATE_YES]) == Some(q1.(privateMounts := [PRIVATE_YES]))
  {
    hide Consume;
    ConsumeOne(q, line);
    ConsumeConcat(q, [line], [PRIVATE_YES]);
    PrivateLine(q1);
    assert q1.privateMounts + [PRIVATE_YES] == [PRIVATE_YES];
  }

  lemma NamespaceStep(d: Directives, p: Parser, q: Parser, r: Rewriter, line: string)
    requires Fit(d) && Sim(d, p, q, r) && p.section == SERVICE && p.namespaces == 0
    requires var t := Trim(line); !Continued(t) && NoQuote(t) && HasPrefix(t, NAMESPACE)
    ensures var t := Trim(line); var p' := p.(namespace := Rest(t, NAMESPACE), namespaces := 1);
            && Consume(p, t) == Some(p')
            && ConsumeAll(q, Emitted(d, r, line)).Some?
            && Sim(d, p', ConsumeAll(q, Emitted(d, r, line)).value, Advanced(d, r, line))
  {
    hide Consume, ConsumeAll, Emitted, Advanced, Rest, Continued, NoQuote;
    var t := Trim(line);
    NamespaceEmitted(d, r, line);
    NamespaceRead(p, t);
    NamespaceRead(q, t);
    NamespaceLines(q, line, q.(namespace := Rest(t, NAMESPACE), namespaces := 1));
  }

  /** Comments, and lines outside the service section. */
  lemma PassStep(d: Directives, p: Parser, q: Parser, r: Rewriter, line: string)
    requires Fit(d) && Sim(d, p, q, r)
    requires var t := Trim(line); !Continued(t) && !IsSection(t) && !HasPrefix(t, CONDITION) && !HasPrefix(t, EXEC)
    requires var t := Trim(line); Ignored(t) || (NoQuote(t) && !IsMount(t) && p.section != SERVICE)
    ensures Consume(p, Trim(line)) == Some(p)
    ensures ConsumeAll(q, Emitted(d, r, line)) == Some(q) && Sim(d, p, q, Advanced(d, r, line))
  {
    var t := Trim(line);
    PrefixesDiffer(t);
    assert SERVICE[..1] == "[" && IsSection(SERVICE);
    BodyPlain(d, r, line);
    PlainStep(d, p, q, r, line, p, q);
  }

  /** Any other directive of the service section. */
  lemma DirectiveStep(d: Directives, p: Parser, q: Parser, r: Rewriter, line: string)
    requires Fit(d) && Sim(d, p, q, r) && p.section == SERVICE
    requires var t := Trim(line); !Continued(t) && !Ignored(t) && !IsSection(t) && NoQuote(t)
    requires var t := Trim(line); !HasPrefix(t, CONDITION) && !HasPrefix(t, EXEC) && !HasPrefix(t, NAMESPACE)
    requires Consume(p, Trim(line)).Some? && ValidMounts(d, Consume(p, Trim(line)).value)
    ensures ConsumeAll(q, Emitted(d, r, line)).Some?
    ensures Sim(d, Consume(p, Trim(line)).value, ConsumeAll(q, Emitted(d, r, line)).value, Advanced(d, r, line))
  {
    var t := Trim(line);
    var p' := Consume(p, t).value;
    PrefixesDiffer(t);
    assert SERVICE[..1] == "[" && IsSection(SERVICE);
    assert p' == ServiceDirective(p, t).value;
    if IsMount(t) {
      MountIsOurs(d, p, t);
      hide ServiceDirective, Consume;
      DropStep(d, p, q, r, line, p');
    } else {
      BodyPlain(d, r, line);
      assert Consume(q, t) == ServiceDirective(q, t);
      hide Consume, Body;
      AlikeRead(d, p, q, r, t);
      PlainStep(d, p, q, r, line, p', ServiceDirective(q, t).value);
    }
  }

  /** Both parsers read a directive alike that is neither a namespace nor a mount. */
  lemma AlikeRead(d: Directives, p: Parser, q: Parser, r: Rewriter, t: string)
    requires HasPrefix(d.execStart, EXEC) && Sim(d, p, q, r)
    requires !HasPrefix(t, NAMESPACE) && !IsMount(t) && ServiceDirective(p, t).Some?
    ensures ServiceDirective(q, t).Some?
    ensures var p', q' := ServiceDirective(p, t).value, ServiceDirective(q, t).value;
            p'.section == p.section && p'.namespaces == p.namespaces && Same(p', q') && Managed(d, q', r)
  {
    hide HasPrefix;
  }

  lemma MountIsOurs(d: Directives, p: Parser, t: string)
    requires IsMount(t) && !HasPrefix(t, NAMESPACE)
    requires ServiceDirective(p, t).Some? && ValidMounts(d, ServiceDirective(p, t).value)
    ensures t == d.writableBind || t == d.readOnlyBind || t == PRIVATE_YES
    ensures Same(p, ServiceDirective(p, t).value)
  {
    PrefixesDiffer(t);
    var p' := ServiceDirective(p, t).value;
    if HasPrefix(t, ENVIRONMENT) {
      PrefixHead(t, ENVIRONMENT);
      assert false;
    } else if HasPrefix(t, DIRECTORY) {
      PrefixHead(t, DIRECTORY);
      assert false;
    } else if HasPrefix(t, BIND) {
      assert t in p'.bindPaths;
    } else if HasPrefix(t, BIND_READ_ONLY) {
      assert t in p'.bindReadOnlyPaths;
    } else {
      assert t in p'.privateMounts;
    }
  }

  /** Conditions go; the one that is inserted stands for all of them. */
  lemma ConditionStep(d: Directives, p: Parser, q: Parser, r: Rewriter, line: string)
    requires Fit(d) && Sim(d, p, q, r)
    requires HasPrefix(Trim(line), CONDITION) && Consume(p, Trim(line)).Some?
    ensures ConsumeAll(q, Emitted(d, r, line)).Some?
    ensures Sim(d, Consume(p, Trim(line)).value, ConsumeAll(q, Emitted(d, r, line)).value, Advanced(d, r, line))
  {
    var t := Trim(line);
    PrefixesDiffer(t);
    assert SERVICE[..1] == "[" && IsSection(SERVICE);
    DropStep(d, p, q, r, line, Consume(p, t).value);
  }

  lemma SimStep(d: Directives, p: Parser, q: Parser, r: Rewriter, line: string)
    requires Fit(d) && Sim(d, p, q, r)
    requires Consume(p, Trim(line)).Some? && ValidMounts(d, Consume(p, Trim(line)).value)
    ensures ConsumeAll(q, Emitted(d, r, line)).Some?
    ensures Sim(d, Consume(p, Trim(line)).value, ConsumeAll(q, Emitted(d, r, line)).value, Advanced(d, r, line))
  {
    var t := Trim(line);
    PrefixesDiffer(t);
    hide Sim, Emitted, Advanced, ConsumeAll, Fit;
    if HasPrefix(t, CONDITION) {
      ConditionStep(d, p, q, r, line);
    } else if Ignored(t) {
      IgnoredIsNoSection(t);
      PassStep(d, p, q, r, line);
    } else if IsSection(t) {
      SectionStep(d, p, q, r, line);
    } else {
      SimStepDirective(d, p, q, r, line);
    }
  }

  lemma IgnoredIsNoSection(t: string)
    requires Ignored(t)
    ensures !IsSection(t) && !HasPrefix(t, EXEC) && !HasPrefix(t, CONDITION)
  {
    PrefixesDiffer(t);
    if HasPrefix(t, "[") { PrefixHead(t, "["); }
  }

  lemma SimStepDirective(d: Directives, p: Parser, q: Parser, r: Rewriter, line: string)
    requires Fit(d) && Sim(d, p, q, r)
    requires var t := Trim(line); !Ignored(t) && !IsSection(t) && !HasPrefix(t, CONDITION)
    requires Consume(p, Trim(line)).Some? && ValidMounts(d, Consume(p, Trim(line)).value)
    ensures ConsumeAll(q, Emitted(d, r, line)).Some?
    ensures Sim(d, Consume(p, Trim(line)).value, ConsumeAll(q, Emitted(d, r, line)).value, Advanced(d, r, line))
  {
    var t := Trim(line);
    PrefixesDiffer(t);
    hide Emitted, Advanced, ConsumeAll, Fit, Managed;
    if IsMount(t) && p.section != SERVICE {
      assert false;
    } else if HasPrefix(t, EXEC) {
      ExecStep(d, p, q, r, line);
    } else if p.section != SERVICE {
      PassStep(d, p, q, r, line);
    } else if HasPrefix(t, NAMESPACE) {
      NamespaceStep(d, p, q, r, line);
    } else {
      DirectiveStep(d, p, q, r, line);
    }
  }

  // ----- whole units -----

  lemma {:induction false} ConsumedIsConsumed(p: Parser, lines: seq<string>, d: Directives)
    requires ConsumeAll(p, lines).Some? && ValidMounts(d, ConsumeAll(p, lines).value)
    ensures ValidMounts(d, p)
    decreases |lines|
  {
    if lines != [] {
      var q := Consume(p, Trim(lines[0])).value;
      ConsumedIsConsumed(q, lines[1..], d);
      MountsGrow(d, p, Trim(lines[0]));
    }
  }

  lemma MountsGrow(d: Directives, p: Parser, t: string)
    requires Consume(p, t).Some? && ValidMounts(d, Consume(p, t).value)
    ensures ValidMounts(d, p)
  {
    var q := Consume(p, t).value;
    assert q.mountsOutside == p.mountsOutside || q.mountsOutside == p.mountsOutside + [t];
    assert q.bindPaths == p.bindPaths || q.bindPaths == p.bindPaths + [t];
    assert q.bindReadOnlyPaths == p.bindReadOnlyPaths || q.bindReadOnlyPaths == p.bindReadOnlyPaths + [t];
    assert q.privateMounts == p.privateMounts || q.privateMounts == p.privateMounts + [t];
    assert forall x :: x in p.bindPaths ==> x in q.bindPaths;
    assert forall x :: x in p.bindReadOnlyPaths ==> x in q.bindReadOnlyPaths;
    assert forall x :: x in p.privateMounts ==> x in q.privateMounts;
  }

  lemma {:induction false} SimAll(d: Directives, p: Parser, q: Parser, r: Rewriter, lines: seq<string>)
    requires Fit(d) && Sim(d, p, q, r)
    requires ConsumeAll(p, lines).Some? && ValidMounts(d, ConsumeAll(p, lines).value)
    ensures var (out, last) := RewriteLines(d, r, lines);
            && ConsumeAll(q, out).Some?
            && Sim(d, ConsumeAll(p, lines).value, ConsumeAll(q, out).value, last)
    decreases |lines|
  {
    hide Sim, Fit, Consume, Emitted, Advanced, ValidMounts;
    if lines != [] {
      var p1 := Consume(p, Trim(lines[0])).value;
      ConsumedIsConsumed(p1, lines[1..], d);
      SimStep(d, p, q, r, lines[0]);
      var emitted := Emitted(d, r, lines[0]);
      var q1 := ConsumeAll(q, emitted).value;
      SimAll(d, p1, q1, Advanced(d, r, lines[0]), lines[1..]);
      var (out, last) := RewriteLines(d, Advanced(d, r, lines[0]), lines[1..]);
      ConsumeConcat(q, emitted, out);
    }
  }

  lemma InsertedStep(d: Directives, p: Parser, r: Rewriter, line: string)
    requires HasPrefix(d.writableBind, BIND) && HasPrefix(d.readOnlyBind, BIND_READ_ONLY)
    requires r.section == p.section && (p.section == SERVICE ==> r.insertedCondition)
    requires p.namespaces > 0 ==> r.insertedCondition && r.insertedResolver
    requires Consume(p, Trim(line)).Some?
    ensures var p', r' := Consume(p, Trim(line)).value, Advanced(d, r, line);
            && r'.section == p'.section && (p'.section == SERVICE ==> r'.insertedCondition)
            && (p'.namespaces > 0 ==> r'.insertedCondition && r'.insertedResolver)
  {
    var t := Trim(line);
    PrefixesDiffer(t);
    if HasPrefix(t, NAMESPACE) {
      NotDropped(d, SectionAfter(r, t), t);
    }
    if Ignored(t) {
      IgnoredIsNoSection(t);
    }
  }

  /** The namespace directive stands in a service section, so both insertions are made. */
  lemma {:induction false} BothInserted(d: Directives, p: Parser, r: Rewriter, lines: seq<string>)
    requires HasPrefix(d.writableBind, BIND) && HasPrefix(d.readOnlyBind, BIND_READ_ONLY)
    requires r.section == p.section && (p.section == SERVICE ==> r.insertedCondition)
    requires p.namespaces > 0 ==> r.insertedCondition && r.insertedResolver
    requires ConsumeAll(p, lines).Some?
    ensures var last := RewriteLines(d, r, lines).1;
            ConsumeAll(p, lines).value.namespaces > 0 ==> last.insertedCondition && last.insertedResolver
    decreases |lines|
  {
    hide Consume, Advanced, Emitted;
    if lines != [] {
      InsertedStep(d, p, r, lines[0]);
      BothInserted(d, Consume(p, Trim(lines[0])).value, Advanced(d, r, lines[0]), lines[1..]);
    }
  }

  // ----- everything else is kept -----

  /** Lines that the rewriting never writes or removes, whatever their section. */
  predicate Unmanaged(d: Directives, line: string) {
    var t := Trim(line);
    !HasPrefix(t, CONDITION) && !HasPrefix(t, EXEC) && t != d.writableBind && t != d.readOnlyBind &&
        t != PRIVATE_YES && t != UNIT
  }

  function Others(d: Directives, lines: seq<string>): seq<string> {
    if lines == [] then []
    else (if Unmanaged(d, lines[0]) then [lines[0]] else []) + Others(d, lines[1..])
  }

  lemma {:induction false} OthersConcat(d: Directives, a: seq<string>, b: seq<string>)
    ensures Others(d, a + b) == Others(d, a) + Others(d, b)
    decreases |a|
  {
    if a == [] {
      assert a + b == b;
    } else {
      assert (a + b)[1..] == a[1..] + b;
      OthersConcat(d, a[1..], b);
    }
  }

  lemma InsertedAreManaged(d: Directives)
    requires Fit(d)
    ensures !Unmanaged(d, UNIT) && !Unmanaged(d, d.condition) && !Unmanaged(d, d.execStart) &&
            !Unmanaged(d, PRIVATE_YES)
  {
    assert Tidy(UNIT) && Tidy(PRIVATE_YES);
    TidyTrims(UNIT);
    TidyTrims(PRIVATE_YES);
    TidyTrims(d.condition);
    TidyTrims(d.execStart);
  }

  lemma OthersOfLine(d: Directives, r: Rewriter, line: string)
    requires Fit(d)
    ensures Others(d, Emitted(d, r, line)) == Others(d, [line])
  {
    InsertedAreManaged(d);
    var t := Trim(line);
    OthersConcat(d, Ahead(d, r, t), Body(d, r, line));
    OthersOfAhead(d, r, t);
    OthersOfBody(d, r, line);
  }

  lemma OthersNone(d: Directives, lines: seq<string>)
    requires |lines| <= 2 && forall l :: l in lines ==> !Unmanaged(d, l)
    ensures Others(d, lines) == []
  {
    if lines != [] {
      assert lines[0] in lines;
      if |lines| > 1 {
        assert lines[1] in lines && lines[1..][1..] == [];
      }
    }
  }

  lemma OthersOfAhead(d: Directives, r: Rewriter, t: string)
    requires Fit(d)
    ensures Others(d, Ahead(d, r, t)) == []
  {
    InsertedAreManaged(d);
    OthersNone(d, Ahead(d, r, t));
  }

  lemma OthersOfBody(d: Directives, r: Rewriter, line: string)
    requires Fit(d)
    ensures Others(d, Body(d, r, line)) == Others(d, [line])
  {
    InsertedAreManaged(d);
    hide Fit;
    var t := Trim(line);
    var section := SectionAfter(r, t);
    assert [line][1..] == [];
    if HasPrefix(t, CONDITION) {
    } else if section == SERVICE && HasPrefix(t, EXEC) {
      OthersNone(d, [d.execStart]);
    } else if Dropped(d, section, t) {
    } else if Resolves(r, section, t) {
      OthersConcat(d, [line], [PRIVATE_YES]);
      OthersNone(d, [PRIVATE_YES]);
    } else {
      assert [line] + [] == [line];
    }
  }

  /** The rewriting keeps every line it does not manage, in order. */
  lemma {:induction false} OthersKept(d: Directives, r: Rewriter, lines: seq<string>)
    requires Fit(d)
    ensures Others(d, RewriteLines(d, r, lines).0) == Others(d, lines)
    decreases |lines|
  {
    if lines != [] {
      OthersKept(d, Advanced(d, r, lines[0]), lines[1..]);
      OthersOfLine(d, r, lines[0]);
      OthersConcat(d, Emitted(d, r, lines[0]), RewriteLines(d, Advanced(d, r, lines[0]), lines[1..]).0);
      OthersConcat(d, [lines[0]], lines[1..]);
      assert [lines[0]] + lines[1..] == lines;
    }
  }
}
