/**
 * `TimeTestTransformer`, the agent's class transformer: which classes it
 * rewrites, which of them are test classes, and the chain of method
 * visitors each method of a rewritten class goes through.
 */
module AgentTransformer {
  import opened JavaTypes
  import opened Bytecode
  import opened Patterns
  import opened CallRewrite
  import TestEntryPoints
  import LegacyRewrite

  /** The packages `processClass` never rewrites. */
  predicate RejectsPackage(className: string) {
    || (StartsWith(className, "com/devexperts/timetest/") && !StartsWith(className, "com/devexperts/timetest/test/"))
    || StartsWith(className, "com/sun/")
    || (StartsWith(className, "sun/") && !StartsWith(className, "sun/swing/") && !StartsWith(className, "sun/awt/"))
    || StartsWith(className, "jdk/")
    || (StartsWith(className, "java/") && !StartsWith(className, "java/util/concurrent/"))
  }

  /** The decision of `processClass`: outside those packages, some include matches and no exclude does. */
  predicate Accepts(className: string, includes: seq<string>, excludes: seq<string>, matches: (string, string) -> bool) {
    !RejectsPackage(className) && AnyMatch(includes, className, matches) && !AnyMatch(excludes, className, matches)
  }

  /**
   * `processClass`: outside the rejected packages, `process` is raised by a
   * matching include and lowered again by a matching exclude.
   */
  method ProcessClass(className: string, includes: seq<string>, excludes: seq<string>, matches: (string, string) -> bool)
    returns (process: bool)
    ensures process == Accepts(className, includes, excludes, matches)
  {
    if RejectsPackage(className) {
      return false;
    }
    process := false;
    if AnyMatch(includes, className, matches) {
      process := true;
    }
    if AnyMatch(excludes, className, matches) {
      process := false;
    }
  }

  /** An exclude that matches wins over any include. */
  lemma ExcludeWins(className: string, includes: seq<string>, excludes: seq<string>, matches: (string, string) -> bool, k: nat)
    requires k < |excludes| && matches(excludes[k], className)
    ensures !Accepts(className, includes, excludes, matches)
  {
  }

  /** Two prefixes that differ at some position cannot both start a name. */
  lemma DifferentPrefixes(s: string, p: string, q: string, k: nat)
    requires StartsWith(s, p) && k < |p| && k < |q| && p[k] != q[k]
    ensures !StartsWith(s, q)
  {
    assert s[k] == s[..|p|][k];
  }

  /** The agent's own tests are rewritten like any application class. */
  lemma OwnTestsNotRejected(className: string)
    requires StartsWith(className, "com/devexperts/timetest/test/")
    ensures !RejectsPackage(className)
  {
    var p := "com/devexperts/timetest/test/";
    DifferentPrefixes(className, p, "com/sun/", 4);
    DifferentPrefixes(className, p, "sun/", 0);
    DifferentPrefixes(className, p, "jdk/", 0);
    DifferentPrefixes(className, p, "java/", 0);
  }

  /** `sun/swing/` and `sun/awt/` are exempt from the `sun/` rejection. */
  lemma SwingAndAwtNotRejected(className: string)
    requires StartsWith(className, "sun/swing/") || StartsWith(className, "sun/awt/")
    ensures !RejectsPackage(className)
  {
    var p := if StartsWith(className, "sun/swing/") then "sun/swing/" else "sun/awt/";
    DifferentPrefixes(className, p, "com/devexperts/timetest/", 0);
    DifferentPrefixes(className, p, "com/sun/", 0);
    DifferentPrefixes(className, p, "jdk/", 0);
    DifferentPrefixes(className, p, "java/", 0);
  }

  /** `com/sun/` and `jdk/` are rejected with no exception, and so is the rest of `sun/`. */
  lemma JdkPackagesRejected(className: string)
    requires StartsWith(className, "com/sun/") || StartsWith(className, "jdk/")
      || (StartsWith(className, "sun/") && !StartsWith(className, "sun/swing/") && !StartsWith(className, "sun/awt/"))
    ensures RejectsPackage(className)
  {
  }

  /** Any other class under `com/devexperts/timetest/` is rejected. */
  lemma AgentClassesRejected(className: string)
    requires StartsWith(className, "com/devexperts/timetest/") && !StartsWith(className, "com/devexperts/timetest/test/")
    ensures RejectsPackage(className)
  {
  }

  /**
   * The two filters agree wherever neither rejects the package; the agent
   * also rewrites `java/util/concurrent/`, which the legacy filter rejects.
   */
  lemma SameDecisionOutsidePrefixes(className: string, includes: seq<string>, excludes: seq<string>, matches: (string, string) -> bool)
    requires !RejectsPackage(className) && !LegacyRewrite.LegacyRejectsPackage(className)
    ensures Accepts(className, includes, excludes, matches) == LegacyRewrite.LegacyAccepts(className, includes, excludes, matches)
  {
  }

  lemma ConcurrentOnlyInAgent(className: string)
    requires StartsWith(className, "java/util/concurrent/")
    ensures !RejectsPackage(className) && LegacyRewrite.LegacyRejectsPackage(className)
  {
    var p := "java/util/concurrent/";
    assert StartsWith(className, "java/") by {
      assert className[..5] == p[..5];
    }
    DifferentPrefixes(className, p, "com/devexperts/timetest/", 0);
    DifferentPrefixes(className, p, "com/sun/", 0);
    DifferentPrefixes(className, p, "sun/", 0);
    DifferentPrefixes(className, p, "jdk/", 1);
  }

  /** `inTestingCode`: the class matches one of the test-class patterns. */
  predicate InTestingCode(className: string, testPatterns: seq<string>, matches: (string, string) -> bool) {
    AnyMatch(testPatterns, className, matches)
  }

  // ---- The method visitor chain of `visitMethod` ----

  /** The visitors a method's events can pass through. */
  datatype Visitor = TryCatchBlockSorter | TestEnterPointsAdder | ChangeTimeMethods | JsrInliner

  /**
   * The chain of visitors, the first receiving the events first: with the
   * entry points, the sorter and the entry-point adder come before the call
   * rewrite; without them only the call rewrite and the JSR inliner remain.
   */
  function ChainFor(entryPoints: bool): (chain: seq<Visitor>)
    ensures ChangeTimeMethods in chain && chain[|chain| - 1] == JsrInliner
    ensures TestEnterPointsAdder in chain <==> entryPoints
  {
    if entryPoints then [TryCatchBlockSorter, TestEnterPointsAdder, ChangeTimeMethods, JsrInliner]
    else [ChangeTimeMethods, JsrInliner]
  }

  /**
   * The chain as written: the entry points are added to a method of a test
   * class unless its name is `<init>` or `<cinit>`.
   */
  function MethodChainAsWritten(testClass: bool, mname: string): (chain: seq<Visitor>)
    ensures ChangeTimeMethods in chain && chain[|chain| - 1] == JsrInliner
    ensures TestEnterPointsAdder in chain <==> testClass && mname != "<init>" && mname != "<cinit>"
  {
    ChainFor(testClass && mname != "<init>" && mname != "<cinit>")
  }

  /**
   * The second name is not a JVM method name, so a test class's static
   * initializer `<clinit>` is instrumented as if it were a test method.
   */
  lemma StaticInitializerInstrumentedAsWritten()
    ensures TestEnterPointsAdder in MethodChainAsWritten(true, "<clinit>")
  {
    assert "<clinit>"[2] != "<cinit>"[2];
  }

  /** The chain with the static initializer's name, `<clinit>`, as evidently intended. */
  function MethodChain(testClass: bool, mname: string): (chain: seq<Visitor>)
    ensures ChangeTimeMethods in chain && chain[|chain| - 1] == JsrInliner
    ensures TestEnterPointsAdder in chain <==> testClass && mname != "<init>" && mname != "<clinit>"
  {
    ChainFor(testClass && mname != "<init>" && mname != "<clinit>")
  }

  /** Neither initializer is a test entry point; every other method of a test class is. */
  lemma NoInitializerInstrumented(testClass: bool)
    ensures TestEnterPointsAdder !in MethodChain(testClass, "<init>")
    ensures TestEnterPointsAdder !in MethodChain(testClass, "<clinit>")
    ensures testClass ==> TestEnterPointsAdder in MethodChain(testClass, "run")
  {
  }

  /** What one visitor does to the events; the sorter and the JSR inliner are not modelled. */
  function Apply(v: Visitor, throwableLocal: nat, code: seq<Insn>): seq<Insn> {
    match v
    case TestEnterPointsAdder => TestEntryPoints.Instrument(throwableLocal, code)
    case ChangeTimeMethods => RewriteCode(code)
    case _ => code
  }

  /** The events the chain hands to the class writer. */
  function Emit(chain: seq<Visitor>, throwableLocal: nat, code: seq<Insn>): seq<Insn>
    decreases chain
  {
    if chain == [] then code else Emit(chain[1..], throwableLocal, Apply(chain[0], throwableLocal, code))
  }

  // ---- The two rewrites commute ----

  predicate NoReturns(code: seq<Insn>) {
    forall i :: i in code ==> !(i.Op? && IsReturn(i.opcode))
  }

  lemma {:induction false} WrapAllNoReturns(code: seq<Insn>)
    requires NoReturns(code)
    ensures TestEntryPoints.WrapAll(code) == code
    decreases code
  {
    if code != [] {
      assert code[0] in code;
      assert forall i :: i in code[1..] ==> i in code;
      WrapAllNoReturns(code[1..]);
    }
  }

  /** Wrapping one event and then rewriting is rewriting it and then wrapping. */
  lemma WrapCommutes(i: Insn)
    ensures RewriteCode(TestEntryPoints.Wrap(i)) == TestEntryPoints.WrapAll(RewriteInsn(i))
  {
    var leave := InvokeMethods(LEAVE_TRANSFORMED_METHOD);
    if i.Op? && IsReturn(i.opcode) {
      MethodsCallsUnmatched(leave);
      RewriteShape(leave);
      RewriteCodeAppend([leave], [i]);
      assert RewriteCode([leave]) == [leave] && RewriteCode([i]) == [i];
      assert TestEntryPoints.WrapAll([i]) == [leave, i] by {
        assert [i][1..] == [];
      }
    } else {
      assert RewriteCode([i]) == RewriteInsn(i) by {
        assert [i][1..] == [];
      }
      if i.Call? {
        RewriteShape(i);
        if !Unmatched(i) {
          assert NoReturns(RewriteInsn(i)) by {
            var r := RewriteCall(i);
            assert r == [r[0]] || r == [r[0]] + r[1..];
          }
        }
      }
      WrapAllNoReturns(RewriteInsn(i));
    }
  }

  lemma {:induction false} RewriteWrapAll(body: seq<Insn>)
    ensures RewriteCode(TestEntryPoints.WrapAll(body)) == TestEntryPoints.WrapAll(RewriteCode(body))
    decreases body
  {
    if body != [] {
      var head := TestEntryPoints.Wrap(body[0]);
      RewriteCodeAppend(head, TestEntryPoints.WrapAll(body[1..]));
      WrapCommutes(body[0]);
      RewriteWrapAll(body[1..]);
      TestEntryPoints.WrapAllAppend(RewriteInsn(body[0]), RewriteCode(body[1..]));
    }
  }

  /** The inserted prologue and handler are left alone by the call rewrite. */
  lemma InsertedCodeFixed(throwableLocal: nat)
    ensures RewriteCode(TestEntryPoints.Prologue()) == TestEntryPoints.Prologue()
    ensures RewriteCode(TestEntryPoints.Epilogue(throwableLocal)) == TestEntryPoints.Epilogue(throwableLocal)
  {
    var enter := InvokeMethods(ENTER_TRANSFORMED_METHOD);
    var leave := InvokeMethods(LEAVE_TRANSFORMED_METHOD);
    MethodsCallsUnmatched(enter);
    RewriteShape(enter);
    MethodsCallsUnmatched(leave);
    RewriteShape(leave);
    RewriteFixed(TestEntryPoints.Prologue());
    RewriteFixed(TestEntryPoints.Epilogue(throwableLocal));
  }

  /**
   * The call rewrite runs after the entry points are added, and the two
   * commute: the final code of a test method is the instrumented form of
   * the rewritten body, so both the time calls and the counter calls end up
   * in it.
   */
  lemma PipelineCommutes(throwableLocal: nat, body: seq<Insn>)
    ensures RewriteCode(TestEntryPoints.Instrument(throwableLocal, body))
         == TestEntryPoints.Instrument(throwableLocal, RewriteCode(body))
  {
    var p := TestEntryPoints.Prologue();
    var w := TestEntryPoints.WrapAll(body);
    var e := TestEntryPoints.Epilogue(throwableLocal);
    RewriteCodeAppend(p + w, e);
    RewriteCodeAppend(p, w);
    InsertedCodeFixed(throwableLocal);
    RewriteWrapAll(body);
  }

  /**
   * What the two chains hand to the class writer: the instrumented form of
   * the rewritten body with the entry points, the rewritten body without.
   */
  lemma ChainEmits(entryPoints: bool, throwableLocal: nat, body: seq<Insn>)
    ensures entryPoints ==>
      Emit(ChainFor(entryPoints), throwableLocal, body) == TestEntryPoints.Instrument(throwableLocal, RewriteCode(body))
    ensures !entryPoints ==> Emit(ChainFor(entryPoints), throwableLocal, body) == RewriteCode(body)
  {
    PipelineCommutes(throwableLocal, body);
    var chain := ChainFor(entryPoints);
    if entryPoints {
      var code := TestEntryPoints.Instrument(throwableLocal, body);
      assert chain[1..] == [TestEnterPointsAdder, ChangeTimeMethods, JsrInliner];
      assert chain[1..][1..] == [ChangeTimeMethods, JsrInliner];
      assert chain[1..][1..][1..] == [JsrInliner];
      assert Emit([JsrInliner], throwableLocal, RewriteCode(code)) == RewriteCode(code) by {
        assert [JsrInliner][1..] == [];
      }
      assert Emit(chain[1..][1..], throwableLocal, code) == RewriteCode(code);
      assert Emit(chain[1..], throwableLocal, body) == RewriteCode(code);
    } else {
      assert chain[1..] == [JsrInliner];
      assert Emit([JsrInliner], throwableLocal, RewriteCode(body)) == RewriteCode(body) by {
        assert [JsrInliner][1..] == [];
      }
    }
  }

  /**
   * What `visitMethod` emits for a method of class `className`, as
   * evidently intended: a method of a test class other than the two
   * initializers gets the entry points around its rewritten body; every
   * other method only has its calls rewritten.
   */
  lemma MethodCode(className: string, testPatterns: seq<string>, matches: (string, string) -> bool,
                   mname: string, throwableLocal: nat, body: seq<Insn>)
    ensures InTestingCode(className, testPatterns, matches) && mname != "<init>" && mname != "<clinit>" ==>
      Emit(MethodChain(InTestingCode(className, testPatterns, matches), mname), throwableLocal, body)
        == TestEntryPoints.Instrument(throwableLocal, RewriteCode(body))
    ensures !(InTestingCode(className, testPatterns, matches) && mname != "<init>" && mname != "<clinit>") ==>
      Emit(MethodChain(InTestingCode(className, testPatterns, matches), mname), throwableLocal, body) == RewriteCode(body)
  {
    ChainEmits(InTestingCode(className, testPatterns, matches) && mname != "<init>" && mname != "<clinit>", throwableLocal, body);
  }

  /**
   * What `visitMethod` emits as written: the same, except that the static
   * initializer `<clinit>` of a test class also gets the entry points.
   */
  lemma MethodCodeAsWritten(className: string, testPatterns: seq<string>, matches: (string, string) -> bool,
                            mname: string, throwableLocal: nat, body: seq<Insn>)
    ensures InTestingCode(className, testPatterns, matches) && mname != "<init>" && mname != "<cinit>" ==>
      Emit(MethodChainAsWritten(InTestingCode(className, testPatterns, matches), mname), throwableLocal, body)
        == TestEntryPoints.Instrument(throwableLocal, RewriteCode(body))
    ensures !(InTestingCode(className, testPatterns, matches) && mname != "<init>" && mname != "<cinit>") ==>
      Emit(MethodChainAsWritten(InTestingCode(className, testPatterns, matches), mname), throwableLocal, body) == RewriteCode(body)
  {
    ChainEmits(InTestingCode(className, testPatterns, matches) && mname != "<init>" && mname != "<cinit>", throwableLocal, body);
  }
}
