/**
 * `ChangeTimeMethodsTransformer`, the earlier stand-alone transformer: its
 * class filter and its call rewrite. The sleep, wait and Unsafe rules are the
 * same as in `ChangeTimeMethodsMethodTransformer`; the system-time rule
 * does not look at the descriptor, and there is no notify rule.
 */
module LegacyRewrite {
  import opened JavaTypes
  import opened Bytecode
  import opened Patterns
  import opened CallRewrite

  /** The packages `transform` never rewrites. */
  predicate LegacyRejectsPackage(className: string) {
    || (StartsWith(className, "com/devexperts/timetest/") && !StartsWith(className, "com/devexperts/timetest/test/"))
    || StartsWith(className, "sun/")
    || StartsWith(className, "java/")
    || StartsWith(className, "org/apache/maven/")
  }

  /** The decision of `transform`: outside those packages, some include matches and no exclude does. */
  predicate LegacyAccepts(className: string, includes: seq<string>, excludes: seq<string>, matches: (string, string) -> bool) {
    !LegacyRejectsPackage(className) && AnyMatch(includes, className, matches) && !AnyMatch(excludes, className, matches)
  }

  /** The constructor's loops: one compiled pattern per configured glob, in order. */
  method BuildPatterns(globs: seq<string>) returns (patterns: seq<string>)
    ensures patterns == CreatePatterns(globs)
  {
    patterns := [];
    for i := 0 to |globs|
      invariant patterns == CreatePatterns(globs[..i])
    {
      var compiled := Glob.Compile(ReplaceDots(globs[i]));
      assert globs[..i + 1] == globs[..i] + [globs[i]];
      patterns := patterns + [compiled];
    }
    assert globs[..|globs|] == globs;
  }

  /**
   * The filter of `transform`: the package checks, then a loop over the
   * includes that stops at the first match, then one over the excludes
   * that stops at the first match. `false` is `transform` returning null.
   */
  method Process(className: string, includes: seq<string>, excludes: seq<string>, matches: (string, string) -> bool)
    returns (process: bool)
    ensures process == LegacyAccepts(className, includes, excludes, matches)
  {
    if LegacyRejectsPackage(className) {
      return false;
    }
    process := false;
    var i := 0;
    while i < |includes|
      invariant 0 <= i <= |includes|
      invariant !process
      invariant forall j :: 0 <= j < i ==> !matches(includes[j], className)
    {
      if matches(includes[i], className) {
        process := true;
        break;
      }
      i := i + 1;
    }
    assert process <==> AnyMatch(includes, className, matches);
    var k := 0;
    while k < |excludes|
      invariant 0 <= k <= |excludes|
      invariant process == AnyMatch(includes, className, matches)
      invariant forall j :: 0 <= j < k ==> !matches(excludes[j], className)
    {
      if matches(excludes[k], className) {
        process := false;
        break;
      }
      k := k + 1;
    }
  }

  /** An exclude that matches wins over any include. */
  lemma ExcludeWins(className: string, includes: seq<string>, excludes: seq<string>, matches: (string, string) -> bool, k: nat)
    requires k < |excludes| && matches(excludes[k], className)
    ensures !LegacyAccepts(className, includes, excludes, matches)
  {
  }

  /** `processSystemTime` of this version: any descriptor. */
  function LegacySystemTimeRule(c: Insn): (r: Option<seq<Insn>>)
    requires c.Call?
    ensures r.Some? <==> c.owner == "java/lang/System" && c.name in {"currentTimeMillis", "nanoTime"}
    ensures r.Some? ==> r.value == [InvokeMethods(if c.name == "currentTimeMillis" then TIME_MILLIS else NANO_TIME)]
  {
    if c.owner != "java/lang/System" then None
    else if c.name == "currentTimeMillis" then Some([InvokeMethods(TIME_MILLIS)])
    else if c.name == "nanoTime" then Some([InvokeMethods(NANO_TIME)])
    else None
  }

  /** `visitMethodInsn` of this version: system time, sleep, wait, Unsafe; otherwise forwarded. */
  function LegacyRewriteCall(c: Insn): (r: seq<Insn>)
    requires c.Call?
    ensures LegacySystemTimeRule(c).Some? ==> r == LegacySystemTimeRule(c).value
    ensures LegacySystemTimeRule(c).None? && SleepRule(c).Some? ==> r == SleepRule(c).value
    ensures LegacySystemTimeRule(c).None? && SleepRule(c).None? && WaitRule(c).Some? ==> r == WaitRule(c).value
    ensures LegacySystemTimeRule(c).None? && SleepRule(c).None? && WaitRule(c).None? && UnsafeRule(c).Some? ==> r == UnsafeRule(c).value
    ensures LegacySystemTimeRule(c).None? && SleepRule(c).None? && WaitRule(c).None? && UnsafeRule(c).None? ==> r == [c]
  {
    var system := LegacySystemTimeRule(c);
    if system.Some? then system.value
    else
      var sleep := SleepRule(c);
      if sleep.Some? then sleep.value
      else
        var wait := WaitRule(c);
        if wait.Some? then wait.value
        else
          var unsafe := UnsafeRule(c);
          if unsafe.Some? then unsafe.value else [c]
  }

  /** There is no notify rule: a virtual `notify()V` that is not an Unsafe call is forwarded. */
  lemma NoNotifyRule(owner: string, itf: bool)
    ensures LegacyRewriteCall(Call(INVOKEVIRTUAL, owner, "notify", "()V", itf)) == [Call(INVOKEVIRTUAL, owner, "notify", "()V", itf)]
    ensures LegacyRewriteCall(Call(INVOKEVIRTUAL, owner, "notifyAll", "()V", itf)) == [Call(INVOKEVIRTUAL, owner, "notifyAll", "()V", itf)]
  {
  }

  /**
   * The two versions differ exactly on `notify`/`notifyAll` (rewritten only
   * by the later one) and on a system-time name with a descriptor other
   * than `()J` (rewritten only by this one).
   */
  lemma VersionsDiffer(c: Insn)
    requires c.Call?
    ensures LegacyRewriteCall(c) != RewriteCall(c) <==>
      || NotifyRule(c).Some?
      || (c.owner == "java/lang/System" && c.name in {"currentTimeMillis", "nanoTime"} && c.desc != "()J")
  {
    if NotifyRule(c).Some? {
      RulesDisjoint(c);
      assert RewriteCall(c)[0].owner == METHODS_OWNER;
      assert LegacyRewriteCall(c) == [c];
    } else if c.owner == "java/lang/System" && c.name in {"currentTimeMillis", "nanoTime"} && c.desc != "()J" {
      assert RewriteCall(c) == [c];
      assert LegacyRewriteCall(c)[0].owner == METHODS_OWNER;
    }
  }

  /** The legacy visitor, emitting into `mv`. */
  class LegacyCallRewriter {
    var emitted: seq<Insn>

    constructor ()
      ensures emitted == []
    {
      emitted := [];
    }

    method VisitMethodInsn(c: Insn)
      requires c.Call?
      modifies this
      ensures emitted == old(emitted) + LegacyRewriteCall(c)
    {
      var rule := LegacySystemTimeRule(c);
      if rule.None? {
        rule := SleepRule(c);
      }
      if rule.None? {
        rule := WaitRule(c);
      }
      if rule.None? {
        rule := UnsafeRule(c);
      }
      if rule.Some? {
        emitted := emitted + rule.value;
      } else {
        emitted := emitted + [c];
      }
    }
  }
}
