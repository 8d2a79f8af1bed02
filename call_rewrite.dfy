/**
 * `ChangeTimeMethodsMethodTransformer`: every method call of an
 * instrumented method is offered to five rules in turn (system time,
 * sleep, wait, notify, Unsafe); the first that recognises the call emits
 * its replacement, a static call into `Methods`, and a call no rule
 * recognises is forwarded unchanged. Every other visitor event passes
 * through.
 */
module CallRewrite {
  import opened JavaTypes
  import opened Bytecode

  /** `processSystemTime`: `System.currentTimeMillis()J` and `System.nanoTime()J`. */
  function SystemTimeRule(c: Insn): (r: Option<seq<Insn>>)
    requires c.Call?
    ensures r.Some? <==> c.owner == "java/lang/System" && c.desc == "()J" && c.name in {"currentTimeMillis", "nanoTime"}
    ensures r.Some? ==> r.value == [InvokeMethods(if c.name == "currentTimeMillis" then TIME_MILLIS else NANO_TIME)]
  {
    if c.owner != "java/lang/System" then None
    else if c.name == "currentTimeMillis" && c.desc == "()J" then Some([InvokeMethods(TIME_MILLIS)])
    else if c.name == "nanoTime" && c.desc == "()J" then Some([InvokeMethods(NANO_TIME)])
    else None
  }

  /** `processSleep`: `Thread.sleep(J)V` and `Thread.sleep(JI)V`; any other `sleep` descriptor is not recognised. */
  function SleepRule(c: Insn): (r: Option<seq<Insn>>)
    requires c.Call?
    ensures r.Some? <==> c.owner == "java/lang/Thread" && c.name == "sleep" && c.desc in {"(J)V", "(JI)V"}
    ensures r.Some? ==> r.value == [InvokeMethods(if c.desc == "(J)V" then SLEEP_1 else SLEEP_2)]
  {
    if c.owner != "java/lang/Thread" then None
    else if c.name == "sleep" then
      if c.desc == "(J)V" then Some([InvokeMethods(SLEEP_1)])
      else if c.desc == "(JI)V" then Some([InvokeMethods(SLEEP_2)])
      else None
    else None
  }

  /** `processWait`: a virtual `wait` with any owner and one of the three `Object.wait` descriptors. */
  function WaitRule(c: Insn): (r: Option<seq<Insn>>)
    requires c.Call?
    ensures r.Some? <==> c.opcode == INVOKEVIRTUAL && c.name == "wait" && c.desc in {"()V", "(J)V", "(JI)V"}
    ensures r.Some? ==> r.value == [InvokeMethods(if c.desc == "()V" then WAIT_ON_0 else if c.desc == "(J)V" then WAIT_ON_1 else WAIT_ON_2)]
  {
    if c.opcode == INVOKEVIRTUAL && c.name == "wait" then
      match c.desc
      case "()V" => Some([InvokeMethods(WAIT_ON_0)])
      case "(J)V" => Some([InvokeMethods(WAIT_ON_1)])
      case "(JI)V" => Some([InvokeMethods(WAIT_ON_2)])
      case _ => None
    else None
  }

  /** `processNotify`: a virtual `notify()V` or `notifyAll()V` with any owner. */
  function NotifyRule(c: Insn): (r: Option<seq<Insn>>)
    requires c.Call?
    ensures r.Some? <==> c.opcode == INVOKEVIRTUAL && c.desc == "()V" && c.name in {"notify", "notifyAll"}
    ensures r.Some? ==> r.value == [InvokeMethods(if c.name == "notify" then NOTIFY else NOTIFY_ALL)]
  {
    if c.opcode == INVOKEVIRTUAL && c.name == "notify" && c.desc == "()V" then Some([InvokeMethods(NOTIFY)])
    else if c.opcode == INVOKEVIRTUAL && c.name == "notifyAll" && c.desc == "()V" then Some([InvokeMethods(NOTIFY_ALL)])
    else None
  }

  /**
   * `processUnsafe`: `sun/misc/Unsafe.park` and `unpark`, whatever the
   * opcode and descriptor; the static call is followed by one POP, which
   * drops the `Unsafe` receiver left under the arguments.
   */
  function UnsafeRule(c: Insn): (r: Option<seq<Insn>>)
    requires c.Call?
    ensures r.Some? <==> c.owner == "sun/misc/Unsafe" && c.name in {"park", "unpark"}
    ensures r.Some? ==> r.value == [InvokeMethods(if c.name == "park" then PARK else UNPARK), Op(POP)]
  {
    if c.owner == "sun/misc/Unsafe" then
      if c.name == "park" then Some([InvokeMethods(PARK), Op(POP)])
      else if c.name == "unpark" then Some([InvokeMethods(UNPARK), Op(POP)])
      else None
    else None
  }

  /** `visitMethodInsn`: the first rule that recognises the call, or the call itself. */
  function RewriteCall(c: Insn): (r: seq<Insn>)
    requires c.Call?
    ensures SystemTimeRule(c).Some? ==> r == SystemTimeRule(c).value
    ensures SystemTimeRule(c).None? && SleepRule(c).Some? ==> r == SleepRule(c).value
    ensures SystemTimeRule(c).None? && SleepRule(c).None? && WaitRule(c).Some? ==> r == WaitRule(c).value
    ensures SystemTimeRule(c).None? && SleepRule(c).None? && WaitRule(c).None? && NotifyRule(c).Some? ==> r == NotifyRule(c).value
    ensures SystemTimeRule(c).None? && SleepRule(c).None? && WaitRule(c).None? && NotifyRule(c).None? && UnsafeRule(c).Some? ==>
              r == UnsafeRule(c).value
    ensures Unmatched(c) ==> r == [c]
  {
    var system := SystemTimeRule(c);
    if system.Some? then system.value
    else
      var sleep := SleepRule(c);
      if sleep.Some? then sleep.value
      else
        var wait := WaitRule(c);
        if wait.Some? then wait.value
        else
          var notify := NotifyRule(c);
          if notify.Some? then notify.value
          else
            var unsafe := UnsafeRule(c);
            if unsafe.Some? then unsafe.value else [c]
  }

  /** No rule recognises `c`. */
  predicate Unmatched(c: Insn)
    requires c.Call?
  {
    SystemTimeRule(c).None? && SleepRule(c).None? && WaitRule(c).None? && NotifyRule(c).None? && UnsafeRule(c).None?
  }

  /** The rewrite of one visitor event: calls go through the rules, everything else passes. */
  function RewriteInsn(i: Insn): (r: seq<Insn>)
    ensures !i.Call? ==> r == [i]
  {
    if i.Call? then RewriteCall(i) else [i]
  }

  /**
   * The rewrite of a whole method body: each event's rewrite, in order.
   * Nothing is dropped, and a body without calls passes through unchanged.
   */
  function RewriteCode(code: seq<Insn>): (r: seq<Insn>)
    ensures |code| <= |r|
    ensures (forall i :: i in code ==> !i.Call?) ==> r == code
  {
    if code == [] then [] else RewriteInsn(code[0]) + RewriteCode(code[1..])
  }

  /**
   * The rules recognise disjoint sets of calls, so the order in which they
   * are tried never matters.
   */
  lemma RulesDisjoint(c: Insn)
    requires c.Call?
    ensures SystemTimeRule(c).Some? ==> SleepRule(c).None? && WaitRule(c).None? && NotifyRule(c).None? && UnsafeRule(c).None?
    ensures SleepRule(c).Some? ==> WaitRule(c).None? && NotifyRule(c).None? && UnsafeRule(c).None?
    ensures WaitRule(c).Some? ==> NotifyRule(c).None? && UnsafeRule(c).None?
    ensures NotifyRule(c).Some? ==> UnsafeRule(c).None?
  {
  }

  /**
   * The calls the rewrite emits are static calls into `Methods`, possibly
   * followed by a POP, and a forwarded call is one no rule recognises.
   */
  lemma RewriteShape(c: Insn)
    requires c.Call?
    ensures Unmatched(c) <==> RewriteCall(c) == [c]
    ensures !Unmatched(c) ==> RewriteCall(c)[0].Call? && RewriteCall(c)[0].opcode == INVOKESTATIC && CallsMethods(RewriteCall(c)[0])
    ensures !Unmatched(c) ==> |RewriteCall(c)| == 1 || RewriteCall(c)[1..] == [Op(POP)]
  {
    if !Unmatched(c) {
      assert RewriteCall(c)[0].owner == METHODS_OWNER;
    }
  }

  /** A static call into `Methods` is recognised by no rule. */
  lemma MethodsCallsUnmatched(c: Insn)
    requires c.Call? && c.opcode == INVOKESTATIC && c.owner == METHODS_OWNER
    ensures Unmatched(c)
  {
  }

  /**
   * What the rewrite emits is left alone by the rules: every event of a
   * rewritten body rewrites to itself, so no recognised call survives.
   */
  lemma {:induction false} RewriteLeavesNoMatch(code: seq<Insn>)
    ensures forall i :: i in RewriteCode(code) ==> RewriteInsn(i) == [i]
  {
    if code != [] {
      RewriteLeavesNoMatch(code[1..]);
      var head := RewriteInsn(code[0]);
      forall i | i in head ensures RewriteInsn(i) == [i] {
        if code[0].Call? && !Unmatched(code[0]) {
          RewriteShape(code[0]);
          if i != Op(POP) {
            assert i == head[0];
            MethodsCallsUnmatched(i);
          }
        }
      }
    }
  }

  /** Rewriting distributes over concatenation of bodies. */
  lemma {:induction false} RewriteCodeAppend(a: seq<Insn>, b: seq<Insn>)
    ensures RewriteCode(a + b) == RewriteCode(a) + RewriteCode(b)
  {
    if a == [] {
      assert a + b == b;
    } else {
      assert (a + b)[0] == a[0];
      assert (a + b)[1..] == a[1..] + b;
      RewriteCodeAppend(a[1..], b);
    }
  }

  /** A body every event of which rewrites to itself is left unchanged. */
  lemma {:induction false} RewriteFixed(code: seq<Insn>)
    requires forall i :: i in code ==> RewriteInsn(i) == [i]
    ensures RewriteCode(code) == code
  {
    if code != [] {
      assert code[0] in code;
      assert forall i :: i in code[1..] ==> i in code;
      RewriteFixed(code[1..]);
    }
  }

  /** Instrumenting an instrumented body again changes nothing. */
  lemma RewriteIdempotent(code: seq<Insn>)
    ensures RewriteCode(RewriteCode(code)) == RewriteCode(code)
  {
    RewriteLeavesNoMatch(code);
    RewriteFixed(RewriteCode(code));
  }

  /**
   * A call whose target has the JDK's own signature: the time sources and
   * `sleep` are static methods, `wait` and `notify` are virtual, and
   * `Unsafe.park`/`unpark` are virtual with their JDK descriptors.
   */
  predicate JdkShaped(c: Insn)
    requires c.Call?
  {
    && (c.owner in {"java/lang/System", "java/lang/Thread"} && c.name in {"currentTimeMillis", "nanoTime", "sleep"} ==>
          c.opcode == INVOKESTATIC)
    && (c.owner == "sun/misc/Unsafe" && c.name == "park" ==> c.opcode == INVOKEVIRTUAL && c.desc == "(ZJ)V")
    && (c.owner == "sun/misc/Unsafe" && c.name == "unpark" ==> c.opcode == INVOKEVIRTUAL && c.desc == "(" + OBJECT_TYPE + ")V")
  }

  /**
   * The replacement consumes what the original call consumed: a static
   * original becomes a static call with the same descriptor; a virtual
   * `wait` or `notify` becomes a static call taking the receiver as a first
   * `Object` parameter; an `Unsafe` call becomes a static call with the same
   * descriptor, and the POP after it removes the receiver, the only operand
   * the static call does not take.
   */
  lemma ArgumentsPreserved(c: Insn)
    requires c.Call? && JdkShaped(c) && !Unmatched(c)
    ensures var r := RewriteCall(c);
      || (|r| == 1 && c.opcode == INVOKESTATIC && r[0].desc == c.desc)
      || (|r| == 1 && c.opcode == INVOKEVIRTUAL && r[0].desc == WithReceiver(c.desc))
      || (|r| == 2 && c.opcode == INVOKEVIRTUAL && r[0].desc == c.desc && r[1] == Op(POP))
  {
    if WaitRule(c).Some? {
      assert "()V"[1..] == ")V" && "(J)V"[1..] == "J)V" && "(JI)V"[1..] == "JI)V";
    } else if NotifyRule(c).Some? {
      assert "()V"[1..] == ")V";
    }
  }

  /** The mapping table, call by call. */
  lemma RewriteTable(owner: string, itf: bool)
    ensures RewriteCall(Call(INVOKEVIRTUAL, owner, "wait", "()V", itf)) == [InvokeMethods(WAIT_ON_0)]
    ensures RewriteCall(Call(INVOKEVIRTUAL, owner, "wait", "(J)V", itf)) == [InvokeMethods(WAIT_ON_1)]
    ensures RewriteCall(Call(INVOKEVIRTUAL, owner, "wait", "(JI)V", itf)) == [InvokeMethods(WAIT_ON_2)]
    ensures RewriteCall(Call(INVOKEVIRTUAL, owner, "notify", "()V", itf)) == [InvokeMethods(NOTIFY)]
    ensures RewriteCall(Call(INVOKEVIRTUAL, owner, "notifyAll", "()V", itf)) == [InvokeMethods(NOTIFY_ALL)]
    ensures RewriteCall(Call(INVOKESTATIC, "java/lang/Thread", "sleep", "(J)V", itf)) == [InvokeMethods(SLEEP_1)]
    ensures RewriteCall(Call(INVOKESTATIC, "java/lang/Thread", "sleep", "(JI)V", itf)) == [InvokeMethods(SLEEP_2)]
    ensures RewriteCall(Call(INVOKESTATIC, "java/lang/System", "currentTimeMillis", "()J", itf)) == [InvokeMethods(TIME_MILLIS)]
    ensures RewriteCall(Call(INVOKESTATIC, "java/lang/System", "nanoTime", "()J", itf)) == [InvokeMethods(NANO_TIME)]
    ensures RewriteCall(Call(INVOKEVIRTUAL, "sun/misc/Unsafe", "park", "(ZJ)V", itf)) == [InvokeMethods(PARK), Op(POP)]
    ensures RewriteCall(Call(INVOKEVIRTUAL, "sun/misc/Unsafe", "unpark", "(" + OBJECT_TYPE + ")V", itf))
         == [InvokeMethods(UNPARK), Op(POP)]
  {
  }

  /** Calls near the rules that are forwarded: other descriptors, a non-virtual `wait`, a `Thread.sleep` the JDK does not have. */
  lemma Forwarded(owner: string, itf: bool)
    ensures RewriteCall(Call(INVOKEVIRTUAL, owner, "wait", "(I)V", itf)) == [Call(INVOKEVIRTUAL, owner, "wait", "(I)V", itf)]
    ensures RewriteCall(Call(INVOKESPECIAL, owner, "wait", "()V", itf)) == [Call(INVOKESPECIAL, owner, "wait", "()V", itf)]
    ensures RewriteCall(Call(INVOKESTATIC, "java/lang/Thread", "sleep", "(I)V", itf))
         == [Call(INVOKESTATIC, "java/lang/Thread", "sleep", "(I)V", itf)]
    ensures RewriteCall(Call(INVOKESTATIC, "java/lang/System", "currentTimeMillis", "()I", itf))
         == [Call(INVOKESTATIC, "java/lang/System", "currentTimeMillis", "()I", itf)]
  {
  }

  /**
   * The visitor itself: `mv` is the generator adapter it emits into,
   * modelled by the events emitted so far. Each `process*` method emits
   * its replacement when it recognises the call and reports whether it did.
   */
  class CallRewriter {
    var emitted: seq<Insn>

    constructor ()
      ensures emitted == []
    {
      emitted := [];
    }

    method ProcessRule(c: Insn, rule: Option<seq<Insn>>) returns (handled: bool)
      modifies this
      ensures handled == rule.Some?
      ensures emitted == old(emitted) + (if rule.Some? then rule.value else [])
    {
      if rule.Some? {
        emitted := emitted + rule.value;
        return true;
      }
      return false;
    }

    /** `visitMethodInsn`: the `||` chain of the five rules, then the fall-through forward. */
    method VisitMethodInsn(c: Insn)
      requires c.Call?
      modifies this
      ensures emitted == old(emitted) + RewriteCall(c)
    {
      var handled := ProcessRule(c, SystemTimeRule(c));
      if !handled {
        handled := ProcessRule(c, SleepRule(c));
      }
      if !handled {
        handled := ProcessRule(c, WaitRule(c));
      }
      if !handled {
        handled := ProcessRule(c, NotifyRule(c));
      }
      if !handled {
        handled := ProcessRule(c, UnsafeRule(c));
      }
      if !handled {
        emitted := emitted + [c];
      }
    }

    /** Any event other than a method call is forwarded to `mv` as it is. */
    method VisitOther(i: Insn)
      requires !i.Call?
      modifies this
      ensures emitted == old(emitted) + RewriteInsn(i)
    {
      emitted := emitted + [i];
    }
  }
}
