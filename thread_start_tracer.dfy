/**
 * `ThreadStartTracer`: before every call of `java/lang/Thread.start0` the
 * receiver is duplicated and handed to `Methods.startThread(Thread)`, so the
 * agent learns which threads are started (and from testing code or not)
 * before the new thread runs. Every call is forwarded.
 */
module ThreadStartTracer {
  import opened JavaTypes
  import opened Bytecode

  /** The call the tracer instruments. */
  predicate StartsThread(c: Insn)
    requires c.Call?
  {
    c.owner == "java/lang/Thread" && c.name == "start0"
  }

  /** `visitMethodInsn`: the events emitted for one call. */
  function Trace(c: Insn): (r: seq<Insn>)
    requires c.Call?
    ensures |r| > 0 && r[|r| - 1] == c
    ensures StartsThread(c) ==> r[..|r| - 1] == [Op(DUP), InvokeMethods(START_THREAD)]
    ensures !StartsThread(c) ==> r == [c]
  {
    if StartsThread(c) then [Op(DUP), InvokeMethods(START_THREAD), c] else [c]
  }

  /**
   * The tracer over a method body: calls are traced, every other event is
   * forwarded.
   */
  function TraceCode(code: seq<Insn>): seq<Insn> {
    if code == [] then [] else (if code[0].Call? then Trace(code[0]) else [code[0]]) + TraceCode(code[1..])
  }

  /** A body that never calls `start0` passes through the tracer unchanged. */
  lemma {:induction false} NoStartUntouched(code: seq<Insn>)
    requires forall i :: i in code ==> !(i.Call? && StartsThread(i))
    ensures TraceCode(code) == code
    decreases code
  {
    if code != [] {
      assert code[0] in code;
      assert forall i :: i in code[1..] ==> i in code;
      NoStartUntouched(code[1..]);
    }
  }

  /** The inserted call is the static `Methods.startThread(Ljava/lang/Thread;)V`. */
  lemma InsertedCallTarget(c: Insn)
    requires c.Call? && StartsThread(c)
    ensures var i := Trace(c)[1];
      i.Call? && i.opcode == INVOKESTATIC && i.owner == METHODS_OWNER && i.name == "startThread"
      && i.desc == "(Ljava/lang/Thread;)V"
  {
  }

  // ---- What the inserted instructions do to the operand stack ----

  /**
   * The operand stack as a sequence of values (top last) and the threads
   * `startThread` has been given so far. Only the two inserted instructions
   * are interpreted.
   */
  datatype Frame = Frame(stack: seq<nat>, started: seq<nat>)

  function Exec(f: Frame, i: Insn): Option<Frame> {
    if i == Op(DUP) then
      if f.stack == [] then None else Some(f.(stack := f.stack + [f.stack[|f.stack| - 1]]))
    else if i == InvokeMethods(START_THREAD) then
      if f.stack == [] then None
      else Some(Frame(f.stack[..|f.stack| - 1], f.started + [f.stack[|f.stack| - 1]]))
    else None
  }

  /**
   * `start0()V` takes only its receiver, so the receiver is on top of the
   * stack at the call. The inserted pair passes exactly that thread to
   * `startThread` and leaves the stack as it found it for `start0`.
   */
  lemma InsertedPairPassesReceiver(c: Insn, below: seq<nat>, thread: nat, started: seq<nat>)
    requires c.Call? && StartsThread(c) && c.desc == "()V"
    ensures var r := Trace(c);
      var f1 := Exec(Frame(below + [thread], started), r[0]);
      f1.Some? && Exec(f1.value, r[1]) == Some(Frame(below + [thread], started + [thread]))
  {
    var f1 := Frame(below + [thread, thread], started);
    var s := below + [thread];
    assert s[|s| - 1] == thread && s + [thread] == below + [thread, thread];
    assert Exec(Frame(below + [thread], started), Op(DUP)) == Some(f1);
    assert f1.stack[..|f1.stack| - 1] == below + [thread];
  }

  // ---- The inverse ----

  /** Removes every inserted pair in front of a `start0` call. */
  function Untrace(code: seq<Insn>): seq<Insn>
    decreases |code|
  {
    if code == [] then []
    else if |code| >= 3 && code[..2] == [Op(DUP), InvokeMethods(START_THREAD)] && code[2].Call? && StartsThread(code[2]) then
      [code[2]] + Untrace(code[3..])
    else [code[0]] + Untrace(code[1..])
  }

  /** Original code of an application class: it does not call into the agent's `Methods`. */
  predicate Original(code: seq<Insn>) {
    forall i :: i in code ==> !CallsMethods(i)
  }

  /** The tracer never drops or reorders anything: the original code is recovered exactly. */
  lemma {:induction false} UntraceTrace(code: seq<Insn>)
    requires Original(code)
    ensures Untrace(TraceCode(code)) == code
    decreases code
  {
    if code != [] {
      var c := code[0];
      var rest := TraceCode(code[1..]);
      var t := TraceCode(code);
      assert forall i :: i in code[1..] ==> i in code;
      UntraceTrace(code[1..]);
      assert c in code;
      if c.Call? && StartsThread(c) {
        assert t == [Op(DUP), InvokeMethods(START_THREAD), c] + rest;
        assert t[..2] == [Op(DUP), InvokeMethods(START_THREAD)] && t[2] == c && t[3..] == rest;
      } else {
        assert t == [c] + rest;
        assert t[1..] == rest;
        if |rest| > 0 {
          TraceHead(code[1..]);
          assert t[1] == rest[0];
        }
      }
    }
  }

  /** The traced form of original code never starts with the inserted call. */
  lemma TraceHead(code: seq<Insn>)
    requires Original(code) && |TraceCode(code)| > 0
    ensures !CallsMethods(TraceCode(code)[0])
  {
    assert code[0] in code;
  }

  /** The visitor: the events emitted so far. */
  class ThreadStartTracer {
    var emitted: seq<Insn>

    constructor ()
      ensures emitted == []
    {
      emitted := [];
    }

    method VisitMethodInsn(c: Insn)
      requires c.Call?
      modifies this
      ensures emitted == old(emitted) + Trace(c)
    {
      if c.owner == "java/lang/Thread" && c.name == "start0" {
        emitted := emitted + [Op(DUP)];
        emitted := emitted + [InvokeMethods(START_THREAD)];
      }
      emitted := emitted + [c];
    }

    /** Any other event goes unchanged to the next visitor, as `MethodVisitor` forwards it. */
    method VisitOther(i: Insn)
      requires !i.Call?
      modifies this
      ensures emitted == old(emitted) + [i]
    {
      emitted := emitted + [i];
    }
  }

  /** Drives a fresh tracer over a method body, event by event. */
  method TraceMethod(body: seq<Insn>) returns (code: seq<Insn>)
    ensures code == TraceCode(body)
  {
    var tracer := new ThreadStartTracer();
    for k := 0 to |body|
      invariant tracer.emitted == TraceCode(body[..k])
    {
      TraceCodeSnoc(body, k);
      if body[k].Call? {
        tracer.VisitMethodInsn(body[k]);
      } else {
        tracer.VisitOther(body[k]);
      }
    }
    assert body[..|body|] == body;
    code := tracer.emitted;
  }

  lemma TraceCodeSnoc(body: seq<Insn>, k: nat)
    requires k < |body|
    ensures TraceCode(body[..k + 1]) == TraceCode(body[..k]) + (if body[k].Call? then Trace(body[k]) else [body[k]])
  {
    TraceCodeAppend(body[..k], [body[k]]);
    assert body[..k] + [body[k]] == body[..k + 1];
    assert [body[k]][1..] == [];
  }

  lemma {:induction false} TraceCodeAppend(a: seq<Insn>, b: seq<Insn>)
    ensures TraceCode(a + b) == TraceCode(a) + TraceCode(b)
    decreases a
  {
    if a == [] {
      assert a + b == b;
    } else {
      assert (a + b)[0] == a[0] && (a + b)[1..] == a[1..] + b;
      TraceCodeAppend(a[1..], b);
    }
  }
}
