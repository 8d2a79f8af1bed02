/**
 * `TestEnterPointsAdder`: wraps a test method so that it calls
 * `enterTestingCodeMethod` on entry and `leaveTestingCodeMethod` before each
 * of the six return instructions and in a catch-all handler that rethrows.
 * The calls go to the facade `com/devexperts/timetest/Methods`, which
 * declares no such methods in the files modelled here; the model takes each
 * of them to forward to the like-named package-private method of
 * `TimeProvider` that moves its per-thread counter.
 */
module TestEntryPoints {
  import opened JavaTypes
  import opened Bytecode
  import ProviderSelection

  /** `visitCode`: open the try region, then enter. */
  function Prologue(): (p: seq<Insn>)
    ensures p == [Mark(TryLabel), InvokeMethods(ENTER_TRANSFORMED_METHOD)]
  {
    [Mark(TryLabel), InvokeMethods(ENTER_TRANSFORMED_METHOD)]
  }

  /** `visitInsn` and every other event: a return is preceded by the leave call, the rest is forwarded. */
  function Wrap(i: Insn): (r: seq<Insn>)
    ensures i.Op? && IsReturn(i.opcode) ==> r == [InvokeMethods(LEAVE_TRANSFORMED_METHOD), i]
    ensures !(i.Op? && IsReturn(i.opcode)) ==> r == [i]
  {
    if i.Op? && IsReturn(i.opcode) then [InvokeMethods(LEAVE_TRANSFORMED_METHOD), i] else [i]
  }

  function WrapAll(body: seq<Insn>): seq<Insn> {
    if body == [] then [] else Wrap(body[0]) + WrapAll(body[1..])
  }

  /** `visitMaxs`: the catch-all handler over [tryLabel, catchLabel): store, leave, reload, rethrow. */
  function Epilogue(throwableLocal: nat): (e: seq<Insn>)
    ensures |e| == 6 && e[0] == Mark(CatchLabel) && e[2] == InvokeMethods(LEAVE_TRANSFORMED_METHOD)
    ensures e[1] == Var(ASTORE, throwableLocal) && e[3] == Var(ALOAD, throwableLocal)
    ensures e[4] == Op(ATHROW) && e[5] == CatchAll(TryLabel, CatchLabel, CatchLabel)
  {
    [Mark(CatchLabel), Var(ASTORE, throwableLocal), InvokeMethods(LEAVE_TRANSFORMED_METHOD),
     Var(ALOAD, throwableLocal), Op(ATHROW), CatchAll(TryLabel, CatchLabel, CatchLabel)]
  }

  /** The whole instrumented test method. */
  function Instrument(throwableLocal: nat, body: seq<Insn>): seq<Insn> {
    Prologue() + WrapAll(body) + Epilogue(throwableLocal)
  }

  lemma {:induction false} WrapAllAppend(a: seq<Insn>, b: seq<Insn>)
    ensures WrapAll(a + b) == WrapAll(a) + WrapAll(b)
    decreases a
  {
    if a == [] {
      assert a + b == b;
    } else {
      assert (a + b)[0] == a[0];
      assert (a + b)[1..] == a[1..] + b;
      WrapAllAppend(a[1..], b);
    }
  }

  lemma WrapAllSnoc(body: seq<Insn>, k: nat)
    requires k < |body|
    ensures WrapAll(body[..k + 1]) == WrapAll(body[..k]) + Wrap(body[k])
  {
    WrapAllAppend(body[..k], [body[k]]);
    assert body[..k] + [body[k]] == body[..k + 1];
    assert [body[k]][1..] == [];
  }

  // ---- The inverse: reading the original body back ----

  /** Original code of an application class: it does not call into the agent's `Methods`. */
  predicate Original(body: seq<Insn>) {
    forall i :: i in body ==> !CallsMethods(i)
  }

  /** Removes the leave call in front of every return. */
  function Unwrap(code: seq<Insn>): seq<Insn>
    decreases |code|
  {
    if code == [] then []
    else if |code| >= 2 && code[0] == InvokeMethods(LEAVE_TRANSFORMED_METHOD) && code[1].Op? && IsReturn(code[1].opcode) then
      [code[1]] + Unwrap(code[2..])
    else [code[0]] + Unwrap(code[1..])
  }

  lemma {:induction false} UnwrapWrapAll(body: seq<Insn>)
    requires Original(body)
    ensures Unwrap(WrapAll(body)) == body
    decreases body
  {
    if body != [] {
      var w := WrapAll(body);
      var rest := WrapAll(body[1..]);
      assert forall i :: i in body[1..] ==> i in body;
      UnwrapWrapAll(body[1..]);
      assert body[0] in body;
      if body[0].Op? && IsReturn(body[0].opcode) {
        assert w == [InvokeMethods(LEAVE_TRANSFORMED_METHOD), body[0]] + rest;
        assert w[2..] == rest;
      } else {
        assert w == [body[0]] + rest;
        assert w[1..] == rest;
        assert w[0] != InvokeMethods(LEAVE_TRANSFORMED_METHOD);
      }
    }
  }

  /** The original body, read back from the instrumented method. */
  function Strip(code: seq<Insn>): Option<seq<Insn>> {
    if |code| >= 8 then Some(Unwrap(code[2..|code| - 6])) else None
  }

  /** Instrumentation keeps the original code intact and in order: the body is recovered exactly. */
  lemma StripInstrument(throwableLocal: nat, body: seq<Insn>)
    requires Original(body)
    ensures Strip(Instrument(throwableLocal, body)) == Some(body)
  {
    var code := Instrument(throwableLocal, body);
    assert code[2..|code| - 6] == WrapAll(body);
    UnwrapWrapAll(body);
  }

  // ---- The counter along an execution path ----

  /**
   * The counter calls an instruction makes, taking a facade call of the
   * enter or leave name to reach `TimeProvider`'s counter.
   */
  function CounterCallsOf(i: Insn): (cs: seq<ProviderSelection.CounterCall>)
    ensures |cs| <= 1
    ensures !CallsMethods(i) ==> cs == []
  {
    if CallsMethods(i) && i.name == ENTER_TRANSFORMED_METHOD.name then [ProviderSelection.EnterMethod]
    else if CallsMethods(i) && i.name == LEAVE_TRANSFORMED_METHOD.name then [ProviderSelection.LeaveMethod]
    else []
  }

  /** The counter calls along a path, in order. */
  function CounterCalls(path: seq<Insn>): seq<ProviderSelection.CounterCall> {
    if path == [] then [] else CounterCallsOf(path[0]) + CounterCalls(path[1..])
  }

  lemma {:induction false} CounterCallsAppend(a: seq<Insn>, b: seq<Insn>)
    ensures CounterCalls(a + b) == CounterCalls(a) + CounterCalls(b)
    decreases a
  {
    if a == [] {
      assert a + b == b;
    } else {
      assert (a + b)[0] == a[0];
      assert (a + b)[1..] == a[1..] + b;
      CounterCallsAppend(a[1..], b);
    }
  }

  /** Original code makes no counter calls. */
  lemma {:induction false} OriginalMakesNoCalls(path: seq<Insn>)
    requires Original(path)
    ensures CounterCalls(path) == []
    decreases path
  {
    if path != [] {
      assert path[0] in path;
      assert forall i :: i in path[1..] ==> i in path;
      OriginalMakesNoCalls(path[1..]);
    }
  }

  lemma {:induction false} NetAppend(a: seq<ProviderSelection.CounterCall>, b: seq<ProviderSelection.CounterCall>)
    ensures ProviderSelection.Net(a + b) == ProviderSelection.Net(a) + ProviderSelection.Net(b)
    decreases a
  {
    if a == [] {
      assert a + b == b;
    } else {
      assert (a + b)[0] == a[0];
      assert (a + b)[1..] == a[1..] + b;
      NetAppend(a[1..], b);
    }
  }

  /** The two counter entry points, classified. */
  lemma CounterEntryPoints()
    ensures CounterCallsOf(InvokeMethods(ENTER_TRANSFORMED_METHOD)) == [ProviderSelection.EnterMethod]
    ensures CounterCallsOf(InvokeMethods(LEAVE_TRANSFORMED_METHOD)) == [ProviderSelection.LeaveMethod]
  {
    assert ENTER_TRANSFORMED_METHOD.name[0] == 'e' && LEAVE_TRANSFORMED_METHOD.name[0] == 'l';
  }

  lemma CounterCallsSingle(i: Insn)
    ensures CounterCalls([i]) == CounterCallsOf(i)
  {
    assert [i][1..] == [];
  }

  /** The prologue enters once, a wrapped return and the handler leave once each. */
  lemma InsertedCalls(throwableLocal: nat, r: int)
    requires IsReturn(r)
    ensures CounterCalls(Prologue()) == [ProviderSelection.EnterMethod]
    ensures CounterCalls(Wrap(Op(r))) == [ProviderSelection.LeaveMethod]
    ensures CounterCalls(Epilogue(throwableLocal)) == [ProviderSelection.LeaveMethod]
  {
    CounterEntryPoints();
    var enter := InvokeMethods(ENTER_TRANSFORMED_METHOD);
    var leave := InvokeMethods(LEAVE_TRANSFORMED_METHOD);
    CounterCallsSingle(Mark(TryLabel));
    CounterCallsSingle(enter);
    CounterCallsAppend([Mark(TryLabel)], [enter]);
    CounterCallsSingle(leave);
    CounterCallsSingle(Op(r));
    CounterCallsAppend([leave], [Op(r)]);
    var head := [Mark(CatchLabel), Var(ASTORE, throwableLocal)];
    var tail := [Var(ALOAD, throwableLocal), Op(ATHROW), CatchAll(TryLabel, CatchLabel, CatchLabel)];
    assert Epilogue(throwableLocal) == head + [leave] + tail;
    OriginalMakesNoCalls(head);
    OriginalMakesNoCalls(tail);
    CounterCallsAppend(head, [leave]);
    CounterCallsAppend(head + [leave], tail);
  }

  /**
   * Enter and leave balance on every exit path. `path` is what runs in
   * between: the method's own instructions and the full traces of the
   * instrumented methods it calls, so its counter calls balance already.
   * Entering with counter `count`, the body runs with `count + 1` and the
   * method returns, or rethrows, with `count` again.
   */
  lemma CounterBalancedOnEveryExit(throwableLocal: nat, path: seq<Insn>, r: int, count: Int32)
    requires ProviderSelection.Net(CounterCalls(path)) == 0 && IsReturn(r)
    ensures ProviderSelection.Run(count, CounterCalls(Prologue() + path)) == Wrap32(count + 1)
    ensures ProviderSelection.Run(count, CounterCalls(Prologue() + path + Wrap(Op(r)))) == count
    ensures ProviderSelection.Run(count, CounterCalls(Prologue() + path + Epilogue(throwableLocal))) == count
  {
    InsertedCalls(throwableLocal, r);
    var calls := CounterCalls(path);
    CounterCallsAppend(Prologue(), path);
    CounterCallsAppend(Prologue() + path, Wrap(Op(r)));
    CounterCallsAppend(Prologue() + path, Epilogue(throwableLocal));
    var enter: seq<ProviderSelection.CounterCall> := [ProviderSelection.EnterMethod];
    var leave: seq<ProviderSelection.CounterCall> := [ProviderSelection.LeaveMethod];
    NetAppend(enter, calls);
    NetAppend(enter + calls, leave);
    assert ProviderSelection.Net(enter) == 1 && ProviderSelection.Net(leave) == -1;
    ProviderSelection.RunIsNet(count, enter + calls);
    ProviderSelection.BalancedRestores(count, enter + calls + leave);
  }

  /**
   * A test method called from outside any test method (counter 0) runs its
   * body with counter 1, so `getTimeProvider` returns the installed provider
   * there; in the original code alone the counter stays at 1.
   */
  lemma TopLevelTestSeesProvider(path: seq<Insn>)
    requires Original(path)
    ensures ProviderSelection.Run(0, CounterCalls(Prologue() + path)) == 1
  {
    OriginalMakesNoCalls(path);
    CounterBalancedOnEveryExit(0, path, RETURN, 0);
  }

  /** The visitor: the events emitted so far. */
  class TestEnterPointsAdder {
    var emitted: seq<Insn>

    constructor ()
      ensures emitted == []
    {
      emitted := [];
    }

    method VisitCode()
      modifies this
      ensures emitted == old(emitted) + Prologue()
    {
      emitted := emitted + [Mark(TryLabel)];
      emitted := emitted + [InvokeMethods(ENTER_TRANSFORMED_METHOD)];
    }

    /** `visitInsn` and the events the visitor does not override. */
    method VisitInsn(i: Insn)
      modifies this
      ensures emitted == old(emitted) + Wrap(i)
    {
      if i.Op? && IsReturn(i.opcode) {
        emitted := emitted + [InvokeMethods(LEAVE_TRANSFORMED_METHOD)];
      }
      emitted := emitted + [i];
    }

    /** `visitMaxs`, with `throwableLocal` the index `newLocal(THROWABLE_TYPE)` returns. */
    method VisitMaxs(throwableLocal: nat)
      modifies this
      ensures emitted == old(emitted) + Epilogue(throwableLocal)
    {
      emitted := emitted + [Mark(CatchLabel), Var(ASTORE, throwableLocal)];
      emitted := emitted + [InvokeMethods(LEAVE_TRANSFORMED_METHOD)];
      emitted := emitted + [Var(ALOAD, throwableLocal), Op(ATHROW), CatchAll(TryLabel, CatchLabel, CatchLabel)];
    }
  }

  /** Visiting a method's events one by one emits `Instrument` of them. */
  method VisitMethod(throwableLocal: nat, body: seq<Insn>) returns (code: seq<Insn>)
    ensures code == Instrument(throwableLocal, body)
  {
    var adder := new TestEnterPointsAdder();
    adder.VisitCode();
    for k := 0 to |body|
      invariant adder.emitted == Prologue() + WrapAll(body[..k])
    {
      WrapAllSnoc(body, k);
      adder.VisitInsn(body[k]);
    }
    adder.VisitMaxs(throwableLocal);
    assert body[..|body|] == body;
    code := adder.emitted;
  }
}
