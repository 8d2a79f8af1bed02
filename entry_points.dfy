/**
 * `EntryPointsAdder`: wraps a method so that the thread's "in testing code"
 * flag is saved on entry, set for the method's kind (testing or
 * non-testing code), and restored from the saved value on every exit: before
 * each of the six return instructions and in a catch-all handler that
 * rethrows.
 */
module EntryPoints {
  import opened JavaTypes
  import opened Bytecode
  import opened TestingCodeFlag

  /** The enter and leave entry points for the method's kind. */
  function EnterRef(testingCode: bool): MethodRef {
    if testingCode then ENTER_TESTING_CODE else ENTER_NON_TESTING_CODE
  }

  function LeaveRef(testingCode: bool): MethodRef {
    if testingCode then LEAVE_TESTING_CODE else LEAVE_NON_TESTING_CODE
  }

  /** `visitCode`: save `isInTestingCode()` into the fresh local, open the try region, enter. */
  function Prologue(testingCode: bool, flagLocal: nat): (p: seq<Insn>)
    ensures |p| == 5 && p[2] == Mark(TryLabel)
    ensures p[0] == InvokeMethods(IS_IN_TESTING_CODE) && p[1] == Var(ISTORE, flagLocal)
    ensures p[3] == Var(ILOAD, flagLocal) && p[4] == InvokeMethods(EnterRef(testingCode))
  {
    [InvokeMethods(IS_IN_TESTING_CODE), Var(ISTORE, flagLocal), Mark(TryLabel),
     Var(ILOAD, flagLocal), InvokeMethods(EnterRef(testingCode))]
  }

  /** The leave call with the saved flag, emitted before a return and in the handler. */
  function Leave(testingCode: bool, flagLocal: nat): seq<Insn> {
    [Var(ILOAD, flagLocal), InvokeMethods(LeaveRef(testingCode))]
  }

  /** `visitInsn` and every other event: a return is preceded by the leave call, the rest is forwarded. */
  function Wrap(testingCode: bool, flagLocal: nat, i: Insn): (r: seq<Insn>)
    ensures i.Op? && IsReturn(i.opcode) ==> r == Leave(testingCode, flagLocal) + [i]
    ensures !(i.Op? && IsReturn(i.opcode)) ==> r == [i]
  {
    if i.Op? && IsReturn(i.opcode) then Leave(testingCode, flagLocal) + [i] else [i]
  }

  function WrapAll(testingCode: bool, flagLocal: nat, body: seq<Insn>): seq<Insn> {
    if body == [] then [] else Wrap(testingCode, flagLocal, body[0]) + WrapAll(testingCode, flagLocal, body[1..])
  }

  /** `visitMaxs`: the catch-all handler over [tryLabel, catchLabel): store, leave, reload, rethrow. */
  function Epilogue(testingCode: bool, flagLocal: nat, throwableLocal: nat): (e: seq<Insn>)
    ensures |e| == 7 && e[0] == Mark(CatchLabel) && e[6] == CatchAll(TryLabel, CatchLabel, CatchLabel)
    ensures e[1] == Var(ASTORE, throwableLocal) && e[2..4] == Leave(testingCode, flagLocal)
    ensures e[4] == Var(ALOAD, throwableLocal) && e[5] == Op(ATHROW)
  {
    [Mark(CatchLabel), Var(ASTORE, throwableLocal)] + Leave(testingCode, flagLocal)
      + [Var(ALOAD, throwableLocal), Op(ATHROW), CatchAll(TryLabel, CatchLabel, CatchLabel)]
  }

  /** The whole instrumented method. */
  function Instrument(testingCode: bool, flagLocal: nat, throwableLocal: nat, body: seq<Insn>): seq<Insn> {
    Prologue(testingCode, flagLocal) + WrapAll(testingCode, flagLocal, body) + Epilogue(testingCode, flagLocal, throwableLocal)
  }

  /** The original code never touches the local `newLocal` allocated for the flag. */
  predicate AvoidsLocal(body: seq<Insn>, flagLocal: nat) {
    forall i :: i in body ==> !(i.Var? && i.local == flagLocal)
  }

  // ---- The inverse: reading the original body back ----

  /** Removes the leave call in front of every return. */
  function Unwrap(testingCode: bool, flagLocal: nat, code: seq<Insn>): seq<Insn>
    decreases |code|
  {
    if code == [] then []
    else if |code| >= 3 && code[..2] == Leave(testingCode, flagLocal) && code[2].Op? && IsReturn(code[2].opcode) then
      [code[2]] + Unwrap(testingCode, flagLocal, code[3..])
    else [code[0]] + Unwrap(testingCode, flagLocal, code[1..])
  }

  lemma {:induction false} UnwrapWrapAll(testingCode: bool, flagLocal: nat, body: seq<Insn>)
    requires AvoidsLocal(body, flagLocal)
    ensures Unwrap(testingCode, flagLocal, WrapAll(testingCode, flagLocal, body)) == body
  {
    if body != [] {
      var w := WrapAll(testingCode, flagLocal, body);
      var rest := WrapAll(testingCode, flagLocal, body[1..]);
      assert forall i :: i in body[1..] ==> i in body;
      UnwrapWrapAll(testingCode, flagLocal, body[1..]);
      assert body[0] in body;
      if body[0].Op? && IsReturn(body[0].opcode) {
        assert w == Leave(testingCode, flagLocal) + [body[0]] + rest;
        assert w[..2] == Leave(testingCode, flagLocal) && w[2] == body[0] && w[3..] == rest;
      } else {
        assert w == [body[0]] + rest;
        assert w[1..] == rest;
        assert w[0] != Var(ILOAD, flagLocal);
        assert |w| >= 3 ==> w[..2][0] == w[0];
      }
    }
  }

  /** The original body, read back from the instrumented method. */
  function Strip(testingCode: bool, flagLocal: nat, code: seq<Insn>): Option<seq<Insn>> {
    if |code| >= 12 then Some(Unwrap(testingCode, flagLocal, code[5..|code| - 7])) else None
  }

  /** Instrumentation keeps the original code intact and in order: the body is recovered exactly. */
  lemma StripInstrument(testingCode: bool, flagLocal: nat, throwableLocal: nat, body: seq<Insn>)
    requires AvoidsLocal(body, flagLocal)
    ensures Strip(testingCode, flagLocal, Instrument(testingCode, flagLocal, throwableLocal, body)) == Some(body)
  {
    var code := Instrument(testingCode, flagLocal, throwableLocal, body);
    var mid := WrapAll(testingCode, flagLocal, body);
    assert code[5..|code| - 7] == mid;
    UnwrapWrapAll(testingCode, flagLocal, body);
  }

  // ---- The flag along an execution path ----

  /**
   * What the flag instructions do, for a path through the instrumented
   * method: the thread's flag, the value of the flag local, and the
   * booleans pushed and not yet consumed. Every other instruction leaves
   * them alone.
   */
  datatype FlagState = FlagState(flag: bool, saved: Option<bool>, stack: seq<bool>)

  /** What one instruction does to the flag state. */
  datatype Effect = Query | Store | Load | Enter(testing: bool) | LeaveTo(testing: bool) | NoEffect

  /** Only calls into `Methods` and uses of the flag local have an effect. */
  function EffectOf(flagLocal: nat, i: Insn): Effect {
    if i.Call? && i.owner == METHODS_OWNER then
      if i.name == IS_IN_TESTING_CODE.name then Query
      else if i.name == ENTER_TESTING_CODE.name then Enter(true)
      else if i.name == LEAVE_TESTING_CODE.name then LeaveTo(true)
      else if i.name == ENTER_NON_TESTING_CODE.name then Enter(false)
      else if i.name == LEAVE_NON_TESTING_CODE.name then LeaveTo(false)
      else NoEffect
    else if i.Var? && i.local == flagLocal then
      if i.opcode == ISTORE then Store else if i.opcode == ILOAD then Load else NoEffect
    else NoEffect
  }

  /** The flag calls the instrumentation inserts, classified. */
  lemma EffectsOfInsertedCalls(flagLocal: nat, testingCode: bool)
    ensures EffectOf(flagLocal, InvokeMethods(IS_IN_TESTING_CODE)) == Query
    ensures EffectOf(flagLocal, InvokeMethods(EnterRef(testingCode))) == Enter(testingCode)
    ensures EffectOf(flagLocal, InvokeMethods(LeaveRef(testingCode))) == LeaveTo(testingCode)
  {
    assert IS_IN_TESTING_CODE.name[0] == 'i';
    assert ENTER_TESTING_CODE.name[0] == 'e' && LEAVE_TESTING_CODE.name[0] == 'l';
    assert ENTER_NON_TESTING_CODE.name[5] == 'N' && LEAVE_NON_TESTING_CODE.name[5] == 'N';
    assert ENTER_TESTING_CODE.name[5] == 'T' && LEAVE_TESTING_CODE.name[5] == 'T';
  }

  /** One step; `None` when a flag call finds no boolean to consume or the local is unset. */
  function Step(flagLocal: nat, s: FlagState, i: Insn): Option<FlagState> {
    match EffectOf(flagLocal, i)
    case Query => Some(s.(stack := s.stack + [s.flag]))
    case Store =>
      if s.stack == [] then None else Some(s.(saved := Some(s.stack[|s.stack| - 1]), stack := s.stack[..|s.stack| - 1]))
    case Load =>
      if s.saved.None? then None else Some(s.(stack := s.stack + [s.saved.value]))
    case Enter(testing) =>
      if s.stack == [] then None
      else
        var b := s.stack[|s.stack| - 1];
        var flag := if testing then AfterEnterTesting(b, s.flag) else AfterEnterNonTesting(b, s.flag);
        Some(FlagState(flag, s.saved, s.stack[..|s.stack| - 1]))
    case LeaveTo(testing) =>
      if s.stack == [] then None
      else
        var b := s.stack[|s.stack| - 1];
        var flag := if testing then AfterLeaveTesting(b, s.flag) else AfterLeaveNonTesting(b, s.flag);
        Some(FlagState(flag, s.saved, s.stack[..|s.stack| - 1]))
    case NoEffect => Some(s)
  }

  function Run(flagLocal: nat, s: FlagState, path: seq<Insn>): Option<FlagState>
    decreases path
  {
    if path == [] then Some(s)
    else
      var next := Step(flagLocal, s, path[0]);
      if next.None? then None else Run(flagLocal, next.value, path[1..])
  }

  lemma {:induction false} RunAppend(flagLocal: nat, s: FlagState, a: seq<Insn>, b: seq<Insn>)
    requires Run(flagLocal, s, a).Some?
    ensures Run(flagLocal, s, a + b) == Run(flagLocal, Run(flagLocal, s, a).value, b)
    decreases a
  {
    if a == [] {
      assert a + b == b;
    } else {
      assert (a + b)[0] == a[0];
      assert (a + b)[1..] == a[1..] + b;
      RunAppend(flagLocal, Step(flagLocal, s, a[0]).value, a[1..], b);
    }
  }

  /** Original instructions: no call into `Methods` and no use of the flag local. */
  predicate Neutral(path: seq<Insn>, flagLocal: nat) {
    forall i :: i in path ==> !CallsMethods(i) && !(i.Var? && i.local == flagLocal)
  }

  lemma {:induction false} RunNeutral(flagLocal: nat, s: FlagState, path: seq<Insn>)
    requires Neutral(path, flagLocal)
    ensures Run(flagLocal, s, path) == Some(s)
    decreases path
  {
    if path != [] {
      assert path[0] in path;
      assert forall i :: i in path[1..] ==> i in path;
      RunNeutral(flagLocal, s, path[1..]);
    }
  }

  /** After the prologue the flag says whether the method is testing code, and the caller's value is saved. */
  lemma PrologueEffect(testingCode: bool, flagLocal: nat, b: bool)
    ensures Run(flagLocal, FlagState(b, None, []), Prologue(testingCode, flagLocal)) == Some(FlagState(testingCode, Some(b), []))
  {
    var p := Prologue(testingCode, flagLocal);
    var s0 := FlagState(b, None, []);
    var s1 := FlagState(b, None, [b]);
    var s2 := FlagState(b, Some(b), []);
    var s4 := FlagState(b, Some(b), [b]);
    EffectsOfInsertedCalls(flagLocal, testingCode);
    assert EffectOf(flagLocal, p[0]) == Query;
    assert EffectOf(flagLocal, p[1]) == Store;
    assert EffectOf(flagLocal, p[2]) == NoEffect;
    assert EffectOf(flagLocal, p[3]) == Load;
    assert EffectOf(flagLocal, p[4]) == Enter(testingCode);
    assert [] + [b] == [b] && [b][..0] == [];
    assert Step(flagLocal, s0, p[0]) == Some(s1);
    assert Step(flagLocal, s1, p[1]) == Some(s2);
    assert Step(flagLocal, s2, p[2]) == Some(s2);
    assert Step(flagLocal, s2, p[3]) == Some(s4);
    assert Step(flagLocal, s4, p[4]) == Some(FlagState(testingCode, Some(b), []));
    assert Run(flagLocal, FlagState(testingCode, Some(b), []), p[5..]) == Some(FlagState(testingCode, Some(b), []));
    assert Run(flagLocal, s4, p[4..]) == Some(FlagState(testingCode, Some(b), []));
    assert Run(flagLocal, s2, p[3..]) == Some(FlagState(testingCode, Some(b), []));
    assert Run(flagLocal, s2, p[2..]) == Some(FlagState(testingCode, Some(b), []));
    assert Run(flagLocal, s1, p[1..]) == Some(FlagState(testingCode, Some(b), []));
  }

  /** With the flag at the method's kind, the leave call restores the saved value. */
  lemma LeaveEffect(testingCode: bool, flagLocal: nat, b: bool, inside: bool)
    requires inside == testingCode
    ensures Run(flagLocal, FlagState(inside, Some(b), []), Leave(testingCode, flagLocal)) == Some(FlagState(b, Some(b), []))
  {
    var l := Leave(testingCode, flagLocal);
    var s := FlagState(inside, Some(b), []);
    EffectsOfInsertedCalls(flagLocal, testingCode);
    assert [] + [b] == [b] && [b][..0] == [];
    assert Step(flagLocal, s, l[0]) == Some(FlagState(inside, Some(b), [b]));
    assert Step(flagLocal, FlagState(inside, Some(b), [b]), l[1]) == Some(FlagState(b, Some(b), []));
    assert Run(flagLocal, FlagState(b, Some(b), []), l[2..]) == Some(FlagState(b, Some(b), []));
    assert Run(flagLocal, FlagState(inside, Some(b), [b]), l[1..]) == Some(FlagState(b, Some(b), []));
  }

  /** Inside the body the flag says whether the method is testing code, and the caller's value is saved. */
  lemma FlagInsideBody(testingCode: bool, flagLocal: nat, b: bool, path: seq<Insn>)
    requires Neutral(path, flagLocal)
    ensures Run(flagLocal, FlagState(b, None, []), Prologue(testingCode, flagLocal) + path)
         == Some(FlagState(testingCode, Some(b), []))
  {
    PrologueEffect(testingCode, flagLocal, b);
    RunNeutral(flagLocal, FlagState(testingCode, Some(b), []), path);
    RunAppend(flagLocal, FlagState(b, None, []), Prologue(testingCode, flagLocal), path);
  }

  /** A thread entering with flag `b` returns, through any of the six returns, with the flag equal to `b`. */
  lemma FlagRestoredOnReturn(testingCode: bool, flagLocal: nat, b: bool, path: seq<Insn>, r: int)
    requires Neutral(path, flagLocal) && IsReturn(r)
    ensures Run(flagLocal, FlagState(b, None, []), Prologue(testingCode, flagLocal) + path + Wrap(testingCode, flagLocal, Op(r)))
         == Some(FlagState(b, Some(b), []))
  {
    var inside := FlagState(testingCode, Some(b), []);
    var done := FlagState(b, Some(b), []);
    FlagInsideBody(testingCode, flagLocal, b, path);
    LeaveEffect(testingCode, flagLocal, b, testingCode);
    var w := Wrap(testingCode, flagLocal, Op(r));
    assert w == Leave(testingCode, flagLocal) + [Op(r)];
    RunNeutral(flagLocal, done, [Op(r)]);
    RunAppend(flagLocal, inside, Leave(testingCode, flagLocal), [Op(r)]);
    RunAppend(flagLocal, FlagState(b, None, []), Prologue(testingCode, flagLocal) + path, w);
  }

  /** The handler: a thread entering with flag `b` leaves by an exception with the flag equal to `b`. */
  lemma FlagRestoredOnThrow(testingCode: bool, flagLocal: nat, throwableLocal: nat, b: bool, path: seq<Insn>)
    requires Neutral(path, flagLocal) && throwableLocal != flagLocal
    ensures Run(flagLocal, FlagState(b, None, []), Prologue(testingCode, flagLocal) + path + Epilogue(testingCode, flagLocal, throwableLocal))
         == Some(FlagState(b, Some(b), []))
  {
    var inside := FlagState(testingCode, Some(b), []);
    var done := FlagState(b, Some(b), []);
    FlagInsideBody(testingCode, flagLocal, b, path);
    LeaveEffect(testingCode, flagLocal, b, testingCode);
    var e := Epilogue(testingCode, flagLocal, throwableLocal);
    var head := [Mark(CatchLabel), Var(ASTORE, throwableLocal)];
    var tail := [Var(ALOAD, throwableLocal), Op(ATHROW), CatchAll(TryLabel, CatchLabel, CatchLabel)];
    assert e == head + Leave(testingCode, flagLocal) + tail;
    assert Neutral(head, flagLocal) && Neutral(tail, flagLocal);
    RunNeutral(flagLocal, inside, head);
    RunNeutral(flagLocal, done, tail);
    RunAppend(flagLocal, inside, head, Leave(testingCode, flagLocal));
    RunAppend(flagLocal, inside, head + Leave(testingCode, flagLocal), tail);
    RunAppend(flagLocal, FlagState(b, None, []), Prologue(testingCode, flagLocal) + path, e);
  }

  /**
   * The visitor: the emitted events so far, and the flag local allocated in
   * `visitCode` (-1 before it).
   */
  class EntryPointsAdder {
    const testingCode: bool
    var isInTestingCodeAlreadyLocal: int
    var emitted: seq<Insn>

    constructor (testingCode: bool)
      ensures this.testingCode == testingCode && isInTestingCodeAlreadyLocal == -1 && emitted == []
    {
      this.testingCode := testingCode;
      isInTestingCodeAlreadyLocal := -1;
      emitted := [];
    }

    /** `visitCode`, with `local` the index `newLocal(BOOLEAN_TYPE)` returns. */
    method VisitCode(local: nat)
      modifies this
      ensures isInTestingCodeAlreadyLocal == local
      ensures emitted == old(emitted) + Prologue(testingCode, local)
    {
      isInTestingCodeAlreadyLocal := local;
      emitted := emitted + [InvokeMethods(IS_IN_TESTING_CODE), Var(ISTORE, local), Mark(TryLabel)];
      emitted := emitted + [Var(ILOAD, local), InvokeMethods(if testingCode then ENTER_TESTING_CODE else ENTER_NON_TESTING_CODE)];
    }

    /** `visitInsn` and the events the visitor does not override; ASM calls `visitCode` first. */
    method VisitInsn(i: Insn)
      requires isInTestingCodeAlreadyLocal >= 0
      modifies this
      ensures isInTestingCodeAlreadyLocal == old(isInTestingCodeAlreadyLocal)
      ensures emitted == old(emitted) + Wrap(testingCode, isInTestingCodeAlreadyLocal, i)
    {
      if i.Op? && IsReturn(i.opcode) {
        emitted := emitted + [Var(ILOAD, isInTestingCodeAlreadyLocal), InvokeMethods(LeaveRef(testingCode))];
        emitted := emitted + [i];
      } else {
        emitted := emitted + [i];
      }
    }

    /** `visitMaxs`, with `throwableLocal` the index `newLocal(THROWABLE_TYPE)` returns. */
    method VisitMaxs(throwableLocal: nat)
      requires isInTestingCodeAlreadyLocal >= 0
      modifies this
      ensures isInTestingCodeAlreadyLocal == old(isInTestingCodeAlreadyLocal)
      ensures emitted == old(emitted) + Epilogue(testingCode, isInTestingCodeAlreadyLocal, throwableLocal)
    {
      emitted := emitted + [Mark(CatchLabel), Var(ASTORE, throwableLocal)];
      emitted := emitted + [Var(ILOAD, isInTestingCodeAlreadyLocal), InvokeMethods(LeaveRef(testingCode))];
      emitted := emitted + [Var(ALOAD, throwableLocal), Op(ATHROW), CatchAll(TryLabel, CatchLabel, CatchLabel)];
    }
  }

  /** Visiting a method's events one by one emits `Instrument` of them. */
  method VisitMethod(testingCode: bool, flagLocal: nat, throwableLocal: nat, body: seq<Insn>) returns (code: seq<Insn>)
    ensures code == Instrument(testingCode, flagLocal, throwableLocal, body)
  {
    var adder := new EntryPointsAdder(testingCode);
    adder.VisitCode(flagLocal);
    for k := 0 to |body|
      invariant adder.isInTestingCodeAlreadyLocal == flagLocal
      invariant adder.emitted == Prologue(testingCode, flagLocal) + WrapAll(testingCode, flagLocal, body[..k])
    {
      WrapAllSnoc(testingCode, flagLocal, body, k);
      adder.VisitInsn(body[k]);
    }
    adder.VisitMaxs(throwableLocal);
    assert body[..|body|] == body;
    code := adder.emitted;
  }

  lemma WrapAllSnoc(testingCode: bool, flagLocal: nat, body: seq<Insn>, k: nat)
    requires k < |body|
    ensures WrapAll(testingCode, flagLocal, body[..k + 1]) == WrapAll(testingCode, flagLocal, body[..k]) + Wrap(testingCode, flagLocal, body[k])
  {
    WrapAllAppend(testingCode, flagLocal, body[..k], [body[k]]);
    assert body[..k] + [body[k]] == body[..k + 1];
    assert [body[k]][1..] == [];
  }

  lemma {:induction false} WrapAllAppend(testingCode: bool, flagLocal: nat, a: seq<Insn>, b: seq<Insn>)
    ensures WrapAll(testingCode, flagLocal, a + b) == WrapAll(testingCode, flagLocal, a) + WrapAll(testingCode, flagLocal, b)
  {
    if a == [] {
      assert a + b == b;
    } else {
      assert (a + b)[0] == a[0];
      assert (a + b)[1..] == a[1..] + b;
      WrapAllAppend(testingCode, flagLocal, a[1..], b);
    }
  }
}
