/**
 * The abstract instruction stream the byte-code rewriters see and emit: the
 * visitor events a method visitor receives, the JVM opcodes used, the
 * table of `com/devexperts/timetest/Methods` entry points the rewriters
 * call.
 */
module Bytecode {
  import opened JavaTypes

  // JVM opcodes (chapter 6 of the Java Virtual Machine Specification).
  const ILOAD: int := 21
  const ALOAD: int := 25
  const ISTORE: int := 54
  const ASTORE: int := 58
  const POP: int := 87
  const DUP: int := 89
  const IRETURN: int := 172
  const LRETURN: int := 173
  const FRETURN: int := 174
  const DRETURN: int := 175
  const ARETURN: int := 176
  const RETURN: int := 177
  const ATHROW: int := 191
  const INVOKEVIRTUAL: int := 182
  const INVOKESPECIAL: int := 183
  const INVOKESTATIC: int := 184
  const INVOKEINTERFACE: int := 185

  /** The six return opcodes the entry-point adders wrap. */
  predicate IsReturn(opcode: int) {
    opcode in {ARETURN, DRETURN, FRETURN, IRETURN, LRETURN, RETURN}
  }

  /** Labels: the two an entry-point adder allocates, and those of the original code. */
  datatype LabelId = TryLabel | CatchLabel | Original(n: nat)

  /**
   * One visitor event: `visitInsn`, `visitMethodInsn`, `visitVarInsn`,
   * `visitLabel`, `visitTryCatchBlock` with a null (catch-all) type, and
   * any other event, which every rewriter here forwards untouched.
   */
  datatype Insn =
    | Op(opcode: int)
    | Call(opcode: int, owner: string, name: string, desc: string, itf: bool)
    | Var(opcode: int, local: nat)
    | Mark(id: LabelId)
    | CatchAll(start: LabelId, end: LabelId, handler: LabelId)
    | Other(event: nat)

  /** The runtime class every rewritten call goes to. */
  const METHODS_OWNER: string := "com/devexperts/timetest/Methods"

  /** The field descriptors of `java.lang.Object` and `java.lang.Thread`. */
  const OBJECT_TYPE: string := "L" + "java/lang/Object" + ";"
  const THREAD_TYPE: string := "L" + "java/lang/Thread" + ";"

  /** A static method of `Methods`: its name and descriptor. */
  datatype MethodRef = MethodRef(name: string, desc: string)

  const TIME_MILLIS := MethodRef("timeMillis", "()J")
  const NANO_TIME := MethodRef("nanoTime", "()J")
  const SLEEP_1 := MethodRef("sleep", "(J)V")
  const SLEEP_2 := MethodRef("sleep", "(JI)V")
  const WAIT_ON_0 := MethodRef("waitOn", "(" + OBJECT_TYPE + ")V")
  const WAIT_ON_1 := MethodRef("waitOn", "(" + OBJECT_TYPE + "J)V")
  const WAIT_ON_2 := MethodRef("waitOn", "(" + OBJECT_TYPE + "JI)V")
  const NOTIFY := MethodRef("notify", "(" + OBJECT_TYPE + ")V")
  const NOTIFY_ALL := MethodRef("notifyAll", "(" + OBJECT_TYPE + ")V")
  const PARK := MethodRef("park", "(ZJ)V")
  const UNPARK := MethodRef("unpark", "(" + OBJECT_TYPE + ")V")
  const IS_IN_TESTING_CODE := MethodRef("isInTestingCode", "()Z")
  const ENTER_TESTING_CODE := MethodRef("enterTestingCode", "(Z)V")
  const LEAVE_TESTING_CODE := MethodRef("leaveTestingCode", "(Z)V")
  const ENTER_NON_TESTING_CODE := MethodRef("enterNonTestingCode", "(Z)V")
  const LEAVE_NON_TESTING_CODE := MethodRef("leaveNonTestingCode", "(Z)V")
  const START_THREAD := MethodRef("startThread", "(" + THREAD_TYPE + ")V")
  const ENTER_TRANSFORMED_METHOD := MethodRef("enterTestingCodeMethod", "()V")
  const LEAVE_TRANSFORMED_METHOD := MethodRef("leaveTestingCodeMethod", "()V")

  /** `invokeStatic(METHODS_TYPE, m)` of a `GeneratorAdapter`. */
  function InvokeMethods(m: MethodRef): (i: Insn)
    ensures i.Call? && i.opcode == INVOKESTATIC && i.owner == METHODS_OWNER && !i.itf
    ensures i.name == m.name && i.desc == m.desc
  {
    Call(INVOKESTATIC, METHODS_OWNER, m.name, m.desc, false)
  }

  /** Does `i` call into `Methods`? */
  predicate CallsMethods(i: Insn) {
    i.Call? && i.owner == METHODS_OWNER
  }

  /**
   * The descriptor of a static method taking the receiver of a virtual
   * call `desc` as an extra first parameter of type `Object`.
   */
  function WithReceiver(desc: string): string
    requires |desc| > 0 && desc[0] == '('
  {
    "(" + OBJECT_TYPE + desc[1..]
  }
}
