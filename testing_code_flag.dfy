/**
 * The agent-side runtime entry points (`Methods` of the core module): the
 * per-thread "in testing code" flag that instrumented methods save on entry
 * and restore on exit, and the set of threads started from testing code,
 * which inherit the flag on their first call into `Methods`.
 */
module TestingCodeFlag {
  import opened JavaTypes

  /** The flag after `enterTestingCode(already)`: raised unless the caller was already in testing code. */
  function AfterEnterTesting(already: bool, flag: bool): (r: bool)
    ensures !already ==> r
    ensures already ==> r == flag
  {
    if !already then true else flag
  }

  /** The flag after `leaveTestingCode(already)`: lowered unless the caller was already in testing code. */
  function AfterLeaveTesting(already: bool, flag: bool): (r: bool)
    ensures !already ==> !r
    ensures already ==> r == flag
  {
    if !already then false else flag
  }

  /** The flag after `enterNonTestingCode(already)`: lowered if the caller was in testing code. */
  function AfterEnterNonTesting(already: bool, flag: bool): (r: bool)
    ensures already ==> !r
    ensures !already ==> r == flag
  {
    if already then false else flag
  }

  /** The flag after `leaveNonTestingCode(already)`: raised again if the caller was in testing code. */
  function AfterLeaveNonTesting(already: bool, flag: bool): (r: bool)
    ensures already ==> r
    ensures !already ==> r == flag
  {
    if already then true else flag
  }

  /**
   * Entering testing code with the flag observed on entry, then leaving it
   * with the same saved value, restores the flag; in between it is set.
   */
  lemma TestingRoundTrip(b: bool)
    ensures AfterEnterTesting(b, b)
    ensures AfterLeaveTesting(b, AfterEnterTesting(b, b)) == b
  {
  }

  /** The same for non-testing code; in between the flag is clear. */
  lemma NonTestingRoundTrip(b: bool)
    ensures !AfterEnterNonTesting(b, b)
    ensures AfterLeaveNonTesting(b, AfterEnterNonTesting(b, b)) == b
  {
  }

  /**
   * What a leave call does with a flag changed inside the method: a caller
   * outside testing code gets its value back in any case after
   * `leaveTestingCode`; a caller already in testing code keeps whatever
   * the flag became (and symmetrically for `leaveNonTestingCode`).
   */
  lemma LeaveRestoresSaved(b: bool, inside: bool)
    ensures b ==> AfterLeaveTesting(b, inside) == inside
    ensures !b ==> AfterLeaveTesting(b, inside) == b
    ensures !b ==> AfterLeaveNonTesting(b, inside) == inside
    ensures b ==> AfterLeaveNonTesting(b, inside) == b
  {
  }

  /** The entry points of `Methods` that forward to the current time provider. */
  datatype FacadeCall =
    | TimeMillis
    | NanoTime
    | Sleep(millis: Long)
    | SleepNanos(millis: Long, nanos: Int32)
    | WaitOn(monitor: nat)
    | WaitOnMillis(monitor: nat, millis: Long)
    | WaitOnNanos(monitor: nat, millis: Long, nanos: Int32)
    | Notify(monitor: nat)
    | NotifyAll(monitor: nat)
    | Park(isAbsolute: bool, time: Long)
    | Unpark(thread: ThreadId)

  /**
   * The static state behind `Methods`: the thread-local `inTestingCode`
   * flag (a thread without an entry has the initial value `false`) and
   * `NEW_THREADS_FROM_TESTING_CODE`.
   */
  class TestingCodeState {
    var inTestingCode: map<ThreadId, bool>
    var newThreadsFromTestingCode: set<ThreadId>

    constructor ()
      ensures inTestingCode == map[] && newThreadsFromTestingCode == {}
    {
      inTestingCode := map[];
      newThreadsFromTestingCode := {};
    }

    /** `isInTestingCode()` called from thread `t`. */
    function IsInTestingCode(t: ThreadId): (r: bool)
      reads this
      ensures r <==> t in inTestingCode && inTestingCode[t]
    {
      t in inTestingCode && inTestingCode[t]
    }

    method EnterTestingCode(t: ThreadId, already: bool)
      modifies this
      ensures inTestingCode == if !already then old(inTestingCode)[t := true] else old(inTestingCode)
      ensures IsInTestingCode(t) == AfterEnterTesting(already, old(IsInTestingCode(t)))
      ensures newThreadsFromTestingCode == old(newThreadsFromTestingCode)
    {
      if !already {
        inTestingCode := inTestingCode[t := true];
      }
    }

    method LeaveTestingCode(t: ThreadId, already: bool)
      modifies this
      ensures inTestingCode == if !already then old(inTestingCode)[t := false] else old(inTestingCode)
      ensures IsInTestingCode(t) == AfterLeaveTesting(already, old(IsInTestingCode(t)))
      ensures newThreadsFromTestingCode == old(newThreadsFromTestingCode)
    {
      if !already {
        inTestingCode := inTestingCode[t := false];
      }
    }

    method EnterNonTestingCode(t: ThreadId, already: bool)
      modifies this
      ensures inTestingCode == if already then old(inTestingCode)[t := false] else old(inTestingCode)
      ensures IsInTestingCode(t) == AfterEnterNonTesting(already, old(IsInTestingCode(t)))
      ensures newThreadsFromTestingCode == old(newThreadsFromTestingCode)
    {
      if already {
        inTestingCode := inTestingCode[t := false];
      }
    }

    method LeaveNonTestingCode(t: ThreadId, already: bool)
      modifies this
      ensures inTestingCode == if already then old(inTestingCode)[t := true] else old(inTestingCode)
      ensures IsInTestingCode(t) == AfterLeaveNonTesting(already, old(IsInTestingCode(t)))
      ensures newThreadsFromTestingCode == old(newThreadsFromTestingCode)
    {
      if already {
        inTestingCode := inTestingCode[t := true];
      }
    }

    /** `startThread(thread)` called from thread `current`: remembered only from testing code. */
    method StartThread(current: ThreadId, thread: ThreadId)
      modifies this
      ensures newThreadsFromTestingCode
           == if old(IsInTestingCode(current)) then old(newThreadsFromTestingCode) + {thread} else old(newThreadsFromTestingCode)
      ensures inTestingCode == old(inTestingCode)
    {
      if IsInTestingCode(current) {
        newThreadsFromTestingCode := newThreadsFromTestingCode + {thread};
      }
    }

    /** `checkNewThread()` called from thread `t`: a remembered thread is forgotten and enters testing code, once. */
    method CheckNewThread(t: ThreadId)
      modifies this
      ensures t in old(newThreadsFromTestingCode) ==>
        newThreadsFromTestingCode == old(newThreadsFromTestingCode) - {t} && inTestingCode == old(inTestingCode)[t := true]
      ensures t !in old(newThreadsFromTestingCode) ==>
        newThreadsFromTestingCode == old(newThreadsFromTestingCode) && inTestingCode == old(inTestingCode)
      ensures t !in newThreadsFromTestingCode
    {
      if t in newThreadsFromTestingCode {
        newThreadsFromTestingCode := newThreadsFromTestingCode - {t};
        inTestingCode := inTestingCode[t := true];
      }
    }

    /**
     * A facade entry point called from thread `t`: `checkNewThread()`
     * first, then the call is forwarded unchanged to the provider
     * `TimeProvider.getTimeProvider()` returns, whose work is not part of
     * this state.
     */
    method Invoke(t: ThreadId, call: FacadeCall) returns (forwarded: FacadeCall)
      modifies this
      ensures forwarded == call
      ensures t in old(newThreadsFromTestingCode) ==>
        newThreadsFromTestingCode == old(newThreadsFromTestingCode) - {t} && inTestingCode == old(inTestingCode)[t := true]
      ensures t !in old(newThreadsFromTestingCode) ==>
        newThreadsFromTestingCode == old(newThreadsFromTestingCode) && inTestingCode == old(inTestingCode)
    {
      CheckNewThread(t);
      forwarded := call;
    }
  }

  /**
   * A thread started from testing code is in testing code from its first
   * facade call on, and a second call changes nothing more.
   */
  method StartedThreadInherits(s: TestingCodeState, parent: ThreadId, child: ThreadId, call: FacadeCall)
    requires parent != child && s.IsInTestingCode(parent) && child !in s.newThreadsFromTestingCode
    modifies s
    ensures s.IsInTestingCode(child)
    ensures child !in s.newThreadsFromTestingCode
    ensures s.newThreadsFromTestingCode == old(s.newThreadsFromTestingCode)
  {
    s.StartThread(parent, child);
    var _ := s.Invoke(child, call);
    ghost var between := s.inTestingCode;
    var _ := s.Invoke(child, call);
    assert s.inTestingCode == between;
  }

  /** A thread started outside testing code is not marked by its facade calls. */
  method StartedOutsideDoesNotInherit(s: TestingCodeState, parent: ThreadId, child: ThreadId, call: FacadeCall)
    requires !s.IsInTestingCode(parent) && child !in s.newThreadsFromTestingCode
    modifies s
    ensures s.inTestingCode == old(s.inTestingCode)
    ensures s.newThreadsFromTestingCode == old(s.newThreadsFromTestingCode)
  {
    s.StartThread(parent, child);
    var _ := s.Invoke(child, call);
  }

  /** The instrumented prologue and return of a testing-code method restore the caller's flag. */
  method TestingMethodFrame(s: TestingCodeState, t: ThreadId)
    modifies s
    ensures s.IsInTestingCode(t) == old(s.IsInTestingCode(t))
    ensures forall u :: u != t ==> s.IsInTestingCode(u) == old(s.IsInTestingCode(u))
    ensures s.newThreadsFromTestingCode == old(s.newThreadsFromTestingCode)
  {
    var already := s.IsInTestingCode(t);
    s.EnterTestingCode(t, already);
    assert s.IsInTestingCode(t);
    s.LeaveTestingCode(t, already);
    TestingRoundTrip(already);
  }
}
