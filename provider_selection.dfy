/**
 * Which time provider a call is served by: the globally installed one
 * while the calling thread is inside test code (its per-thread counter of
 * entered test methods is positive), the system-backed DEFAULT otherwise.
 */
module ProviderSelection {
  import opened JavaTypes

  /** The provider objects that can be installed. */
  datatype Provider = DefaultProvider | TestProvider | OtherProvider(id: nat)

  /** The calls the instrumented test methods make on entry and on exit. */
  datatype CounterCall = EnterMethod | LeaveMethod

  /** The counter after one call: `Integer` arithmetic, so it wraps at 32 bits. */
  function Step(count: Int32, call: CounterCall): (r: Int32)
    ensures INT_MIN < count + 1 <= INT_MAX && call == EnterMethod ==> r == count + 1
    ensures INT_MIN <= count - 1 < INT_MAX && call == LeaveMethod ==> r == count - 1
  {
    match call
    case EnterMethod => Wrap32(count + 1)
    case LeaveMethod => Wrap32(count - 1)
  }

  /** The counter after a sequence of calls. */
  function Run(count: Int32, calls: seq<CounterCall>): Int32
    decreases |calls|
  {
    if calls == [] then count else Run(Step(count, calls[0]), calls[1..])
  }

  /** Entries minus exits. */
  function Net(calls: seq<CounterCall>): int {
    if calls == [] then 0 else (if calls[0] == EnterMethod then 1 else -1) + Net(calls[1..])
  }

  /** Running a sequence of calls moves the counter by its net count, modulo 2^32. */
  lemma {:induction false} RunIsNet(count: Int32, calls: seq<CounterCall>)
    ensures Run(count, calls) == Wrap32(count + Net(calls))
    decreases |calls|
  {
    if calls != [] {
      var next := Step(count, calls[0]);
      RunIsNet(next, calls[1..]);
      var d := if calls[0] == EnterMethod then 1 else -1;
      assert next == Wrap32(count + d);
      WrapShift(count + d, Net(calls[1..]));
    }
  }

  /** Wrapping an intermediate result does not change the final wrapped value. */
  lemma WrapShift(x: int, k: int)
    ensures Wrap32(Wrap32(x) + k) == Wrap32(x + k)
  {
    var a := x - INT_MIN;
    var q := a / 0x1_0000_0000;
    assert a == q * 0x1_0000_0000 + a % 0x1_0000_0000;
    assert Wrap32(x) + k - INT_MIN == a % 0x1_0000_0000 + k;
    assert (a % 0x1_0000_0000 + k) % 0x1_0000_0000 == (a + k) % 0x1_0000_0000;
  }

  /**
   * A call sequence with as many exits as entries leaves the counter as it
   * found it. In particular every enter/leave pair restores it.
   */
  lemma BalancedRestores(count: Int32, calls: seq<CounterCall>)
    requires Net(calls) == 0
    ensures Run(count, calls) == count
  {
    RunIsNet(count, calls);
  }

  /**
   * The static holder of `TimeProvider`: the installed provider and every
   * thread's `testMethodsCallStackSize`, absent meaning the initial 0.
   */
  class TimeProviderRegistry {
    var timeProvider: Provider
    var testMethodsCallStackSize: map<ThreadId, Int32>

    constructor ()
      ensures timeProvider == DefaultProvider && testMethodsCallStackSize == map[]
    {
      timeProvider := DefaultProvider;
      testMethodsCallStackSize := map[];
    }

    /** The calling thread's counter; a thread-local starts at 0. */
    function CallStackSize(t: ThreadId): Int32
      reads this
    {
      if t in testMethodsCallStackSize then testMethodsCallStackSize[t] else 0
    }

    method EnterTestingCodeMethod(t: ThreadId)
      modifies this
      ensures testMethodsCallStackSize == old(testMethodsCallStackSize)[t := Step(old(CallStackSize(t)), EnterMethod)]
      ensures timeProvider == old(timeProvider)
    {
      testMethodsCallStackSize := testMethodsCallStackSize[t := Wrap32(CallStackSize(t) + 1)];
    }

    method LeaveTestingCodeMethod(t: ThreadId)
      modifies this
      ensures testMethodsCallStackSize == old(testMethodsCallStackSize)[t := Step(old(CallStackSize(t)), LeaveMethod)]
      ensures timeProvider == old(timeProvider)
    {
      testMethodsCallStackSize := testMethodsCallStackSize[t := Wrap32(CallStackSize(t) - 1)];
    }

    method ResetTimeProvider()
      modifies this
      ensures timeProvider == DefaultProvider
      ensures testMethodsCallStackSize == old(testMethodsCallStackSize)
    {
      SetTimeProvider(DefaultProvider);
    }

    method SetTimeProvider(p: Provider)
      modifies this
      ensures timeProvider == p
      ensures testMethodsCallStackSize == old(testMethodsCallStackSize)
    {
      timeProvider := p;
    }

    /** The provider a call from thread `t` is served by. */
    function GetTimeProvider(t: ThreadId): (p: Provider)
      reads this
      ensures CallStackSize(t) > 0 ==> p == timeProvider
      ensures CallStackSize(t) <= 0 ==> p == DefaultProvider
      ensures p != timeProvider ==> p == DefaultProvider
    {
      if CallStackSize(t) > 0 then timeProvider else DefaultProvider
    }
  }

  /** After `resetTimeProvider` every thread is served by DEFAULT, whatever its counter. */
  method ResetMeansDefault(r: TimeProviderRegistry, t: ThreadId)
    modifies r
    ensures forall u :: r.GetTimeProvider(u) == DefaultProvider
  {
    r.ResetTimeProvider();
  }

  /** After `setTimeProvider(p)` a thread inside test code is served by `p`. */
  method SetThenGet(r: TimeProviderRegistry, t: ThreadId, p: Provider)
    modifies r
    ensures r.CallStackSize(t) == old(r.CallStackSize(t))
    ensures old(r.CallStackSize(t)) > 0 ==> r.GetTimeProvider(t) == p
  {
    r.SetTimeProvider(p);
  }

  /**
   * Entering and leaving a test method from thread `t` restores its counter
   * and the counters of all other threads, so `getTimeProvider` answers for
   * `t` after the pair exactly as it did before.
   */
  method EnterLeaveBalanced(r: TimeProviderRegistry, t: ThreadId)
    modifies r
    ensures r.testMethodsCallStackSize == old(r.testMethodsCallStackSize)[t := old(r.CallStackSize(t))]
    ensures r.timeProvider == old(r.timeProvider)
    ensures r.GetTimeProvider(t) == old(r.GetTimeProvider(t))
  {
    ghost var c := r.CallStackSize(t);
    r.EnterTestingCodeMethod(t);
    r.LeaveTestingCodeMethod(t);
    BalancedRestores(c, [EnterMethod, LeaveMethod]);
    assert Run(c, [EnterMethod, LeaveMethod]) == Step(Step(c, EnterMethod), LeaveMethod);
  }
}
