/**
 * The virtual clock of `TestTimeProvider`: everything it does while holding
 * its lock. The real suspension of a thread (`monitor.wait(10)` or
 * `Thread.sleep(10)` in a loop) is replaced by an explicit step, `Wake`, that
 * the suspended thread takes each time it wakes up: it either sees its record
 * resumed and deregisters, sees an interrupt, or goes back to waiting.
 */
module VirtualClock {
  import opened JavaTypes
  import opened Waiters
  import opened ProviderSelection

  const NANOS_PER_MILLI: int := 1_000_000
  const MAX_NANOS: int := 999_999
  const HALF_MILLI_NANOS: int := 500_000

  /**
   * `checkTimeArgumentsAndGetMillis`: rejects a negative millisecond count
   * or a nanosecond part outside 0..999_999, and otherwise rounds the
   * nanoseconds half up, except that a positive nanosecond part on a zero
   * millisecond count always becomes one millisecond.
   */
  function CheckTimeArguments(millis: Long, nanos: Int32): (r: Result<Long>)
    ensures r.Err? <==> millis < 0 || nanos < 0 || nanos > MAX_NANOS
    ensures r.Err? ==> r.error == IllegalArgumentException
    ensures r.Ok? ==> r.value == millis || r.value == Wrap64(millis + 1)
    ensures r.Ok? ==> (r.value != millis <==> nanos >= HALF_MILLI_NANOS || (nanos != 0 && millis == 0))
  {
    if millis < 0 then Err(IllegalArgumentException)
    else if nanos < 0 || nanos > MAX_NANOS then Err(IllegalArgumentException)
    else if nanos >= HALF_MILLI_NANOS || (nanos != 0 && millis == 0) then Ok(Wrap64(millis + 1))
    else Ok(millis)
  }

  /** A duration rounds to zero milliseconds, which callers read as "forever", only when it is zero. */
  lemma RoundsToZeroOnlyWhenZero(millis: Long, nanos: Int32)
    requires CheckTimeArguments(millis, nanos).Ok?
    ensures CheckTimeArguments(millis, nanos).value == 0 <==> millis == 0 && nanos == 0
  {
  }

  /**
   * For a positive millisecond count the rounding is round-half-up of the
   * total duration to whole milliseconds (a ceiling it is not: 5 ms + 1 ns
   * gives 5).
   */
  lemma IsRoundHalfUp(millis: Long, nanos: Int32)
    requires 0 < millis < LONG_MAX && 0 <= nanos <= MAX_NANOS
    ensures CheckTimeArguments(millis, nanos) == Ok((millis * NANOS_PER_MILLI + nanos + HALF_MILLI_NANOS) / NANOS_PER_MILLI)
  {
    var total := millis * NANOS_PER_MILLI + nanos + HALF_MILLI_NANOS;
    var q := if nanos >= HALF_MILLI_NANOS then millis + 1 else millis;
    assert q * NANOS_PER_MILLI <= total < q * NANOS_PER_MILLI + NANOS_PER_MILLI;
    assert total / NANOS_PER_MILLI == q;
  }

  /** Examples of the rounding: 5 ms + 1 ns is 5, 0 ms + 1 ns is 1, 5 ms + 0.5 ms is 6. */
  lemma RoundingExamples()
    ensures CheckTimeArguments(5, 1) == Ok(5)
    ensures CheckTimeArguments(0, 1) == Ok(1)
    ensures CheckTimeArguments(5, 500_000) == Ok(6)
    ensures CheckTimeArguments(0, 0) == Ok(0)
    ensures CheckTimeArguments(-1, 0) == Err(IllegalArgumentException)
    ensures CheckTimeArguments(0, 1_000_000) == Err(IllegalArgumentException)
  {
  }

  /** Rounding yields a negative count only by wrapping `Long.MAX_VALUE + 1`. */
  lemma RoundingWrapsOnlyAtMax(millis: Long, nanos: Int32)
    requires CheckTimeArguments(millis, nanos).Ok?
    ensures CheckTimeArguments(millis, nanos).value < 0 <==> millis == LONG_MAX && nanos >= HALF_MILLI_NANOS
  {
  }

  /**
   * The resume time `waitOn` records: `currentTime + millis` in `long`
   * arithmetic, or `Long.MAX_VALUE` (never by time) for a zero duration.
   */
  function WaitResumeTime(current: Long, millis: Long): (r: Long)
    ensures millis == 0 ==> r == LONG_MAX
    ensures millis != 0 && LONG_MIN <= current + millis <= LONG_MAX ==> r == current + millis
    ensures millis > 0 && current + millis > LONG_MAX ==> r < current
  {
    if millis != 0 then Wrap64(current + millis) else LONG_MAX
  }

  /**
   * The addition is not saturated: `sleep(Long.MAX_VALUE)` at virtual time
   * 100 records a resume time in the past, so the next `setTime` of any
   * value resumes the sleeper.
   */
  lemma MaxSleepWrapsIntoPast()
    ensures WaitResumeTime(100, LONG_MAX) == LONG_MIN + 99
    ensures WaitResumeTime(100, LONG_MAX) < 100
  {
  }

  /** `park` splits its nanosecond argument as Java does (`time / 1_000_000`, `(int) (time % 1_000_000)`) and checks the parts. */
  function ParkMillis(time: Long): (r: Result<Long>)
    ensures r.Err? <==> time < 0
    ensures time >= 0 ==> r == CheckTimeArguments(JavaDiv(time, NANOS_PER_MILLI), JavaRem(time, NANOS_PER_MILLI))
  {
    CheckTimeArguments(JavaDiv(time, NANOS_PER_MILLI), JavaRem(time, NANOS_PER_MILLI))
  }

  /** A relative park of 0 ns needs no suspension (resume time equals current time); 10 ms is 10_000_000 ns. */
  lemma ParkExamples()
    ensures ParkMillis(0) == Ok(0)
    ensures ParkMillis(10_000_000) == Ok(10)
    ensures ParkMillis(1) == Ok(1)
    ensures ParkMillis(-1) == Err(IllegalArgumentException)
  {
  }

  /** Thread states, as the JVM reports them. */
  datatype ThreadState = New | Runnable | Blocked | Waiting | TimedWaiting | Terminated

  /** The result of one wake-up of a thread suspended in `waitOn` or `park`. */
  datatype WakeStep = StillWaiting | Returned | Interrupted

  /** The outcome of the bookkeeping part of `park`. */
  datatype ParkOutcome = PermitConsumed | NoWait | Parked(id: InfoId)

  class TestTimeProvider {
    /** The static `started` flag (there is one instance). */
    var started: bool
    var currentTime: Long
    var waitingThreads: map<Monitor, seq<InfoId>>
    var threadInfos: map<ThreadId, InfoId>
    /** Every `ThreadInfo` ever created, by allocation order. */
    var infos: Arena
    var nextInfo: InfoId
    var unparkedThreads: set<ThreadId>
    var setToBeWaited: set<ThreadId>
    var threadsOnStart: set<ThreadId>
    /** Allocation counter for the private monitors of `sleep`. */
    var nextSleepMonitor: nat

    /**
     * The tables are coherent, and the clock is never behind its starting
     * value 0, since every `setTime0` that would move it back fails.
     */
    ghost predicate Valid()
      reads this
    {
      && 0 <= currentTime
      && Coherent(infos, nextInfo, threadInfos, waitingThreads, nextSleepMonitor)
    }

    /**
     * The invariant of the provider's tables: records are allocated below
     * `nextInfo`, every `threadInfos` entry names a record of its own thread,
     * every monitor list is non-empty and names records, and the private
     * monitors of `sleep` in use have been allocated.
     */
    static ghost predicate Coherent(infos: Arena, nextInfo: InfoId, threadInfos: map<ThreadId, InfoId>,
                                    waiting: map<Monitor, seq<InfoId>>, nextSleepMonitor: nat)
    {
      && (forall id :: id in infos ==> id < nextInfo)
      && (forall t :: t in threadInfos ==> threadInfos[t] in infos && infos[threadInfos[t]].thread == t)
      && (forall m :: m in waiting ==> waiting[m] != [] && AllIn(waiting[m], infos))
      && (forall m :: m in waiting && m.SleepMonitor? ==> m.n < nextSleepMonitor)
    }

    /** A clock advance keeps the tables coherent. */
    static lemma CoherentAfterAdvance(infos: Arena, nextInfo: InfoId, threadInfos: map<ThreadId, InfoId>,
                                      waiting: map<Monitor, seq<InfoId>>, nextSleepMonitor: nat, now: Long)
      requires Coherent(infos, nextInfo, threadInfos, waiting, nextSleepMonitor)
      ensures forall m :: m in waiting ==> AllIn(waiting[m], Resume(infos, DueIds(infos, threadInfos.Values, now)))
      ensures var updated := Resume(infos, DueIds(infos, threadInfos.Values, now));
              Coherent(updated, nextInfo, threadInfos, PruneResumed(waiting, updated), nextSleepMonitor)
    {
      var updated := Resume(infos, DueIds(infos, threadInfos.Values, now));
      forall m | m in waiting ensures AllIn(waiting[m], updated) {
        AllInSameKeys(waiting[m], infos, updated);
      }
    }

    constructor ()
      ensures Valid() && !started && currentTime == 0
      ensures waitingThreads == map[] && threadInfos == map[] && infos == map[]
      ensures unparkedThreads == {} && setToBeWaited == {} && threadsOnStart == {}
    {
      started := false;
      currentTime := 0;
      waitingThreads := map[];
      threadInfos := map[];
      infos := map[];
      nextInfo := 0;
      unparkedThreads := {};
      setToBeWaited := {};
      threadsOnStart := {};
      nextSleepMonitor := 0;
    }

    /** `timeMillis`: the virtual time. */
    function TimeMillis(): (r: Long)
      reads this
      ensures r == currentTime
    {
      currentTime
    }

    /** `nanoTime`: the virtual time in nanoseconds, in `long` arithmetic. */
    function NanoTime(): (r: Long)
      reads this
      ensures -9_223_372_036_854 <= currentTime <= 9_223_372_036_854 ==> r == currentTime * NANOS_PER_MILLI
      ensures (r - currentTime * NANOS_PER_MILLI) % 0x1_0000_0000_0000_0000 == 0
    {
      Wrap64(currentTime * NANOS_PER_MILLI)
    }

    /**
     * `setTime0`: refuses to move the clock back; otherwise sets it, raises
     * `resumed` on every record registered in `threadInfos` whose resume
     * time has come, then drops resumed entries from every monitor list and
     * the monitors left with an empty list.
     */
    method SetTime(millis: Long) returns (r: Outcome)
      requires Valid()
      modifies this
      ensures Valid()
      ensures r == (if millis < old(currentTime) then Fail(IllegalArgumentException) else Pass)
      ensures r.Fail? ==> unchanged(this)
      ensures r.Pass? ==> currentTime == millis
      ensures r.Pass? ==> infos == Resume(old(infos), DueIds(old(infos), old(threadInfos).Values, millis))
      ensures r.Pass? ==> waitingThreads == PruneResumed(old(waitingThreads), infos)
      ensures started == old(started) && threadInfos == old(threadInfos) && nextInfo == old(nextInfo)
      ensures unparkedThreads == old(unparkedThreads) && setToBeWaited == old(setToBeWaited)
      ensures threadsOnStart == old(threadsOnStart) && nextSleepMonitor == old(nextSleepMonitor)
    {
      if millis < currentTime {
        return Fail(IllegalArgumentException);
      }
      CoherentAfterAdvance(infos, nextInfo, threadInfos, waitingThreads, nextSleepMonitor, millis);
      var updated := ResumeDue(infos, threadInfos.Values, millis);
      var kept := PruneAll(waitingThreads, updated);
      currentTime := millis;
      infos := updated;
      waitingThreads := kept;
      r := Pass;
    }

    /**
     * The first half of `setTime0`: `ti.resumed = true` for every record among
     * `registered` (the values of `threadInfos`) whose resume time is at most `now`.
     */
    static method ResumeDue(infos: Arena, registered: set<InfoId>, now: Long) returns (updated: Arena)
      requires registered <= infos.Keys
      ensures updated == Resume(infos, DueIds(infos, registered, now))
    {
      updated := infos;
      var pending := registered;
      while pending != {}
        invariant pending <= registered
        invariant updated == Resume(infos, DueIds(infos, registered - pending, now))
        decreases pending
      {
        var id :| id in pending;
        ResumeOne(infos, DueIds(infos, registered - pending, now), id, now);
        if now >= updated[id].resumeTime {
          updated := updated[id := updated[id].(resumed := true)];
        }
        assert DueIds(infos, registered - (pending - {id}), now)
            == DueIds(infos, registered - pending, now) + (if now >= infos[id].resumeTime then {id} else {});
        pending := pending - {id};
      }
      assert registered - {} == registered;
    }

    /**
     * The second half of `setTime0`: `removeIf(ti -> ti.resumed)` on every
     * monitor list, then the monitors whose list became empty are dropped.
     */
    static method PruneAll(waiting: map<Monitor, seq<InfoId>>, infos: Arena) returns (kept: map<Monitor, seq<InfoId>>)
      requires forall m :: m in waiting ==> AllIn(waiting[m], infos)
      ensures kept == PruneResumed(waiting, infos)
    {
      var todo := waiting.Keys;
      kept := map[];
      while todo != {}
        invariant todo <= waiting.Keys
        invariant forall k :: k in kept <==> k in waiting && k !in todo && Unresumed(waiting[k], infos) != []
        invariant forall k :: k in kept ==> kept[k] == Unresumed(waiting[k], infos)
        decreases todo
      {
        var m :| m in todo;
        var rest := Unresumed(waiting[m], infos);
        if rest != [] {
          kept := kept[m := rest];
        }
        todo := todo - {m};
      }
      ghost var spec := PruneResumed(waiting, infos);
      assert kept.Keys == spec.Keys;
    }

    /** Membership of a list in the arena depends only on the arena's keys. */
    static lemma AllInSameKeys(list: seq<InfoId>, a: Arena, b: Arena)
      requires AllIn(list, a) && a.Keys == b.Keys
      ensures AllIn(list, b)
    {
      forall i | 0 <= i < |list| ensures list[i] in b {
        assert list[i] in a.Keys;
      }
    }

    /** One step of the first loop of `SetTime`. */
    static lemma ResumeOne(infos0: Arena, done: set<InfoId>, id: InfoId, now: Long)
      requires id in infos0 && id !in done
      ensures Resume(infos0, done + (if now >= infos0[id].resumeTime then {id} else {}))
           == (var cur := Resume(infos0, done);
               if now >= cur[id].resumeTime then cur[id := cur[id].(resumed := true)] else cur)
    {
    }

    /** `increaseTime0`: `setTime0(currentTime + millis)` in `long` arithmetic. */
    method IncreaseTime(millis: Long) returns (r: Outcome)
      requires Valid()
      modifies this
      ensures Valid()
      ensures r == (if Wrap64(old(currentTime) + millis) < old(currentTime) then Fail(IllegalArgumentException) else Pass)
      ensures millis < 0 ==> r.Fail?
      ensures r.Fail? ==> unchanged(this)
      ensures r.Pass? ==> currentTime == Wrap64(old(currentTime) + millis)
      ensures r.Pass? ==> infos == Resume(old(infos), DueIds(old(infos), old(threadInfos).Values, currentTime))
      ensures r.Pass? ==> waitingThreads == PruneResumed(old(waitingThreads), infos)
      ensures started == old(started) && threadInfos == old(threadInfos) && nextInfo == old(nextInfo)
      ensures unparkedThreads == old(unparkedThreads) && setToBeWaited == old(setToBeWaited)
      ensures threadsOnStart == old(threadsOnStart) && nextSleepMonitor == old(nextSleepMonitor)
    {
      r := SetTime(Wrap64(currentTime + millis));
    }

    /** `resetTime`. */
    method ResetTime()
      requires Valid()
      modifies this`currentTime
      ensures Valid() && currentTime == 0
    {
      currentTime := 0;
    }

    /**
     * The static `start(startTime)`: fails if already started; otherwise
     * marks the provider started, records the live threads (`start0`), sets
     * the clock (which fails if that moves it back, leaving `started` set)
     * and only then installs this provider.
     */
    method Start(startTime: Long, liveThreads: set<ThreadId>, registry: TimeProviderRegistry) returns (r: Outcome)
      requires Valid()
      modifies this, registry
      ensures Valid()
      ensures old(started) ==> r == Fail(IllegalStateException) && unchanged(this) && unchanged(registry)
      ensures !old(started) ==> started && threadsOnStart == liveThreads
      ensures !old(started) ==> r == (if startTime < old(currentTime) then Fail(IllegalArgumentException) else Pass)
      ensures !old(started) && r.Pass? ==> currentTime == startTime
      ensures !old(started) && r.Pass? ==> infos == Resume(old(infos), DueIds(old(infos), old(threadInfos).Values, startTime))
      ensures !old(started) && r.Pass? ==> waitingThreads == PruneResumed(old(waitingThreads), infos)
      ensures !old(started) && r.Fail? ==> currentTime == old(currentTime) && infos == old(infos) && waitingThreads == old(waitingThreads)
      ensures registry.timeProvider == (if r.Pass? then TestProvider else old(registry.timeProvider))
      ensures registry.testMethodsCallStackSize == old(registry.testMethodsCallStackSize)
      ensures threadInfos == old(threadInfos) && nextInfo == old(nextInfo) && unparkedThreads == old(unparkedThreads)
      ensures setToBeWaited == old(setToBeWaited) && nextSleepMonitor == old(nextSleepMonitor)
    {
      if started {
        return Fail(IllegalStateException);
      }
      started := true;
      threadsOnStart := liveThreads;
      r := SetTime(startTime);
      if r.Pass? {
        registry.SetTimeProvider(TestProvider);
      }
    }

    /** The static `reset()`: clock back to 0, DEFAULT provider installed, not started. */
    method Reset(registry: TimeProviderRegistry)
      requires Valid()
      modifies this, registry
      ensures Valid() && !started && currentTime == 0
      ensures registry.timeProvider == DefaultProvider
      ensures registry.testMethodsCallStackSize == old(registry.testMethodsCallStackSize)
      ensures waitingThreads == old(waitingThreads) && threadInfos == old(threadInfos) && infos == old(infos)
      ensures nextInfo == old(nextInfo) && unparkedThreads == old(unparkedThreads)
      ensures setToBeWaited == old(setToBeWaited) && threadsOnStart == old(threadsOnStart)
      ensures nextSleepMonitor == old(nextSleepMonitor)
    {
      ResetTime();
      registry.ResetTimeProvider();
      started := false;
    }

    /**
     * `notifyAll(monitor)`: removes the monitor's whole list and raises
     * `resumed` on every record in it; nothing happens for a monitor nobody
     * waits on.
     */
    method NotifyAll(monitor: Monitor)
      requires Valid()
      modifies this
      ensures Valid()
      ensures monitor !in old(waitingThreads) ==> unchanged(this)
      ensures monitor in old(waitingThreads) ==>
        && waitingThreads == old(waitingThreads) - {monitor}
        && infos == Resume(old(infos), set i | 0 <= i < |old(waitingThreads)[monitor]| :: old(waitingThreads)[monitor][i])
      ensures currentTime == old(currentTime) && started == old(started) && threadInfos == old(threadInfos)
      ensures nextInfo == old(nextInfo) && unparkedThreads == old(unparkedThreads) && setToBeWaited == old(setToBeWaited)
      ensures threadsOnStart == old(threadsOnStart) && nextSleepMonitor == old(nextSleepMonitor)
    {
      if monitor !in waitingThreads {
        return;
      }
      var tis := waitingThreads[monitor];
      waitingThreads := waitingThreads - {monitor};
      // tis.forEach(ti -> ti.resumed = true)
      var updated := infos;
      var i := 0;
      while i < |tis|
        invariant 0 <= i <= |tis|
        invariant AllIn(tis, infos)
        invariant updated == Resume(infos, set j | 0 <= j < i :: tis[j])
      {
        ghost var before := set j | 0 <= j < i :: tis[j];
        assert (set j | 0 <= j < i + 1 :: tis[j]) == before + {tis[i]};
        updated := updated[tis[i] := updated[tis[i]].(resumed := true)];
        i := i + 1;
      }
      infos := updated;
    }

    /** `notify(monitor)` is `notifyAll(monitor)`: every waiter on the monitor is resumed, not one. */
    method Notify(monitor: Monitor)
      requires Valid()
      modifies this
      ensures Valid()
      ensures monitor !in old(waitingThreads) ==> unchanged(this)
      ensures monitor in old(waitingThreads) ==>
        && waitingThreads == old(waitingThreads) - {monitor}
        && infos == Resume(old(infos), set i | 0 <= i < |old(waitingThreads)[monitor]| :: old(waitingThreads)[monitor][i])
      ensures currentTime == old(currentTime) && started == old(started) && threadInfos == old(threadInfos)
      ensures nextInfo == old(nextInfo) && unparkedThreads == old(unparkedThreads) && setToBeWaited == old(setToBeWaited)
      ensures threadsOnStart == old(threadsOnStart) && nextSleepMonitor == old(nextSleepMonitor)
    {
      NotifyAll(monitor);
    }

    /**
     * The registration part of `waitOn(monitor, millis, nanos)` for thread
     * `t`: `t` is put in `setToBeWaited`, the arguments are checked (an
     * invalid duration throws and leaves `t` there), and otherwise a fresh
     * unresumed record is appended to the monitor's list, becomes `t`'s
     * entry in `threadInfos` (replacing any earlier one) and `t` leaves
     * `setToBeWaited`. The caller then waits on the returned record.
     */
    method WaitOn(t: ThreadId, monitor: Monitor, millis: Long, nanos: Int32) returns (r: Result<InfoId>)
      requires Valid()
      requires monitor.SleepMonitor? ==> monitor.n < nextSleepMonitor
      modifies this
      ensures Valid()
      ensures r.Err? <==> CheckTimeArguments(millis, nanos).Err?
      ensures r.Err? ==> r.error == IllegalArgumentException && setToBeWaited == old(setToBeWaited) + {t}
      ensures r.Err? ==> infos == old(infos) && waitingThreads == old(waitingThreads) && threadInfos == old(threadInfos)
      ensures r.Err? ==> nextInfo == old(nextInfo)
      ensures r.Ok? ==> r.value == old(nextInfo) && r.value !in old(infos) && nextInfo == old(nextInfo) + 1
      ensures r.Ok? ==> infos == old(infos)[r.value := ThreadInfo(t, Some(monitor),
                          WaitResumeTime(old(currentTime), CheckTimeArguments(millis, nanos).value), false)]
      ensures r.Ok? ==> waitingThreads == old(waitingThreads)[monitor :=
                          (if monitor in old(waitingThreads) then old(waitingThreads)[monitor] else []) + [r.value]]
      ensures r.Ok? ==> threadInfos == old(threadInfos)[t := r.value]
      ensures r.Ok? ==> setToBeWaited == old(setToBeWaited) - {t}
      ensures currentTime == old(currentTime) && started == old(started) && unparkedThreads == old(unparkedThreads)
      ensures threadsOnStart == old(threadsOnStart) && nextSleepMonitor == old(nextSleepMonitor)
    {
      setToBeWaited := setToBeWaited + {t};
      var checked := CheckTimeArguments(millis, nanos);
      if checked.Err? {
        return Err(checked.error);
      }
      var resumeTime := WaitResumeTime(currentTime, checked.value);
      var id := nextInfo;
      nextInfo := nextInfo + 1;
      infos := infos[id := ThreadInfo(t, Some(monitor), resumeTime, false)];
      var tis := if monitor in waitingThreads then waitingThreads[monitor] else [];
      waitingThreads := waitingThreads[monitor := tis + [id]];
      threadInfos := threadInfos[t := id];
      setToBeWaited := setToBeWaited - {t};
      r := Ok(id);
    }

    /**
     * `sleep(millis, nanos)` for thread `t`: checks and rounds the duration;
     * a zero duration returns at once (`None`); otherwise it waits on a
     * fresh private monitor for the rounded number of milliseconds, through
     * `waitOn`, which checks that number again. The second check fails only
     * when rounding wrapped `Long.MAX_VALUE` to a negative value.
     */
    method Sleep(t: ThreadId, millis: Long, nanos: Int32) returns (r: Result<Option<InfoId>>)
      requires Valid()
      modifies this
      ensures Valid()
      ensures CheckTimeArguments(millis, nanos).Err? ==> r == Err(IllegalArgumentException) && unchanged(this)
      ensures CheckTimeArguments(millis, nanos) == Ok(0) ==> r == Ok(None) && unchanged(this)
      ensures CheckTimeArguments(millis, nanos).Ok? && CheckTimeArguments(millis, nanos).value < 0 ==>
        && r == Err(IllegalArgumentException)
        && setToBeWaited == old(setToBeWaited) + {t} && nextSleepMonitor == old(nextSleepMonitor) + 1
        && infos == old(infos) && waitingThreads == old(waitingThreads) && threadInfos == old(threadInfos)
        && nextInfo == old(nextInfo)
      ensures CheckTimeArguments(millis, nanos).Ok? && CheckTimeArguments(millis, nanos).value > 0 ==>
        && r == Ok(Some(old(nextInfo))) && nextInfo == old(nextInfo) + 1
        && nextSleepMonitor == old(nextSleepMonitor) + 1
        && SleepMonitor(old(nextSleepMonitor)) !in old(waitingThreads)
        && infos == old(infos)[old(nextInfo) := ThreadInfo(t, Some(SleepMonitor(old(nextSleepMonitor))),
                      WaitResumeTime(old(currentTime), CheckTimeArguments(millis, nanos).value), false)]
        && waitingThreads == old(waitingThreads)[SleepMonitor(old(nextSleepMonitor)) := [old(nextInfo)]]
        && threadInfos == old(threadInfos)[t := old(nextInfo)]
        && setToBeWaited == old(setToBeWaited) - {t}
      ensures currentTime == old(currentTime) && started == old(started) && unparkedThreads == old(unparkedThreads)
      ensures threadsOnStart == old(threadsOnStart)
    {
      var checked := CheckTimeArguments(millis, nanos);
      if checked.Err? {
        return Err(checked.error);
      }
      if checked.value == 0 {
        return Ok(None);
      }
      var monitor := SleepMonitor(nextSleepMonitor);
      assert monitor !in waitingThreads;
      nextSleepMonitor := nextSleepMonitor + 1;
      var w := WaitOn(t, monitor, checked.value, 0);
      assert [] + [old(nextInfo)] == [old(nextInfo)];
      assert checked.value > 0 ==> CheckTimeArguments(checked.value, 0) == Ok(checked.value);
      if w.Err? {
        return Err(w.error);
      }
      r := Ok(Some(w.value));
    }

    /**
     * One wake-up of a thread suspended on record `id` (the loop body after
     * `monitor.wait(10)` in `waitOn`, or after `Thread.sleep(10)` in
     * `park`): an interrupt ends the wait and leaves the registration in
     * place; a resumed record removes the thread's `threadInfos` entry and
     * ends the wait; otherwise the thread waits again.
     */
    method Wake(id: InfoId, interrupted: bool) returns (w: WakeStep)
      requires Valid() && id in infos
      modifies this`threadInfos
      ensures Valid()
      ensures w == (if interrupted then Interrupted else if infos[id].resumed then Returned else StillWaiting)
      ensures threadInfos == if w == Returned then old(threadInfos) - {infos[id].thread} else old(threadInfos)
    {
      if interrupted {
        return Interrupted;
      }
      if infos[id].resumed {
        threadInfos := threadInfos - {infos[id].thread};
        return Returned;
      }
      return StillWaiting;
    }

    /**
     * The bookkeeping part of `park(isAbsolute, time)` for thread `t`: a
     * pending permit is consumed and nothing is registered; otherwise the
     * nanosecond argument is checked and rounded, and if its resume time
     * (absolute, or relative to the clock) has already come the call returns;
     * else a monitor-less record is registered in `threadInfos` only.
     */
    method Park(t: ThreadId, isAbsolute: bool, time: Long) returns (r: Result<ParkOutcome>)
      requires Valid()
      modifies this
      ensures Valid()
      ensures setToBeWaited == old(setToBeWaited) - {t}
      ensures t in old(unparkedThreads) ==> r == Ok(PermitConsumed) && unparkedThreads == old(unparkedThreads) - {t}
      ensures t !in old(unparkedThreads) ==> unparkedThreads == old(unparkedThreads)
      ensures t !in old(unparkedThreads) ==> (r.Err? <==> time < 0)
      ensures r.Err? ==> r.error == IllegalArgumentException
      ensures !r.Ok? || !r.value.Parked? ==> infos == old(infos) && threadInfos == old(threadInfos) && nextInfo == old(nextInfo)
      ensures t !in old(unparkedThreads) && time >= 0 ==>
        var resumeTime := if isAbsolute then ParkMillis(time).value else Wrap64(old(currentTime) + ParkMillis(time).value);
        && (r == Ok(NoWait) <==> old(currentTime) >= resumeTime)
        && (old(currentTime) < resumeTime ==> r.Ok? && r.value.Parked?)
        && (r.Ok? && r.value.Parked? ==>
              && r.value.id == old(nextInfo) && r.value.id !in old(infos) && nextInfo == old(nextInfo) + 1
              && infos == old(infos)[r.value.id := ThreadInfo(t, None, resumeTime, false)]
              && threadInfos == old(threadInfos)[t := r.value.id])
      ensures waitingThreads == old(waitingThreads) && currentTime == old(currentTime) && started == old(started)
      ensures threadsOnStart == old(threadsOnStart) && nextSleepMonitor == old(nextSleepMonitor)
    {
      setToBeWaited := setToBeWaited + {t};
      setToBeWaited := setToBeWaited - {t};
      if t in unparkedThreads {
        unparkedThreads := unparkedThreads - {t};
        return Ok(PermitConsumed);
      }
      var checked := ParkMillis(time);
      if checked.Err? {
        return Err(checked.error);
      }
      var resumeTime := if isAbsolute then checked.value else Wrap64(currentTime + checked.value);
      if currentTime >= resumeTime {
        return Ok(NoWait);
      }
      var id := nextInfo;
      nextInfo := nextInfo + 1;
      infos := infos[id := ThreadInfo(t, None, resumeTime, false)];
      threadInfos := threadInfos[t := id];
      r := Ok(Parked(id));
    }

    /**
     * `unpark(thread)`: a thread without a `threadInfos` entry gets a permit
     * (a set, so twice is once); otherwise its entry is resumed.
     */
    method Unpark(t: ThreadId)
      requires Valid()
      modifies this
      ensures Valid()
      ensures t !in old(threadInfos) ==> unparkedThreads == old(unparkedThreads) + {t} && infos == old(infos)
      ensures t in old(threadInfos) ==> unparkedThreads == old(unparkedThreads) && infos == Resume(old(infos), {old(threadInfos)[t]})
      ensures waitingThreads == old(waitingThreads) && threadInfos == old(threadInfos) && currentTime == old(currentTime)
      ensures started == old(started) && nextInfo == old(nextInfo) && setToBeWaited == old(setToBeWaited)
      ensures threadsOnStart == old(threadsOnStart) && nextSleepMonitor == old(nextSleepMonitor)
    {
      if t !in threadInfos {
        unparkedThreads := unparkedThreads + {t};
      } else {
        var id := threadInfos[t];
        infos := infos[id := infos[id].(resumed := true)];
      }
    }

    /**
     * The filter of `waitUntilThreadsAreFrozen0`: is thread `t`, in JVM
     * state `state`, still busy?
     */
    predicate IsBusy(t: ThreadId, state: ThreadState)
      requires Valid()
      reads this
    {
      if t in threadsOnStart then false
      else if t in threadInfos then infos[threadInfos[t]].resumed
      else match state
        case Terminated => false
        case Waiting => false
        case New => false
        case Blocked => t in setToBeWaited
        case _ => true
    }

    /** The busy threads among the live ones, in enumeration order. */
    function BadThreads(live: seq<(ThreadId, ThreadState)>): (bad: seq<ThreadId>)
      requires Valid()
      reads this
      ensures |bad| <= |live|
      ensures forall t :: t in bad <==> exists i :: 0 <= i < |live| && live[i].0 == t && IsBusy(t, live[i].1)
    {
      if live == [] then []
      else
        var rest := BadThreads(live[1..]);
        assert forall i :: 1 <= i < |live| ==> live[i] == live[1..][i - 1];
        if IsBusy(live[0].0, live[0].1) then [live[0].0] + rest else rest
    }

    /** One poll of the freeze check succeeds exactly when no live thread is busy. */
    lemma FrozenIffNoneBusy(live: seq<(ThreadId, ThreadState)>)
      requires Valid()
      ensures BadThreads(live) == [] <==> forall i :: 0 <= i < |live| ==> !IsBusy(live[i].0, live[i].1)
    {
      if BadThreads(live) != [] {
        assert BadThreads(live)[0] in BadThreads(live);
      }
    }

    /**
     * The classification, case by case: start-time threads are never busy;
     * a registered thread is busy exactly when its record is resumed (it has
     * yet to observe that and deregister); an unregistered BLOCKED thread is
     * busy exactly when it is about to register; TERMINATED, WAITING and NEW
     * are settled and RUNNABLE and TIMED_WAITING are busy.
     */
    lemma BusyClassification(t: ThreadId, state: ThreadState)
      requires Valid()
      ensures t in threadsOnStart ==> !IsBusy(t, state)
      ensures t !in threadsOnStart && t in threadInfos ==> (IsBusy(t, state) <==> infos[threadInfos[t]].resumed)
      ensures t !in threadsOnStart && t !in threadInfos ==>
        && (state in {Terminated, Waiting, New} ==> !IsBusy(t, state))
        && (state == Blocked ==> (IsBusy(t, state) <==> t in setToBeWaited))
        && (state in {Runnable, TimedWaiting} ==> IsBusy(t, state))
    {
    }
  }

  /**
   * The scenario of `testIncreaseAndSetTime`: a fresh provider started at
   * 100 and advanced by 50 reads 150, and it is the installed provider.
   */
  method IncreaseAndSetTime(registry: TimeProviderRegistry, live: set<ThreadId>) returns (p: TestTimeProvider)
    modifies registry
    ensures p.Valid() && p.TimeMillis() == 150 && registry.timeProvider == TestProvider
  {
    p := new TestTimeProvider();
    var started := p.Start(100, live, registry);
    assert started == Pass && p.TimeMillis() == 100;
    var increased := p.IncreaseTime(50);
    assert increased == Pass;
  }
}
