# time-test, modelled in Dafny

time-test is a Java agent for testing time-dependent code against a virtual
clock. When it loads a class, it rewrites every call to `System.currentTimeMillis`,
`System.nanoTime`, `Thread.sleep`, `Object.wait`/`notify`/`notifyAll` and
`Unsafe.park`/`unpark` into a call to a static facade, `Methods`. The facade
forwards each call to the installed `TimeProvider`. Test code installs
`TestTimeProvider`, whose time moves only when the test says so. A thread that
sleeps, waits or parks under it is suspended until the virtual clock reaches its
resume time, or until it is notified or unparked.

This project models the following parts:

- **`VirtualClock`** models `TestTimeProvider`'s bookkeeping under its lock:
  - argument checking and rounding;
  - the monotone clock and `start`/`reset`;
  - waiter registration, `notify`/`notifyAll`, `sleep`, and `park`/`unpark` with the permit set;
  - the per-thread "still busy?" test behind `waitUntilThreadsAreFrozen`.

  It is a class whose fields are the provider's maps and sets. `ThreadInfo`
  records are shared between a monitor's list and `threadInfos`. They live in an
  arena (`Waiters`) keyed by allocation id. A suspended thread's loop is reduced
  to the `Wake` step it takes each time it wakes up.
- **`ProviderSelection`** models the provider registry of the API's
  `TimeProvider` (the installed provider and a per-thread `Integer` counter of
  test-method frames).
- **`TestingCodeFlag`** models the core facade's per-thread "in testing code" flag
  and its set of threads started from testing code.
- **`Glob`** and **`Patterns`** model glob-to-regex translation and the
  configuration's pattern lists. Regex matching itself is a parameter,
  `matches(pattern, name)`.
- **`CallRewrite`** models `ChangeTimeMethodsMethodTransformer`.
  **`LegacyRewrite`** models the older stand-alone `ChangeTimeMethodsTransformer`.
- **`EntryPoints`**, **`TestEntryPoints`** and **`ThreadStartTracer`** model the
  method-body instrumentations. Each one is a function from the original
  instruction sequence to the emitted one, plus a class that emits event by
  event. They are also given small semantics (the flag, the counter and the
  operand stack) so that the effect of the inserted code can be proved.
- **`AgentTransformer`** models `TimeTestTransformer`: the class filter, test-class
  detection (`InTestingCode`), the per-method visitor chain, and how the chained rewrites compose.

`Bytecode` holds the abstract instruction type and the facade's method table.
`JavaTypes` holds Java's 64- and 32-bit integers and their wrap-around,
truncating division and remainder, and the error/result types.

Where the code and its documentation disagree, the model follows the code:

- Rounding in `checkTimeArgumentsAndGetMillis` is round half up, plus a bump of
  0 ms with non-zero nanoseconds to 1 ms. It is not a ceiling.
- `currentTime + millis` wraps in 64-bit arithmetic. It does not saturate.
- Advancing the clock only raises `resumed` flags and prunes monitor lists.
  Nothing is queued, and no thread is handed over to.
- `notify` resumes every waiter, exactly like `notifyAll`.

## Model

| member | source | states |
|---|---|---|
| JavaTypes.Wrap64 | api/src/main/java/com/devexperts/timetest/TestTimeProvider.java:155-157 | Java `long` addition: the result is the value itself when it fits in 64 bits, and is otherwise congruent to it modulo 2^64 |
| JavaTypes.Wrap32 | api/src/main/java/com/devexperts/timetest/TimeProvider.java:105-114 | Java `int` arithmetic on the counter: the value itself when it fits, otherwise congruent modulo 2^32 |
| JavaTypes.JavaDiv | api/src/main/java/com/devexperts/timetest/TestTimeProvider.java:278 | `long` division truncates toward zero: the quotient brackets the dividend from below for x ≥ 0 and from above for x < 0 |
| JavaTypes.DivBracket | api/src/main/java/com/devexperts/timetest/TestTimeProvider.java:278 | for a non-negative dividend the quotient is non-negative and the dividend lies between two consecutive multiples of the divisor |
| JavaTypes.JavaRem | api/src/main/java/com/devexperts/timetest/TestTimeProvider.java:279 | the remainder completes the truncating quotient and takes the dividend's sign |
| JavaTypes.IncDecWrap32 | api/src/main/java/com/devexperts/timetest/TimeProvider.java:105-114 | an increment of the counter followed by a decrement restores it, even across the `int` wrap |
| JavaTypes.DecIncWrap32 | api/src/main/java/com/devexperts/timetest/TimeProvider.java:105-114 | a decrement followed by an increment restores it |
| Waiters.Resume | api/src/main/java/com/devexperts/timetest/TestTimeProvider.java:200-202 | raising `resumed` on a set of records keeps every record's thread, monitor and resume time, sets the flag exactly on the chosen ones and never clears one |
| Waiters.DueIds | api/src/main/java/com/devexperts/timetest/TestTimeProvider.java:200-201 | the chosen records are exactly the registered ones whose resume time is at most the new time |
| Waiters.Unresumed | api/src/main/java/com/devexperts/timetest/TestTimeProvider.java:203 | `removeIf(ti -> ti.resumed)`: the list keeps exactly its unresumed entries, in order |
| Waiters.UnresumedAppend | api/src/main/java/com/devexperts/timetest/TestTimeProvider.java:203 | the removal distributes over list concatenation |
| Waiters.UnresumedOfNoneResumed | api/src/main/java/com/devexperts/timetest/TestTimeProvider.java:203 | a list with no resumed entry is left as it is |
| Waiters.PruneResumed | api/src/main/java/com/devexperts/timetest/TestTimeProvider.java:203-204 | after pruning, no monitor list holds a resumed entry and none is empty; a monitor is dropped exactly when all of its entries were resumed |
| VirtualClock.CheckTimeArguments | api/src/main/java/com/devexperts/timetest/TestTimeProvider.java:159-167 | `IllegalArgumentException` iff millis < 0 or nanos is outside 0..999_999; otherwise the result differs from millis (by one, in `long` arithmetic) iff nanos ≥ 500_000 or (nanos ≠ 0 and millis = 0) |
| VirtualClock.RoundsToZeroOnlyWhenZero | api/src/main/java/com/devexperts/timetest/TestTimeProvider.java:164-166 | a valid duration rounds to 0 ms exactly when both parts are zero |
| VirtualClock.IsRoundHalfUp | api/src/main/java/com/devexperts/timetest/TestTimeProvider.java:164-166 | for positive millis below `Long.MAX_VALUE`, the result is the total duration rounded half up to whole milliseconds |
| VirtualClock.RoundingExamples | api/src/main/java/com/devexperts/timetest/TestTimeProvider.java:159-166 | (5, 1) gives 5, (0, 1) gives 1, (5, 500_000) gives 6, (0, 0) gives 0; (-1, 0) and (0, 1_000_000) are rejected |
| VirtualClock.RoundingWrapsOnlyAtMax | api/src/main/java/com/devexperts/timetest/TestTimeProvider.java:164-166 | `millis++` makes the result negative only for `Long.MAX_VALUE` with nanos ≥ 500_000 |
| VirtualClock.WaitResumeTime | api/src/main/java/com/devexperts/timetest/TestTimeProvider.java:239 | resume time is `Long.MAX_VALUE` for a zero duration and `currentTime + millis` otherwise; an overflowing sum lands before the current time |
| VirtualClock.MaxSleepWrapsIntoPast | api/src/main/java/com/devexperts/timetest/TestTimeProvider.java:239 | waiting `Long.MAX_VALUE` ms at time 100 records a resume time in the past |
| VirtualClock.ParkMillis | api/src/main/java/com/devexperts/timetest/TestTimeProvider.java:278-280 | `park`'s nanosecond time is split by truncating division and checked; it fails iff the time is negative |
| VirtualClock.ParkExamples | api/src/main/java/com/devexperts/timetest/TestTimeProvider.java:278-283 | 0 ns is 0 ms (so a relative park returns at once), 10_000_000 ns is 10 ms, 1 ns is 1 ms, -1 ns is rejected |
| VirtualClock.TestTimeProvider.CoherentAfterAdvance | api/src/main/java/com/devexperts/timetest/TestTimeProvider.java:200-204 | resuming the due records and pruning the lists keeps the provider's tables coherent |
| VirtualClock.TestTimeProvider.constructor | api/src/main/java/com/devexperts/timetest/TestTimeProvider.java:59-69 | a fresh provider is not started, reads time 0 and has empty tables |
| VirtualClock.TestTimeProvider.TimeMillis | api/src/main/java/com/devexperts/timetest/TestTimeProvider.java:170-172 | the virtual time |
| VirtualClock.TestTimeProvider.NanoTime | api/src/main/java/com/devexperts/timetest/TestTimeProvider.java:175-177 | the virtual time times 1_000_000, wrapping in `long` arithmetic |
| VirtualClock.TestTimeProvider.SetTime | api/src/main/java/com/devexperts/timetest/TestTimeProvider.java:194-206 | a time before the current one fails and changes nothing; otherwise the clock is set, exactly the due registered records are resumed and the monitor lists are pruned; everything else is unchanged |
| VirtualClock.TestTimeProvider.ResumeDue | api/src/main/java/com/devexperts/timetest/TestTimeProvider.java:200-202 | the stream loop over `threadInfos.values()` computes `Resume` of the due records |
| VirtualClock.TestTimeProvider.PruneAll | api/src/main/java/com/devexperts/timetest/TestTimeProvider.java:203-204 | the loop over the monitors computes `PruneResumed` |
| VirtualClock.TestTimeProvider.IncreaseTime | api/src/main/java/com/devexperts/timetest/TestTimeProvider.java:155-157 | `setTime0(currentTime + millis)` with a wrapping sum; a negative delta fails |
| VirtualClock.TestTimeProvider.ResetTime | api/src/main/java/com/devexperts/timetest/TestTimeProvider.java:151-153 | the clock becomes 0 and nothing else changes |
| VirtualClock.TestTimeProvider.Start | api/src/main/java/com/devexperts/timetest/TestTimeProvider.java:79-91 | a second start fails with `IllegalStateException` and changes nothing; otherwise the provider is marked started, the live threads are recorded (`start0`, lines 146-149), the clock is set, and the provider is installed only if that succeeded |
| VirtualClock.TestTimeProvider.Reset | api/src/main/java/com/devexperts/timetest/TestTimeProvider.java:104-108 | time 0, DEFAULT provider installed, not started; the tables are kept |
| VirtualClock.TestTimeProvider.NotifyAll | api/src/main/java/com/devexperts/timetest/TestTimeProvider.java:209-216 | an unregistered monitor changes nothing; otherwise its whole list is removed and every record in it is resumed |
| VirtualClock.TestTimeProvider.Notify | api/src/main/java/com/devexperts/timetest/TestTimeProvider.java:190-192 | the same new state as `NotifyAll` |
| VirtualClock.TestTimeProvider.WaitOn | api/src/main/java/com/devexperts/timetest/TestTimeProvider.java:235-245 | invalid arguments fail and leave the thread in `setToBeWaited`; otherwise a fresh record with the computed resume time is appended to the monitor's list (created if absent), becomes the thread's `threadInfos` entry, and the thread leaves `setToBeWaited` |
| VirtualClock.TestTimeProvider.Sleep | api/src/main/java/com/devexperts/timetest/TestTimeProvider.java:219-229 | invalid arguments fail; 0 ms returns at once with nothing changed; otherwise the thread waits on a new private monitor that nobody else holds |
| VirtualClock.TestTimeProvider.Wake | api/src/main/java/com/devexperts/timetest/TestTimeProvider.java:249-259 | one wake-up: an interrupt ends the wait and leaves the registration in place; a resumed record removes the thread's `threadInfos` entry and returns; otherwise the thread waits again |
| VirtualClock.TestTimeProvider.Park | api/src/main/java/com/devexperts/timetest/TestTimeProvider.java:265-287 | a thread holding a permit consumes it and registers nothing; otherwise a negative time fails, a resume time already reached returns at once, and a later one always registers a fresh monitor-less record in `threadInfos`, and nothing else |
| VirtualClock.TestTimeProvider.Unpark | api/src/main/java/com/devexperts/timetest/TestTimeProvider.java:308-318 | a thread without a `threadInfos` entry gets a permit (a set, so twice is once); otherwise exactly its record is resumed |
| VirtualClock.TestTimeProvider.BadThreads | api/src/main/java/com/devexperts/timetest/TestTimeProvider.java:327-345 | the filter keeps exactly the live threads that are busy |
| VirtualClock.TestTimeProvider.FrozenIffNoneBusy | api/src/main/java/com/devexperts/timetest/TestTimeProvider.java:346-347 | one poll succeeds iff no live thread is busy |
| VirtualClock.TestTimeProvider.BusyClassification | api/src/main/java/com/devexperts/timetest/TestTimeProvider.java:328-345 | the filter `IsBusy`, case by case: start-time threads are settled; a registered thread is busy iff its record is resumed; otherwise TERMINATED, WAITING and NEW are settled, BLOCKED is busy iff in `setToBeWaited`, RUNNABLE and TIMED_WAITING are busy |
| VirtualClock.IncreaseAndSetTime | test/src/test/java/com/devexperts/timetest/test/TestTimeProviderTest.java:56-61 | starting a fresh provider at 100 and increasing by 50 reads 150, with the provider installed |
| ProviderSelection.Step | api/src/main/java/com/devexperts/timetest/TimeProvider.java:105-114 | enter adds one and leave subtracts one (in `int` arithmetic) |
| ProviderSelection.RunIsNet | api/src/main/java/com/devexperts/timetest/TimeProvider.java:95-114 | after a sequence of enters and leaves, the counter is the start value plus their net count, wrapped to `int` |
| ProviderSelection.WrapShift | api/src/main/java/com/devexperts/timetest/TimeProvider.java:106 | wrapping before or after adding gives the same `int` |
| ProviderSelection.BalancedRestores | api/src/main/java/com/devexperts/timetest/TimeProvider.java:95-114 | a balanced sequence of enters and leaves restores the counter |
| ProviderSelection.TimeProviderRegistry.constructor | api/src/main/java/com/devexperts/timetest/TimeProvider.java:91-100 | DEFAULT is installed and every thread's counter starts at 0 |
| ProviderSelection.TimeProviderRegistry.EnterTestingCodeMethod | api/src/main/java/com/devexperts/timetest/TimeProvider.java:105-107 | the calling thread's counter goes up by one; nothing else changes |
| ProviderSelection.TimeProviderRegistry.LeaveTestingCodeMethod | api/src/main/java/com/devexperts/timetest/TimeProvider.java:112-114 | the calling thread's counter goes down by one; nothing else changes |
| ProviderSelection.TimeProviderRegistry.ResetTimeProvider | api/src/main/java/com/devexperts/timetest/TimeProvider.java:119-121 | DEFAULT is installed; the counters are kept |
| ProviderSelection.TimeProviderRegistry.SetTimeProvider | api/src/main/java/com/devexperts/timetest/TimeProvider.java:138-140 | the given provider is installed; the counters are kept |
| ProviderSelection.TimeProviderRegistry.GetTimeProvider | api/src/main/java/com/devexperts/timetest/TimeProvider.java:129-131 | the installed provider when the thread's counter is positive, DEFAULT otherwise |
| ProviderSelection.ResetMeansDefault | api/src/main/java/com/devexperts/timetest/TimeProvider.java:119-131 | after a reset every thread gets DEFAULT, whatever its counter |
| ProviderSelection.SetThenGet | api/src/main/java/com/devexperts/timetest/TimeProvider.java:129-140 | after installing p, a thread with a positive counter gets p |
| ProviderSelection.EnterLeaveBalanced | api/src/main/java/com/devexperts/timetest/TimeProvider.java:105-114 | enter then leave restores the thread's counter and the provider it sees |
| TestingCodeFlag.AfterEnterTesting | core/src/main/java/com/devexperts/timetest/Methods.java:86-89 | with `already` false the flag becomes true; otherwise it is unchanged |
| TestingCodeFlag.AfterLeaveTesting | core/src/main/java/com/devexperts/timetest/Methods.java:91-94 | with `already` false the flag becomes false; otherwise it is unchanged |
| TestingCodeFlag.AfterEnterNonTesting | core/src/main/java/com/devexperts/timetest/Methods.java:96-99 | with `already` true the flag becomes false; otherwise it is unchanged |
| TestingCodeFlag.AfterLeaveNonTesting | core/src/main/java/com/devexperts/timetest/Methods.java:101-104 | with `already` true the flag becomes true; otherwise it is unchanged |
| TestingCodeFlag.TestingRoundTrip | core/src/main/java/com/devexperts/timetest/Methods.java:86-94 | from flag b, entering testing code with b makes it true and leaving with b gives b back |
| TestingCodeFlag.NonTestingRoundTrip | core/src/main/java/com/devexperts/timetest/Methods.java:96-104 | from flag b, entering non-testing code with b makes it false and leaving with b gives b back |
| TestingCodeFlag.LeaveRestoresSaved | core/src/main/java/com/devexperts/timetest/Methods.java:91-104 | a leave hands a caller on the other side its saved value back, and leaves a caller on the same side with whatever the flag became |
| TestingCodeFlag.TestingCodeState.constructor | core/src/main/java/com/devexperts/timetest/Methods.java:106 | no thread is in testing code and none was started from it |
| TestingCodeFlag.TestingCodeState.IsInTestingCode | core/src/main/java/com/devexperts/timetest/Methods.java:82-84 | the thread's flag, false for a thread that never set it |
| TestingCodeFlag.TestingCodeState.EnterTestingCode | core/src/main/java/com/devexperts/timetest/Methods.java:86-89 | the thread's flag follows `AfterEnterTesting`; no other thread's flag and not the new-thread set |
| TestingCodeFlag.TestingCodeState.LeaveTestingCode | core/src/main/java/com/devexperts/timetest/Methods.java:91-94 | the thread's flag follows `AfterLeaveTesting`; nothing else changes |
| TestingCodeFlag.TestingCodeState.EnterNonTestingCode | core/src/main/java/com/devexperts/timetest/Methods.java:96-99 | the thread's flag follows `AfterEnterNonTesting`; nothing else changes |
| TestingCodeFlag.TestingCodeState.LeaveNonTestingCode | core/src/main/java/com/devexperts/timetest/Methods.java:101-104 | the thread's flag follows `AfterLeaveNonTesting`; nothing else changes |
| TestingCodeFlag.TestingCodeState.StartThread | core/src/main/java/com/devexperts/timetest/Methods.java:108-112 | the thread is added to the new-thread set exactly when the caller is in testing code; the flags do not change |
| TestingCodeFlag.TestingCodeState.CheckNewThread | core/src/main/java/com/devexperts/timetest/Methods.java:114-117 | a thread in the set is removed once and its flag becomes true; otherwise nothing changes |
| TestingCodeFlag.TestingCodeState.Invoke | core/src/main/java/com/devexperts/timetest/Methods.java:27-80 | every facade entry point runs `checkNewThread` first, with its exact effect on the flag map and the new-thread set; the forwarded call is handed on unchanged, and the provider's work on it is outside this state |
| TestingCodeFlag.StartedThreadInherits | core/src/main/java/com/devexperts/timetest/Methods.java:108-117 | a thread started from testing code is in testing code at its first facade call, and the mark is used up |
| TestingCodeFlag.StartedOutsideDoesNotInherit | core/src/main/java/com/devexperts/timetest/Methods.java:108-117 | a thread started outside testing code changes nothing at its first facade call |
| TestingCodeFlag.TestingMethodFrame | core/src/main/java/com/devexperts/timetest/Methods.java:82-94 | query, enter and leave around a testing-code method restore the thread's flag and touch no other thread |
| Bytecode.InvokeMethods | transformer/src/main/java/com/devexperts/timetest/transformer/TransformationUtils.java:37-59 | a static, non-interface call on the facade class with the given name and descriptor |
| Glob.Piece | transformer/src/main/java/com/devexperts/timetest/GlobUtil.java:50-58 | '*' gives ".*", ',' gives "\|", and any other character c gives the quoted literal `\Q c \E` |
| Glob.Translate | transformer/src/main/java/com/devexperts/timetest/GlobUtil.java:46-62 | every glob character yields at least one regex character |
| Glob.Compile | transformer/src/main/java/com/devexperts/timetest/GlobUtil.java:46-62 | the loop builds the in-order concatenation of the per-character pieces |
| Glob.TranslateEmpty | transformer/src/main/java/com/devexperts/timetest/GlobUtil.java:47-61 | the empty glob gives the empty regex |
| Glob.TranslateAppend | transformer/src/main/java/com/devexperts/timetest/GlobUtil.java:47-61 | translation distributes over glob concatenation |
| Glob.TranslateSnoc | transformer/src/main/java/com/devexperts/timetest/GlobUtil.java:48-59 | one more character appends its piece |
| Glob.TranslateSingle | transformer/src/main/java/com/devexperts/timetest/GlobUtil.java:50-58 | a one-character glob gives that character's piece |
| Glob.TranslateCons | transformer/src/main/java/com/devexperts/timetest/GlobUtil.java:47-61 | a leading character contributes its piece before the rest |
| Glob.UntranslateTranslate | transformer/src/main/java/com/devexperts/timetest/GlobUtil.java:35-41 | the glob is recovered from its regex, so '*' and ',' are the only special characters and nothing is lost |
| Glob.TranslateInjective | transformer/src/main/java/com/devexperts/timetest/GlobUtil.java:35-41 | different globs give different regexes |
| Glob.TranslateExamples | transformer/src/main/java/com/devexperts/timetest/GlobUtil.java:46-62 | "a*", "a,b" and "*" give the expected regexes |
| Patterns.ReplaceDots | transformer/src/main/java/com/devexperts/timetest/TimeTestTransformer.java:66 | every '.' becomes '/': same length, no dot left, every other character kept |
| Patterns.CreatePatterns | transformer/src/main/java/com/devexperts/timetest/TimeTestTransformer.java:64-68 | one compiled pattern per configured glob, in order, with dots replaced first |
| Patterns.DotsAndSlashesAgree | transformer/src/main/java/com/devexperts/timetest/TimeTestTransformer.java:64-68 | a configured pattern may use '.' or '/' as separator: both give the same regex |
| Patterns.ReplaceDotsExample | transformer/src/main/java/com/devexperts/timetest/TimeTestTransformer.java:66 | "com.foo.*" becomes "com/foo/*" |
| CallRewrite.SystemTimeRule | transformer/src/main/java/com/devexperts/timetest/ChangeTimeMethodsMethodTransformer.java:108-119 | applies iff owner is `java/lang/System`, descriptor is `()J` and the name is `currentTimeMillis` or `nanoTime`; gives the matching facade call |
| CallRewrite.SleepRule | transformer/src/main/java/com/devexperts/timetest/ChangeTimeMethodsMethodTransformer.java:93-106 | applies iff `Thread.sleep` with `(J)V` or `(JI)V`; gives SLEEP_1 or SLEEP_2 |
| CallRewrite.WaitRule | transformer/src/main/java/com/devexperts/timetest/ChangeTimeMethodsMethodTransformer.java:65-80 | applies iff INVOKEVIRTUAL `wait` with `()V`, `(J)V` or `(JI)V`, any owner; gives WAIT_ON_0, _1 or _2 |
| CallRewrite.NotifyRule | transformer/src/main/java/com/devexperts/timetest/ChangeTimeMethodsMethodTransformer.java:82-91 | applies iff INVOKEVIRTUAL `notify` or `notifyAll` with `()V`, any owner; gives NOTIFY or NOTIFY_ALL |
| CallRewrite.UnsafeRule | transformer/src/main/java/com/devexperts/timetest/ChangeTimeMethodsMethodTransformer.java:50-63 | applies iff `sun/misc/Unsafe` `park` or `unpark`; gives PARK or UNPARK followed by one POP |
| CallRewrite.RewriteCall | transformer/src/main/java/com/devexperts/timetest/ChangeTimeMethodsMethodTransformer.java:40-48 | the first rule that applies, in the order system time, sleep, wait, notify, Unsafe; an unmatched call is forwarded unchanged |
| CallRewrite.RewriteInsn | transformer/src/main/java/com/devexperts/timetest/ChangeTimeMethodsMethodTransformer.java:40-48 | instructions other than calls are forwarded unchanged |
| CallRewrite.RulesDisjoint | transformer/src/main/java/com/devexperts/timetest/ChangeTimeMethodsMethodTransformer.java:40-48 | at most one rule applies to any call, so the dispatch order never matters |
| CallRewrite.RewriteShape | transformer/src/main/java/com/devexperts/timetest/ChangeTimeMethodsMethodTransformer.java:40-63 | a call is forwarded exactly when no rule applies; otherwise it becomes a static facade call, perhaps followed by one POP |
| CallRewrite.MethodsCallsUnmatched | transformer/src/main/java/com/devexperts/timetest/ChangeTimeMethodsMethodTransformer.java:40-48 | a static call on the facade matches no rule |
| CallRewrite.RewriteLeavesNoMatch | transformer/src/main/java/com/devexperts/timetest/ChangeTimeMethodsMethodTransformer.java:40-48 | no instruction of rewritten code is rewritten again |
| CallRewrite.RewriteCodeAppend | transformer/src/main/java/com/devexperts/timetest/ChangeTimeMethodsMethodTransformer.java:40-48 | the rewrite distributes over concatenation of code |
| CallRewrite.RewriteFixed | transformer/src/main/java/com/devexperts/timetest/ChangeTimeMethodsMethodTransformer.java:40-48 | code none of whose instructions is matched is left as it is |
| CallRewrite.RewriteCode | transformer/src/main/java/com/devexperts/timetest/ChangeTimeMethodsMethodTransformer.java:31-48 | nothing is dropped, and a body without method calls reaches the writer unchanged |
| CallRewrite.RewriteIdempotent | transformer/src/main/java/com/devexperts/timetest/ChangeTimeMethodsMethodTransformer.java:40-48 | rewriting twice is rewriting once |
| CallRewrite.ArgumentsPreserved | transformer/src/main/java/com/devexperts/timetest/ChangeTimeMethodsMethodTransformer.java:50-119 | for JDK-shaped calls, the replacement takes the same arguments, with an instance call's receiver as its first argument |
| CallRewrite.RewriteTable | transformer/src/main/java/com/devexperts/timetest/ChangeTimeMethodsMethodTransformer.java:50-119 | the full table of rewrites, one line per supported call |
| CallRewrite.Forwarded | transformer/src/main/java/com/devexperts/timetest/ChangeTimeMethodsMethodTransformer.java:65-119 | unsupported descriptors and opcodes are forwarded unchanged |
| CallRewrite.CallRewriter.constructor | transformer/src/main/java/com/devexperts/timetest/ChangeTimeMethodsMethodTransformer.java:34-37 | nothing is emitted yet |
| CallRewrite.CallRewriter.ProcessRule | transformer/src/main/java/com/devexperts/timetest/ChangeTimeMethodsMethodTransformer.java:50-119 | a `process*` method returns whether its rule applies and emits its replacement only then |
| CallRewrite.CallRewriter.VisitMethodInsn | transformer/src/main/java/com/devexperts/timetest/ChangeTimeMethodsMethodTransformer.java:40-48 | the short-circuit chain of `process*` calls emits exactly `RewriteCall` |
| CallRewrite.CallRewriter.VisitOther | transformer/src/main/java/com/devexperts/timetest/ChangeTimeMethodsMethodTransformer.java:31-37 | every other event is forwarded |
| LegacyRewrite.BuildPatterns | transformer/src/main/java/com/devexperts/timetest/ChangeTimeMethodsTransformer.java:42-49 | the constructor's loops compile one pattern per configured glob, in order, with dots replaced |
| LegacyRewrite.Process | transformer/src/main/java/com/devexperts/timetest/ChangeTimeMethodsTransformer.java:54-74 | the break-loops decide `LegacyAccepts`: the packages of `LegacyRejectsPackage` are left alone; otherwise a class is rewritten iff some include matches and no exclude does |
| LegacyRewrite.ExcludeWins | transformer/src/main/java/com/devexperts/timetest/ChangeTimeMethodsTransformer.java:67-72 | a matching exclude wins over any include |
| LegacyRewrite.LegacySystemTimeRule | transformer/src/main/java/com/devexperts/timetest/ChangeTimeMethodsTransformer.java:139-150 | `System.currentTimeMillis`/`nanoTime` become the facade calls whatever the descriptor |
| LegacyRewrite.LegacyRewriteCall | transformer/src/main/java/com/devexperts/timetest/ChangeTimeMethodsTransformer.java:83-137 | the first rule in the order system time, sleep, wait, Unsafe; an unmatched call is forwarded; the sleep, wait and Unsafe rules are those of the later transformer |
| LegacyRewrite.NoNotifyRule | transformer/src/main/java/com/devexperts/timetest/ChangeTimeMethodsTransformer.java:84-89 | `notify()` and `notifyAll()` are forwarded unchanged |
| LegacyRewrite.VersionsDiffer | transformer/src/main/java/com/devexperts/timetest/ChangeTimeMethodsTransformer.java:84-150 | the two versions disagree exactly on notify calls and on system-time calls whose descriptor is not `()J` |
| LegacyRewrite.LegacyCallRewriter.constructor | transformer/src/main/java/com/devexperts/timetest/ChangeTimeMethodsTransformer.java:81 | nothing is emitted yet |
| LegacyRewrite.LegacyCallRewriter.VisitMethodInsn | transformer/src/main/java/com/devexperts/timetest/ChangeTimeMethodsTransformer.java:83-90 | the emitted events are exactly `LegacyRewriteCall` |
| AgentTransformer.ProcessClass | transformer/src/main/java/com/devexperts/timetest/TimeTestTransformer.java:71-86 | a class is processed iff `Accepts` holds: it is outside the packages of `RejectsPackage`, some include matches and no exclude does |
| AgentTransformer.ExcludeWins | transformer/src/main/java/com/devexperts/timetest/TimeTestTransformer.java:80-85 | a matching exclude wins over any include |
| AgentTransformer.DifferentPrefixes | transformer/src/main/java/com/devexperts/timetest/TimeTestTransformer.java:72-76 | a name cannot start with two prefixes that differ at one position |
| AgentTransformer.OwnTestsNotRejected | transformer/src/main/java/com/devexperts/timetest/TimeTestTransformer.java:72 | classes under `com/devexperts/timetest/test/` pass the package check |
| AgentTransformer.AgentClassesRejected | transformer/src/main/java/com/devexperts/timetest/TimeTestTransformer.java:72 | every other class under `com/devexperts/timetest/` is rejected |
| AgentTransformer.SwingAndAwtNotRejected | transformer/src/main/java/com/devexperts/timetest/TimeTestTransformer.java:74 | `sun/swing/` and `sun/awt/` pass the package check |
| AgentTransformer.JdkPackagesRejected | transformer/src/main/java/com/devexperts/timetest/TimeTestTransformer.java:73-75 | `com/sun/`, `jdk/` and the rest of `sun/` are rejected |
| AgentTransformer.SameDecisionOutsidePrefixes | transformer/src/main/java/com/devexperts/timetest/TimeTestTransformer.java:80-85 | where neither version rejects the package, the agent and the legacy filter make the same decision |
| AgentTransformer.ConcurrentOnlyInAgent | transformer/src/main/java/com/devexperts/timetest/TimeTestTransformer.java:76 | `java/util/concurrent/` passes the agent's package check but is rejected by the legacy one |
| AgentTransformer.ChainFor | transformer/src/main/java/com/devexperts/timetest/TimeTestTransformer.java:104-113 | the call rewrite is always in the chain and the JSR inliner always last; the test-entry adder is in it exactly when the entry points are wanted |
| AgentTransformer.MethodChainAsWritten | transformer/src/main/java/com/devexperts/timetest/TimeTestTransformer.java:104-113 | every method gets the call rewrite; the test-method instrumentation is added iff the class is a test class and the name is neither `<init>` nor `<cinit>` |
| AgentTransformer.StaticInitializerInstrumentedAsWritten | transformer/src/main/java/com/devexperts/timetest/TimeTestTransformer.java:108 | as written, a test class's static initializer `<clinit>` is instrumented |
| AgentTransformer.MethodChain | transformer/src/main/java/com/devexperts/timetest/TimeTestTransformer.java:104-113 | the corrected chain: instrumentation iff a test class and the name is neither `<init>` nor `<clinit>` |
| AgentTransformer.NoInitializerInstrumented | transformer/src/main/java/com/devexperts/timetest/TimeTestTransformer.java:108 | in the corrected chain no constructor or static initializer is instrumented, but an ordinary test method is |
| AgentTransformer.WrapAllNoReturns | transformer/src/main/java/com/devexperts/timetest/TestEnterPointsAdder.java:54-67 | code without return opcodes passes the return wrapping unchanged |
| AgentTransformer.WrapCommutes | transformer/src/main/java/com/devexperts/timetest/TimeTestTransformer.java:106-110 | for one instruction, wrapping returns then rewriting calls equals rewriting then wrapping |
| AgentTransformer.RewriteWrapAll | transformer/src/main/java/com/devexperts/timetest/TimeTestTransformer.java:106-110 | the same for a whole body |
| AgentTransformer.InsertedCodeFixed | transformer/src/main/java/com/devexperts/timetest/TimeTestTransformer.java:106-110 | the call rewrite leaves the inserted prologue and epilogue unchanged |
| AgentTransformer.PipelineCommutes | transformer/src/main/java/com/devexperts/timetest/TimeTestTransformer.java:106-110 | instrumenting then rewriting equals rewriting then instrumenting |
| AgentTransformer.ChainEmits | transformer/src/main/java/com/devexperts/timetest/TimeTestTransformer.java:104-113 | what `Emit` hands to the writer: the test-instrumented form of the rewritten body with the entry points, the rewritten body without |
| AgentTransformer.MethodCode | transformer/src/main/java/com/devexperts/timetest/TimeTestTransformer.java:88-113 | with the corrected name `<clinit>`: for a method of a class matching a test pattern (`InTestingCode`), other than `<init>` and `<clinit>`, the writer receives the test-instrumented rewritten body; for every other method, the rewritten body |
| AgentTransformer.MethodCodeAsWritten | transformer/src/main/java/com/devexperts/timetest/TimeTestTransformer.java:88-113 | as written, with `<cinit>`: the same, except that a test class's `<clinit>` is instrumented too |
| EntryPoints.Prologue | transformer/src/main/java/com/devexperts/timetest/transformer/EntryPointsAdder.java:51-59 | the flag is queried and stored in the new local before the try label; the saved value is then passed to `enterTestingCode` or `enterNonTestingCode` |
| EntryPoints.Wrap | transformer/src/main/java/com/devexperts/timetest/transformer/EntryPointsAdder.java:62-77 | each of the six return opcodes is preceded by loading the local and the matching leave call; every other opcode is forwarded |
| EntryPoints.Epilogue | transformer/src/main/java/com/devexperts/timetest/transformer/EntryPointsAdder.java:80-90 | a catch-all handler over the try/catch labels stores the throwable, calls the leave method with the saved value, and rethrows |
| EntryPoints.UnwrapWrapAll | transformer/src/main/java/com/devexperts/timetest/transformer/EntryPointsAdder.java:62-77 | the original body is recovered from the wrapped one: nothing is dropped or reordered |
| EntryPoints.StripInstrument | transformer/src/main/java/com/devexperts/timetest/transformer/EntryPointsAdder.java:51-90 | the original body is recovered from the whole instrumented method |
| EntryPoints.EffectsOfInsertedCalls | transformer/src/main/java/com/devexperts/timetest/transformer/TransformationUtils.java:37-59 | the inserted calls are the flag query, the enter and the leave of the chosen kind |
| EntryPoints.RunAppend | transformer/src/main/java/com/devexperts/timetest/transformer/EntryPointsAdder.java:51-90 | running a path in two pieces is running it whole |
| EntryPoints.RunNeutral | transformer/src/main/java/com/devexperts/timetest/transformer/EntryPointsAdder.java:62-77 | a body that neither touches the local nor calls the facade leaves the flag state alone |
| EntryPoints.PrologueEffect | transformer/src/main/java/com/devexperts/timetest/transformer/EntryPointsAdder.java:51-59 | from flag b, the prologue saves b and sets the flag to the method's kind |
| EntryPoints.LeaveEffect | transformer/src/main/java/com/devexperts/timetest/transformer/EntryPointsAdder.java:70-71 | inside the method, the leave sequence restores the saved flag |
| EntryPoints.FlagInsideBody | transformer/src/main/java/com/devexperts/timetest/transformer/EntryPointsAdder.java:51-59 | for a body that neither touches the saved local nor calls the facade, the flag is the method's kind throughout the body |
| EntryPoints.FlagRestoredOnReturn | transformer/src/main/java/com/devexperts/timetest/transformer/EntryPointsAdder.java:62-73 | a return leaves the caller's flag as it was on entry |
| EntryPoints.FlagRestoredOnThrow | transformer/src/main/java/com/devexperts/timetest/transformer/EntryPointsAdder.java:80-90 | an exception leaving the method restores the caller's flag as well |
| EntryPoints.EntryPointsAdder.constructor | transformer/src/main/java/com/devexperts/timetest/transformer/EntryPointsAdder.java:39-48 | the kind is fixed, no local is allocated yet, nothing is emitted |
| EntryPoints.EntryPointsAdder.VisitCode | transformer/src/main/java/com/devexperts/timetest/transformer/EntryPointsAdder.java:51-59 | records the allocated local and emits the prologue |
| EntryPoints.EntryPointsAdder.VisitInsn | transformer/src/main/java/com/devexperts/timetest/transformer/EntryPointsAdder.java:62-77 | emits `Wrap` of the opcode |
| EntryPoints.EntryPointsAdder.VisitMaxs | transformer/src/main/java/com/devexperts/timetest/transformer/EntryPointsAdder.java:80-90 | emits the epilogue |
| EntryPoints.VisitMethod | transformer/src/main/java/com/devexperts/timetest/transformer/EntryPointsAdder.java:51-90 | driving the visitor over a body emits exactly `Instrument` of it |
| EntryPoints.WrapAllSnoc | transformer/src/main/java/com/devexperts/timetest/transformer/EntryPointsAdder.java:62-77 | one more instruction appends its wrapping |
| EntryPoints.WrapAllAppend | transformer/src/main/java/com/devexperts/timetest/transformer/EntryPointsAdder.java:62-77 | wrapping distributes over concatenation |
| TestEntryPoints.Prologue | transformer/src/main/java/com/devexperts/timetest/TestEnterPointsAdder.java:47-51 | the try label, then exactly one `enterTestingCodeMethod` call |
| TestEntryPoints.Wrap | transformer/src/main/java/com/devexperts/timetest/TestEnterPointsAdder.java:54-68 | each of the six return opcodes is preceded by exactly one leave call; other opcodes are forwarded |
| TestEntryPoints.Epilogue | transformer/src/main/java/com/devexperts/timetest/TestEnterPointsAdder.java:71-80 | a catch-all handler stores the throwable, calls leave, and rethrows |
| TestEntryPoints.WrapAllAppend | transformer/src/main/java/com/devexperts/timetest/TestEnterPointsAdder.java:54-68 | wrapping distributes over concatenation |
| TestEntryPoints.WrapAllSnoc | transformer/src/main/java/com/devexperts/timetest/TestEnterPointsAdder.java:54-68 | one more instruction appends its wrapping |
| TestEntryPoints.UnwrapWrapAll | transformer/src/main/java/com/devexperts/timetest/TestEnterPointsAdder.java:54-68 | the original body is recovered from the wrapped one |
| TestEntryPoints.StripInstrument | transformer/src/main/java/com/devexperts/timetest/TestEnterPointsAdder.java:47-80 | the original body is recovered from the instrumented method |
| TestEntryPoints.CounterCallsOf | transformer/src/main/java/com/devexperts/timetest/TransformationUtils.java:52-53 | an instruction makes at most one counter call, and only if it calls the facade, whose enter and leave names are taken to reach `TimeProvider`'s counter |
| TestEntryPoints.CounterCallsAppend | transformer/src/main/java/com/devexperts/timetest/TestEnterPointsAdder.java:47-80 | counter calls of a path split at any point |
| TestEntryPoints.OriginalMakesNoCalls | transformer/src/main/java/com/devexperts/timetest/TestEnterPointsAdder.java:54-68 | an original body makes no counter calls |
| TestEntryPoints.NetAppend | api/src/main/java/com/devexperts/timetest/TimeProvider.java:105-114 | the net count of enters and leaves adds up over concatenation |
| TestEntryPoints.CounterEntryPoints | transformer/src/main/java/com/devexperts/timetest/TransformationUtils.java:52-53 | the inserted calls are the counter's enter and leave, taking the facade to forward them to `TimeProvider` |
| TestEntryPoints.CounterCallsSingle | transformer/src/main/java/com/devexperts/timetest/TestEnterPointsAdder.java:47-80 | a one-instruction path makes that instruction's counter calls |
| TestEntryPoints.InsertedCalls | transformer/src/main/java/com/devexperts/timetest/TestEnterPointsAdder.java:47-80 | the prologue makes exactly one enter, and a wrapped return and the epilogue exactly one leave each |
| TestEntryPoints.CounterBalancedOnEveryExit | transformer/src/main/java/com/devexperts/timetest/TestEnterPointsAdder.java:47-80 | with a balanced body, the counter is one higher inside the method and back to its entry value after a return or a throw |
| TestEntryPoints.TopLevelTestSeesProvider | transformer/src/main/java/com/devexperts/timetest/TestEnterPointsAdder.java:47-51 | inside an outermost test method the counter is 1, so the installed provider is used, given the facade forwarding named under Left out |
| TestEntryPoints.TestEnterPointsAdder.constructor | transformer/src/main/java/com/devexperts/timetest/TestEnterPointsAdder.java:41-44 | nothing is emitted yet |
| TestEntryPoints.TestEnterPointsAdder.VisitCode | transformer/src/main/java/com/devexperts/timetest/TestEnterPointsAdder.java:47-51 | emits the prologue |
| TestEntryPoints.TestEnterPointsAdder.VisitInsn | transformer/src/main/java/com/devexperts/timetest/TestEnterPointsAdder.java:54-68 | emits `Wrap` of the opcode |
| TestEntryPoints.TestEnterPointsAdder.VisitMaxs | transformer/src/main/java/com/devexperts/timetest/TestEnterPointsAdder.java:71-80 | emits the epilogue |
| TestEntryPoints.VisitMethod | transformer/src/main/java/com/devexperts/timetest/TestEnterPointsAdder.java:47-80 | driving the visitor over a body emits exactly `Instrument` of it |
| ThreadStartTracer.Trace | transformer/src/main/java/com/devexperts/timetest/transformer/ThreadStartTracer.java:41-47 | the original call always comes last; a `Thread.start0` call is preceded by DUP and the `startThread` call, and any other call has nothing inserted |
| ThreadStartTracer.InsertedCallTarget | transformer/src/main/java/com/devexperts/timetest/transformer/TransformationUtils.java:59 | the inserted call is the static `startThread` with descriptor `(Ljava/lang/Thread;)V` |
| ThreadStartTracer.InsertedPairPassesReceiver | transformer/src/main/java/com/devexperts/timetest/transformer/ThreadStartTracer.java:43-46 | the inserted pair hands the receiver of `start0` to `startThread` and leaves the operand stack as it found it |
| ThreadStartTracer.UntraceTrace | transformer/src/main/java/com/devexperts/timetest/transformer/ThreadStartTracer.java:41-47 | the original code is recovered from the traced code: no call is dropped or reordered |
| ThreadStartTracer.TraceHead | transformer/src/main/java/com/devexperts/timetest/transformer/ThreadStartTracer.java:41-47 | traced original code never starts with an inserted call |
| ThreadStartTracer.ThreadStartTracer.constructor | transformer/src/main/java/com/devexperts/timetest/transformer/ThreadStartTracer.java:35-38 | nothing is emitted yet |
| ThreadStartTracer.ThreadStartTracer.VisitMethodInsn | transformer/src/main/java/com/devexperts/timetest/transformer/ThreadStartTracer.java:41-47 | emits exactly `Trace` of the call |
| ThreadStartTracer.ThreadStartTracer.VisitOther | transformer/src/main/java/com/devexperts/timetest/transformer/ThreadStartTracer.java:32-36 | every event other than a method call is forwarded unchanged |
| ThreadStartTracer.TraceMethod | transformer/src/main/java/com/devexperts/timetest/transformer/ThreadStartTracer.java:32-47 | driving a fresh tracer over a body emits exactly `TraceCode` of it, whose inverse is `UntraceTrace` |
| ThreadStartTracer.TraceCodeSnoc | transformer/src/main/java/com/devexperts/timetest/transformer/ThreadStartTracer.java:41-47 | one more event appends its traced form |
| ThreadStartTracer.TraceCodeAppend | transformer/src/main/java/com/devexperts/timetest/transformer/ThreadStartTracer.java:41-47 | tracing distributes over concatenation of code |
| ThreadStartTracer.NoStartUntouched | transformer/src/main/java/com/devexperts/timetest/transformer/ThreadStartTracer.java:42 | a body that never calls `Thread.start0` passes the tracer unchanged |

## Left out

- The real suspension loops in `waitOn` and `park` (`monitor.wait(10)`, `Thread.sleep(10)`) are concurrency. Each iteration is the `Wake` step, with the interrupt as an input.
- The polling loop of `waitUntilThreadsAreFrozen` is left out: the wall clock, `wait(10)`, `Thread.getAllStackTraces`, the log and the `AssertionError`. Only the per-thread filter is modelled, with the live threads, their states and the start snapshot as inputs.
- Thread identity, interruption and `Thread.getState` are JVM facilities. Threads are plain ids, and the current thread is a parameter.
- `new Object()` in `sleep` is modelled by a counter of private monitors. `new ThreadInfo` is modelled by a counter of record ids.
- ASM is a foreign library, so its plumbing is left out. This covers `ClassReader`, `ClassWriter`, `FrameClassWriter`, `ClassInfoCache` and `CheckClassAdapter`. Method bodies are sequences of abstract instructions, and labels are the two symbolic ones each adder creates.
- `JSRInlinerAdapter` and `TryCatchBlockSorter` are treated as the identity on the instruction sequence (`AgentTransformer.Apply`).
- `GeneratorAdapter.newLocal` is foreign. The locals it allocates are parameters (`flagLocal`, `throwableLocal`).
- `EntryPoints.FlagInsideBody`, `EntryPoints.FlagRestoredOnReturn`, `EntryPoints.FlagRestoredOnThrow`: these cover a body that neither touches the saved local nor calls the facade. They do not model nested instrumented callees.
- `TestEntryPoints.CounterCallsOf`: the adder emits `invokestatic com/devexperts/timetest/Methods.enterTestingCodeMethod()V` and `leaveTestingCodeMethod()V`, but neither `Methods` class in these files declares them; only the package-private `TimeProvider.enterTestingCodeMethod`/`leaveTestingCodeMethod` move the counter. The files evidently come from different revisions, and the model assumes the facade methods forward to that counter. The counter lemmas built on it (`CounterEntryPoints`, `CounterBalancedOnEveryExit`, `TopLevelTestSeesProvider`) rest on that assumption.
- `TestEntryPoints.CounterBalancedOnEveryExit`: this covers a body whose own counter calls are balanced. It does not model control flow inside the body.
- `Glob.Translate`, `Glob.Compile`: a glob is a sequence of characters, while Java's `charAt` walks UTF-16 code units, so a character outside the Basic Multilingual Plane is quoted by Java as two surrogate halves and by the model as one character.
- `java.util.regex` is left out. Matching is the parameter `matches(pattern, name)`, and `Pattern.quote(c)` is modelled as `\Q c \E`.
- `CallRewrite.ArgumentsPreserved`: method descriptors are not parsed in general. The receiver is prepended textually, for the JDK descriptors the rules use.
- `WeakIdentityHashSet` is not part of this model. Its weak references are left out, and it is a plain set.
- The core `TimeProvider` class that holds `inTestingCode` is not part of this model. The flag's initial value is taken as false.
- The transformer in `transformer/src/main/java/com/devexperts/timetest/transformer/`, which chains `EntryPointsAdder` and `ThreadStartTracer`, is not part of this model. The two visitors are modelled on their own.
- Bootstrap and configuration are left out (`TimeTestAgent`, `TimeTestAgentRunner`, `Configuration`). The configured pattern lists are inputs.
- Classes that only delegate, with no logic of their own, are left out: `DefaultTimeProvider`, `DummyTimeProvider`, the anonymous DEFAULT provider, the API's `Methods`, the top-level `TimeProvider` and `ChangeTimeMethodsAspect`.
- `VirtualClock.TestTimeProvider.Start`: the log message and the stack trace kept for it are left out.
- The multi-threaded tests of `TestTimeProviderTest` are left out. Only the single-threaded `testIncreaseAndSetTime` is modelled (`VirtualClock.IncreaseAndSetTime`).

## Findings

| source | as written | input that shows it | evidently intended | confidence | as-written member | corrected member |
|---|---|---|---|---|---|---|
| transformer/src/main/java/com/devexperts/timetest/TimeTestTransformer.java:108 | the test-method instrumentation is skipped for names `<init>` and `<cinit>`; no JVM method is called `<cinit>` | the static initializer `<clinit>` of a test class is instrumented with an enter at class initialization and a leave at its return | skip `<clinit>`, the static initializer, as well as `<init>` | medium; not executed | AgentTransformer.StaticInitializerInstrumentedAsWritten | AgentTransformer.NoInitializerInstrumented |
