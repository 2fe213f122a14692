# Proofs about the bundled benchmark library and cpplint

The repository bundles two tools whose own logic is hard: Google Benchmark 1.5.1 and cpplint 1.4.5.
This project models their most intricate parts in Dafny and proves what they guarantee, for all inputs,
all runs and all schedules. `dafny verify dfyconfig.toml` checks everything.

## What is modelled

**The benchmark thread protocol** (`Sums`, `Counters`, `ThreadManager`, `ThreadProtocol`, `ProtocolInvariant`,
`ProtocolTheorems`, `ThreadObjects`). N threads run `RunInThread` against one `ThreadManager`. Each calls the reusable
phase barrier any number of times, may report errors, adds its measurements under the benchmark mutex, leaves the barrier
for good and drops the atomic countdown; the main thread also waits for the countdown, joins the others, reads the
results and destroys the manager. Every lock, unlock, test of a condition, sleep, wakeup and notification is a step of
its own, mutexes have owners, and sleepers may wake up for no reason. Proved: no deadlock, no lost wakeup, lockstep, one
winner per phase, termination of every schedule within an explicit number of steps, safe teardown, that the report is the
sum of what the threads measured, and that the first error is the one reported. `ThreadManager` holds the objects
themselves, as classes whose methods are the critical sections, and `ThreadObjects` runs whole schedules on them.

**Timer and loop control of one thread** (`StateTimer`, `BenchmarkState`). `State` and `ThreadTimer` over any
sequence of calls that their checks admit, on values and on the objects, and `RunInThread` on top of them.

**cpplint's three bracket matchers** (`Brackets`, `ForwardScan`, `Lines`, `CloseExpression`, `BackwardScan`,
`TextInside`, `Angles`, `AngleTexts`, `BackAngles`, `AngleGrammar`, `AngleCharacters`, `AngleLists`, `BackLists`). The
reference is a grammar of balanced text, independent of all three. From `(`, `[`, `{` and their partners, whatever `<`,
`>`, `->`, `<<`, `operator` and `;` lie between, each scanner finds exactly the partner that the grammar gives, so they
undo each other and do not depend on line breaks. For `<` and `>` there is a second grammar, of template argument lists
over kinds of characters, and the kinds are given by the characters around. From a `<` that opens a list, and from a `>`
that is not skipped, the scanners find exactly the other end of such a list; from any other they can stop at a bracket
instead, and it is proved on every text exactly when.

**cpplint's preprocessor checkpoints** (`TemplateScan`, `TemplateVerdict`, `Nesting`, `NestingBranches`, `NestingLines`,
`NestingBlocks`, `NestingState`, `NestingExample`).
The stack of open blocks, changed in place, and the deep copies taken at `#if` and `#else`. The final stack is what the
lines of first branches make of it, each with the verdict it got in its place on whether its class head stands in a
template argument list. For that verdict the source scans the following lines, later branches included, and so the final
stack is that of the text with every branch after the first deleted if every such scan ends within its first branch or
its verdict makes no difference to the stack.
Every later branch starts from the stack before `#if` and computes what its own lines make of it.
Lines that close what they open leave the stack as it was. A line is given by its text and by what the regular
expressions of `Update` extract from it.

**Argument ranges** (`ArgRange`, `CartesianRanges`, `RowOrder`). `AddRange` for a signed type of any width, and the odometer of
`Benchmark::Ranges`. Each operation of the element type is proved to stay within its range.

**The adaptive iteration count** (`Iterations`, `Estimates`). Growth between two estimates, and the exact worst case of the loop:
61 re-estimates, however the machine behaves.

**Least squares and statistics** (`LeastSquares`, `FittedCurves`, `Statistics`, `Samples`, `Aggregates`, `AdjustedTimes`), over
real numbers, and `RunReports`, which leads from what the threads of every repetition did to the aggregates of all of them.

**JSON output** (`Json`, `JsonText`). Escaping against a reader that follows section 7 of RFC 8259, and the separators of the runs.

A `CHECK` or `assert` of the source is a precondition of the modelled method where its caller has to see to it, and a
proved fact where the library itself does. Clock readings, the results of a run, `sqrt`, `log` and `nth_element` are
parameters of which only what is promised is used.

## Where the code does not do what it is meant to

* `AddRange(0, hi)` with `hi >= 2` appends 0 twice; nothing else is ever repeated (`ArgRange.RangeOrdered`,
  `CartesianRanges.RangesRepeat`).
* `StatisticsMedian` reads the centre element after a second `nth_element` over the whole range, whose promise no longer
  fixes it. With an even number of samples above two the result may exceed the median unless the upper half is all the
  same (`Statistics.MedianIsExact`).
* With a negative mean time `MinimalLeastSq` picks the curve that fits worst; with a mean of zero it always keeps the
  constant (`LeastSquares.ChoiceIsClosest`). This is out of reach of `ComputeBigO`, which asks for a choice on CPU times
  alone: times that are not negative always get the closest candidate (`LeastSquares.MeasuredTimesPickClosest`,
  `StateTimer.TimesAreNonNegative`).
* `ComputeStats` reads the statistics through the first report, where nothing has set them if the first repetition
  failed; with two others that succeeded it follows an unset pointer (`Aggregates.ComputeStats`,
  `RunReports.FirstFailureReadsUnset`).
* `ComputeStats` checks that all repetitions ran equally many iterations, which they do not if a thread of one of them
  failed and returned without entering its loop; the check aborts the program (`RunReports.ChecksPassIffAllStarted`,
  `RunReports.EarlyFailureFailsTheCheck`).
* A later branch can change which blocks are open after the `#endif`: `InTemplateArgumentList` reads on through it
  (`NestingExample.DeletionChangesTheStack`).
* `CloseExpression` from a `<` that is the second half of `<<` or follows `operator` can return the position behind a
  bracket instead of a `>` (`Angles.SoundIffOpening`), and `ReverseCloseExpression` from a `>` that it skips can return
  the position of one. On a given text that happens exactly if the scan, with nothing on its stack, starts over at a
  bracket that has a partner (`AngleTexts.BehindGreaterIff`, `BackAngles.AtLessIff`).
* For least times between 5/7 and 55/56 of a nanosecond the iteration count need not grow by a third
  (`Iterations.GrowthByAThird`).
* `RunInThread` accepts a benchmark function that returns inside its last iteration, when the timer may still be running
  and reading it aborts (`StateTimer.WhatTheCheckAdmits`, `StateTimer.ReturnIsSafeIff`).
* A thread that has failed is counted as if it had run all its iterations once it enters its loop, even if it does so
  only after the failure and the loop ends at once. The count is right only if the loop is never entered, or had nothing
  left to grant at the failure, or, being range-based, goes on to its last lap (`StateTimer.FailedCountIff`,
  `StateTimer.FailedCountExample`, `StateTimer.LateLoopExample`, `StateTimer.LapsGoOnExample`).
* `StrEscape` leaves most control characters as they are, which RFC 8259 does not allow in a string, and `FormatKV` cuts
  strings at the first NUL (`Json.EscapeRoundTrip`, `Json.ValueIsRecovered`).

## Model

| member | source | states |
|---|---|---|
| `ProtocolTheorems.NoDeadlock` | lib/benchmark_1.5.1/src/mutex.h:104-150 | in every reachable state with a thread that has not returned, some thread can take a step, without any spurious wakeup |
| `ProtocolTheorems.NoLostWakeup` | lib/benchmark_1.5.1/src/mutex.h:104-118 | for every thread asleep on a condition that holds, at the barrier and at the countdown, there is one that is about to notify it and will not find a reason not to |
| `ProtocolTheorems.WakerAdvances` | lib/benchmark_1.5.1/src/mutex.h:104-118 | the notifying thread can run, unless the mutex of the countdown is taken, and each of its steps wakes the sleeper or brings it nearer to doing so |
| `ProtocolTheorems.WakerStays` | lib/benchmark_1.5.1/src/mutex.h:104-150 | no step of another thread and no spurious wakeup takes that away |
| `ProtocolTheorems.WokenInTime` | lib/benchmark_1.5.1/src/mutex.h:104-150 | in every schedule that gives the notifying thread at most three steps, the sleeper is woken |
| `ProtocolTheorems.CheckHolds` | lib/benchmark_1.5.1/src/mutex.h:133 | `CHECK_LT(entered_, running_threads_)` never fires |
| `ProtocolTheorems.BarrierLockstep` | lib/benchmark_1.5.1/src/mutex.h:132-150 | a thread that still counts has entered exactly the completed phases, plus the open one if it is inside; `entered_` counts the threads inside |
| `ProtocolTheorems.NobodyLeavesEarly` | lib/benchmark_1.5.1/src/mutex.h:132-150 | no call for a phase is on its way out before every thread that still counts has entered that phase |
| `ProtocolTheorems.OneWinnerPerPhase` | lib/benchmark_1.5.1/src/mutex.h:135-149 | after the run, all calls have returned, and of the calls for one phase exactly one returned true |
| `ProtocolTheorems.PhasesAreWins` | lib/benchmark_1.5.1/src/mutex.h:135-149 | at any time as many phases are complete as calls have returned true or are about to |
| `ProtocolTheorems.EveryScheduleEnds` | lib/benchmark_1.5.1/src/benchmark_runner.cc:206-225 | every schedule has at most a bound of steps that depends on the threads, their barrier calls and their errors, plus three per spurious wakeup |
| `ProtocolTheorems.EveryMaximalRunSucceeds` | lib/benchmark_1.5.1/src/benchmark_runner.cc:206-228 | a schedule that cannot go on has brought every thread home, and the report is the sum of all shares |
| `ProtocolTheorems.ReportIsTheSum` | lib/benchmark_1.5.1/src/benchmark_runner.cc:122-131 | in every interleaving the main thread reads the sum of all threads' iterations, times, complexity and counters, and each counter has the flags that some thread gave it |
| `ProtocolTheorems.ErrorIsReported` | lib/benchmark_1.5.1/src/benchmark.cc:173-185 | in every interleaving the main thread sees an error if and only if some thread reported one, and then the first of some thread |
| `ProtocolTheorems.FirstErrorStays` | lib/benchmark_1.5.1/src/benchmark.cc:178-181 | the first error that is recorded stays on record under every schedule |
| `ProtocolTheorems.TeardownIsSafe` | lib/benchmark_1.5.1/src/benchmark_runner.cc:217-228 | when the manager is destroyed all other threads are done and all mutexes are free |
| `ProtocolTheorems.StuckMeansNoSleeper` | lib/benchmark_1.5.1/src/mutex.h:137-143 | if nobody can run, nobody sleeps in the barrier |
| `ProtocolTheorems.StepSpends` | lib/benchmark_1.5.1/src/mutex.h:104-150 | every step lowers a potential over all threads, notifications that wake everybody included |
| `ProtocolTheorems.ScheduleSpends` | lib/benchmark_1.5.1/src/mutex.h:104-150 | over any schedule the steps taken are paid from the potential, with three back for each spurious wakeup |
| `ProtocolInvariant.StepKeeps` | lib/benchmark_1.5.1/src/mutex.h:104-150 | every step of every thread keeps ownership, lockstep, counts, winners, wakeup duties, conservation and the error on record together |
| `ProtocolInvariant.StirKeeps` | lib/benchmark_1.5.1/src/mutex.h:142 | so does a spurious wakeup |
| `ProtocolInvariant.ReachableInv` | lib/benchmark_1.5.1/src/thread_manager.h:12-59 | the invariant holds after every schedule |
| `ProtocolInvariant.CountsKept` | lib/benchmark_1.5.1/src/mutex.h:114-150 | `entered_`, `running_threads_` and `alive_threads_` always equal the numbers of threads that they count |
| `ProtocolInvariant.WakeKept` | lib/benchmark_1.5.1/src/mutex.h:110-117 | every step keeps a notifier for each sleeper whose phase is open, across the gap between unlocking and notifying |
| `ProtocolInvariant.EndKept` | lib/benchmark_1.5.1/src/thread_manager.h:25-37 | once the countdown is zero a sleeping joiner has a notifier, across the gap between the decrement and the lock |
| `ProtocolInvariant.ResultsKept` | lib/benchmark_1.5.1/src/benchmark_runner.cc:122-131 | at any time the shared record is the sum of the shares already delivered |
| `ProtocolInvariant.FailureKept` | lib/benchmark_1.5.1/src/benchmark.cc:173-185 | an error is on record if and only if one has been reported, it is the first of some thread, and no step replaces it |
| `Counters.Increment` | lib/benchmark_1.5.1/src/counter.cc:49-64 | the two passes give the union of the counters: values added where both have one, with the flags of the left side, and what only the right side has as it is |
| `Counters.MergeAddsTallies` | lib/benchmark_1.5.1/src/benchmark_runner.cc:125-130 | merging a share adds it, number by number and counter by counter |
| `Counters.SumDeliver` | lib/benchmark_1.5.1/src/benchmark_runner.cc:125-130 | the sum does not depend on the order in which threads deliver |
| `ThreadManager.Manager.AddShare` | lib/benchmark_1.5.1/src/benchmark_runner.cc:122-131 | the shared record becomes the merge that the protocol steps with |
| `ThreadObjects.ThreadedRun.Step` | lib/benchmark_1.5.1/src/mutex.h:104-150 | a step of a thread, carried out by `Barrier` and `Manager`, has the effect of the protocol's step and keeps the invariant; the check before entering holds |
| `ThreadObjects.ThreadedRun.Follow` | lib/benchmark_1.5.1/src/benchmark_runner.cc:200-228 | under every schedule, spurious wakeups included, the objects end in the state to which the schedule leads |
| `ThreadObjects.ThreadedRun.Finish` | lib/benchmark_1.5.1/src/benchmark_runner.cc:206-228 | from there the threads run until none of them can go on, which happens |
| `ThreadObjects.RunThreads` | lib/benchmark_1.5.1/src/benchmark_runner.cc:200-228 | whatever the schedule, what has been read in the end is the sum of all shares, and an error if and only if some thread reported one |
| `StateTimer.StateStep` | lib/benchmark_1.5.1/src/benchmark.cc:162-213 | every admitted call keeps: a running timer implies started, not finished and not failed; the iteration counters stay in range; a loop that ends without an error made two barrier calls |
| `StateTimer.GrantsStep` | lib/benchmark_1.5.1/include/benchmark/benchmark.h:636-725 | `iterations()` equals the iterations granted by `KeepRunning` and `KeepRunningBatch` in any mixture |
| `StateTimer.LapsStep` | lib/benchmark_1.5.1/include/benchmark/benchmark.h:727-773 | a range-based loop runs as many laps as its iterator has counted down |
| `StateTimer.TimeStep` | lib/benchmark_1.5.1/src/thread_timer.h:23-41 | the real time used is the total length of disjoint slices in order, under a clock that never goes back; CPU time is that of the same slices, none of them negative; manual time is what was set by hand |
| `StateTimer.AlwaysInv` | lib/benchmark_1.5.1/src/benchmark.cc:162-213 | all of this after every admitted sequence of calls |
| `StateTimer.ReadsAreSafe` | lib/benchmark_1.5.1/src/benchmark_runner.cc:120-128 | a thread that failed or finished passes the check, and its timer is stopped when it is read |
| `StateTimer.WhatTheCheckAdmits` | lib/benchmark_1.5.1/src/benchmark_runner.cc:120-121 | the check passes if and only if the thread failed, or has started and has no iteration left to grant |
| `StateTimer.ReturnIsSafeIff` | lib/benchmark_1.5.1/src/benchmark_runner.cc:120-128 | the check passes and the times can be read if and only if the thread failed, or finished its loop, or was granted everything and of all its calls that pause or resume the timer made one that pauses last |
| `StateTimer.TimesAreNonNegative` | lib/benchmark_1.5.1/src/thread_timer.h:30-38 | real and CPU time used are never negative |
| `StateTimer.ReturnInsideLastIteration` | lib/benchmark_1.5.1/src/benchmark_runner.cc:120-128 | a run in which the check passes while the timer runs |
| `StateTimer.FinishedLoop` | lib/benchmark_1.5.1/include/benchmark/benchmark.h:691-766 | a loop that ended without an error was granted what `iterations()` says: the maximum plus what was left over, or the maximum of laps, with two barrier calls |
| `StateTimer.NoBatches` | lib/benchmark_1.5.1/include/benchmark/benchmark.h:718-722 | without batches nothing is left over |
| `StateTimer.FailedThreadCountsAll` | lib/benchmark_1.5.1/src/benchmark.cc:173-185 | a thread that failed after starting reports its full number of iterations |
| `StateTimer.NothingAfterFailure` | lib/benchmark_1.5.1/include/benchmark/benchmark.h:691-773 | after a failure nothing is granted or left over any more and a range-based loop that starts has no lap, whatever calls follow |
| `StateTimer.FailedCountIff` | lib/benchmark_1.5.1/src/benchmark_runner.cc:118-125 | for every run with a failure, the number read after the function has returned is what it ran if and only if the loop was never entered, not even after the failure, or had nothing left to grant at the failure; with a range-based loop, if and only if it was entered before the failure and reached its last lap |
| `StateTimer.FailedCountExample` | lib/benchmark_1.5.1/src/benchmark.cc:173-185 | one of ten iterations granted, a failure, and ten reported |
| `StateTimer.LateLoopExample` | lib/benchmark_1.5.1/src/benchmark.cc:173-202 | a failure before a loop of either kind, which then ends at once: nothing has run, and ten are reported |
| `StateTimer.LapsGoOnExample` | lib/benchmark_1.5.1/include/benchmark/benchmark.h:748-760 | a failure in the first of two laps, after which the loop goes on: two are reported, and right |
| `StateTimer.ResumeDropsSlice` | lib/benchmark_1.5.1/src/thread_timer.h:23-27 | resuming a running timer loses the time since its start |
| `BenchmarkState.State.SkipWithError` | lib/benchmark_1.5.1/src/benchmark.cc:173-185 | the object fails as the value does, and of all messages the first is kept |
| `BenchmarkState.State.KeepRunningInternal` | lib/benchmark_1.5.1/include/benchmark/benchmark.h:699-725 | the object grants and counts as the value does, all branches of the batch logic included |
| `BenchmarkState.State.RangeBegin` | lib/benchmark_1.5.1/include/benchmark/benchmark.h:756-773 | the same for the start of a range-based loop |
| `BenchmarkState.State.RangeAdvance` | lib/benchmark_1.5.1/include/benchmark/benchmark.h:748-760 | the same for its step |
| `BenchmarkState.State.RunFunction` | lib/benchmark_1.5.1/src/benchmark.cc:162-213 | every admitted sequence of calls leaves the objects in the state that the sequence has on values, and of all errors the first on record |
| `BenchmarkState.RunInThread` | lib/benchmark_1.5.1/src/benchmark_runner.cc:110-133 | to the shared record go the iterations asked for and those left over if the thread started, as real and CPU time the lengths of its slices on the two clocks, the times set by hand and the size that was set, and an error exactly if its function reported one |
| `ForwardScan.FindEndOfExpressionInLine` | lib/cpplint_1.4.5/cpplint.py:1744-1819 | the loop with its mutable stack computes the recursive scan, from any stack; AngleLists reads that scan character by character |
| `ForwardScan.ScanIsMatch` | lib/cpplint_1.4.5/cpplint.py:1757-1819 | on one line, from any stack that starts with a bracket, the heuristic scan is the plain matcher on the brackets alone |
| `CloseExpression.CloseExpression` | lib/cpplint_1.4.5/cpplint.py:1822-1863 | the loop over lines computes the recursive scan; failure is (number of lines, -1) and only that |
| `CloseExpression.CloseIsPair` | lib/cpplint_1.4.5/cpplint.py:1822-1863 | from a bracket, a position is returned if and only if the grammar makes the two brackets a pair in the whole text |
| `CloseExpression.CloseFailsIff` | lib/cpplint_1.4.5/cpplint.py:1862-1863 | it fails if and only if the bracket has no partner anywhere |
| `CloseExpression.SplitDoesNotMatter` | lib/cpplint_1.4.5/cpplint.py:1854-1860 | two ways to split the same text into lines give the same place |
| `Brackets.MatchIsPair` | lib/cpplint_1.4.5/cpplint.py:1776-1793 | the plain matcher stops exactly behind the partner that the grammar of balanced text gives |
| `Brackets.MatchResumes` | lib/cpplint_1.4.5/cpplint.py:1854-1860 | matching may be interrupted anywhere and resumed with its stack |
| `BackwardScan.FindStartOfExpressionInLine` | lib/cpplint_1.4.5/cpplint.py:1866-1940 | the loop with its mutable stack computes the recursive backward scan; BackLists reads it character by character |
| `BackwardScan.ReverseCloseExpression` | lib/cpplint_1.4.5/cpplint.py:1943-1978 | the loop over lines computes the recursive scan; failure is (0, -1) and only that |
| `BackwardScan.BackIsMatch` | lib/cpplint_1.4.5/cpplint.py:1882-1940 | on one line, the backward scan is the plain matcher on the mirrored text |
| `BackwardScan.ReverseCloseIsPair` | lib/cpplint_1.4.5/cpplint.py:1943-1978 | from a closing bracket, a position is returned if and only if the grammar makes the two brackets a pair |
| `BackwardScan.ForwardAndBackward` | lib/cpplint_1.4.5/cpplint.py:1744-1978 | one scanner goes from one bracket to the other if and only if the other scanner comes back |
| `BackwardScan.CloseThenReverse` | lib/cpplint_1.4.5/cpplint.py:1744-1978 | closing and then reopening returns to the start |
| `BackwardScan.ReverseThenClose` | lib/cpplint_1.4.5/cpplint.py:1744-1978 | reopening and then closing returns to the start |
| `TextInside.GetTextInside` | lib/cpplint_1.4.5/cpplint.py:4893-4922 | the text up to the place where the expected closers run out, or None |
| `TextInside.MatchersAgree` | lib/cpplint_1.4.5/cpplint.py:4906-4922 | `_GetTextInside` and `FindEndOfExpressionInLine` stop at the same place, and fail together |
| `TextInside.InsideIsPair` | lib/cpplint_1.4.5/cpplint.py:4906-4922 | it stops exactly at the partner that the grammar gives |
| `AngleCharacters.OperatorIs` | lib/cpplint_1.4.5/cpplint.py:1770 | the regular expression is found exactly if the word `operator` stands before the position, with nothing but blanks behind it |
| `AngleCharacters.IgnoredIs` | lib/cpplint_1.4.5/cpplint.py:1797-1800 | which `>` the scan ignores, in terms of the characters before it |
| `AngleCharacters.AngleOpensIs` | lib/cpplint_1.4.5/cpplint.py:1762-1775 | which `<` it takes as opening, in terms of the characters before it |
| `AngleCharacters.SkippedIs` | lib/cpplint_1.4.5/cpplint.py:1888-1896 | which `>` the backward scan skips, in terms of the characters around it |
| `AngleGrammar.StopsIffList` | lib/cpplint_1.4.5/cpplint.py:1757-1819 | inside one open angle, a stack machine over kinds of characters stops at a `>` if and only if the text before it is a list of the grammar: balanced brackets with anything in them, angles that are closed or taken back, and no `;` or lone closer |
| `AngleLists.OneStep` | lib/cpplint_1.4.5/cpplint.py:1757-1819 | one character of the scan, from any stack, is one move of that machine on what the character counts as |
| `AngleLists.ScanIsMachine` | lib/cpplint_1.4.5/cpplint.py:1849-1863 | and so is the whole scan, across lines |
| `AngleLists.ClosesIff` | lib/cpplint_1.4.5/cpplint.py:1822-1863 | on every text, from every `<` that opens a list, the place behind a character is returned if and only if this is a `>` that counts and a list of the grammar stands between |
| `AngleLists.StopsBehindGreater` | lib/cpplint_1.4.5/cpplint.py:1794-1808 | in characters alone: the search from such a `<` stops only behind a `>` that has no `-` before it, and no `operator` before the character in front of it |
| `AngleLists.GreaterCloses` | lib/cpplint_1.4.5/cpplint.py:1794-1808 | every other `>` closes the innermost `<` |
| `AngleLists.ClosesItsKind` | lib/cpplint_1.4.5/cpplint.py:1785-1793 | `(` is closed by `)`, `[` by `]` and `{` by `}` |
| `BackLists.OneStepBack` | lib/cpplint_1.4.5/cpplint.py:1883-1940 | one character of the backward scan is one move of the same machine; of `<` next to each other the first counts, if their number is odd |
| `BackLists.BackIsMachine` | lib/cpplint_1.4.5/cpplint.py:1964-1978 | and so is the whole backward scan, across lines, on the text from its end |
| `BackLists.ReversesIff` | lib/cpplint_1.4.5/cpplint.py:1943-1978 | on every text, from every `>` that is not skipped, a place is returned if and only if there is a `<` that counts and a list of the grammar stands between, read from its end |
| `BackLists.StopsAtLess` | lib/cpplint_1.4.5/cpplint.py:1899-1910 | in characters alone: the search from such a `>` stops only at the first of an odd number of `<` |
| `BackLists.GreaterOpens` | lib/cpplint_1.4.5/cpplint.py:1888-1898 | a `>` behind `-`, in ` >= ` or behind `operator` is jumped over, and every other one opens a list |
| `BackLists.OpensItsKind` | lib/cpplint_1.4.5/cpplint.py:1920-1928 | `)` is opened by `(`, `]` by `[` and `}` by `{` |
| `Angles.AngleIsSound` | lib/cpplint_1.4.5/cpplint.py:1762-1816 | from a `<` that opens a list, success means a `>` before the returned position, and between them balanced brackets and no `;` outside them |
| `Angles.SoundIffOpening` | lib/cpplint_1.4.5/cpplint.py:1762-1775 | the promise about `>` holds for all continuations of the text if and only if the `<` opens a list |
| `Angles.NotOpeningGoesWrong` | lib/cpplint_1.4.5/cpplint.py:1764-1772 | for every other `<` there is a text on which it fails |
| `AngleTexts.BehindGreaterIff` | lib/cpplint_1.4.5/cpplint.py:1744-1819 | on every text, from every `<`, the search stops behind a `>` or fails, except exactly if it starts over at an opening bracket that has a partner in the grammar |
| `AngleTexts.ClosesIffList` | lib/cpplint_1.4.5/cpplint.py:1822-1863 | with no other angle between an opening `<` and a `>` that is neither that of `->` nor behind `operator`, across lines, this `>` is found if and only if an argument list stands between them |
| `AngleTexts.PassesOver` | lib/cpplint_1.4.5/cpplint.py:1757-1819 | the scan over lines passes over balanced text without angles and comes out with the same stack |
| `BackAngles.BackAngleIsSound` | lib/cpplint_1.4.5/cpplint.py:1866-1978 | backwards from a `>` that closes a list, success means the position of a `<`, and up to the `>` balanced brackets and no `;` outside them |
| `BackAngles.AtLessIff` | lib/cpplint_1.4.5/cpplint.py:1866-1978 | on every text, from every `>`, the search stops at a `<` or fails, except exactly if it starts over at a closing bracket that has a partner in the grammar |
| `BackAngles.SkippedGoesWrong` | lib/cpplint_1.4.5/cpplint.py:1888-1896 | from the `>` of `()->`, which is skipped as an operator, one gets to the parenthesis: an input for the exception |
| `TemplateScan.InTemplateArgumentList` | lib/cpplint_1.4.5/cpplint.py:2705-2755 | the loop with its regular expression and its jumps over `<...>` computes the recursive scan from the first telling character to the next, whose answers TemplateVerdict gives |
| `TemplateScan.CloseScanIsClose` | lib/cpplint_1.4.5/cpplint.py:2749-2752 | what the scan does about a `<` is what `CloseExpression` answers |
| `TemplateVerdict.YesIff` | lib/cpplint_1.4.5/cpplint.py:2715-2736 | the answer is yes if and only if, behind text without `{};=[].<>` and any number of `<` that close, given by where `CloseExpression` ends, the next of these characters is one of `>=[].` |
| `TemplateVerdict.SaysNo` | lib/cpplint_1.4.5/cpplint.py:2726-2752 | there it is no at `{`, `}` and `;`, at a `<` before `<` or `=`, and at one that does not close |
| `TemplateScan.VerdictStays` | lib/cpplint_1.4.5/cpplint.py:2705-2755 | a verdict that has been reached does not depend on the lines behind it |
| `TemplateScan.VerdictCanBeYes` | lib/cpplint_1.4.5/cpplint.py:2705-2755 | one that has not can still become yes, for some lines that follow |
| `TemplateScan.SettledIff` | lib/cpplint_1.4.5/cpplint.py:2705-2755 | the answer is the same whatever lines follow if and only if it was reached before them |
| `NestingStates.NestingState.UpdatePreprocessor` | lib/cpplint_1.4.5/cpplint.py:2757-2811 | on objects: the new stack and checkpoints have the values of the rule on values, and no block is shared between them |
| `NestingStates.NestingState.PushCheckpoint` | lib/cpplint_1.4.5/cpplint.py:2778-2781 | `#if` saves a copy of the whole stack that shares no object with it, and leaves the stack as it is |
| `NestingStates.NestingState.NextBranch` | lib/cpplint_1.4.5/cpplint.py:2782-2793 | `#else` remembers the stack once and goes back to the one saved at `#if`, by copies |
| `NestingStates.NestingState.PopCheckpoint` | lib/cpplint_1.4.5/cpplint.py:2797-2808 | `#endif` takes over the remembered stack without a copy, and is right to |
| `NestingStates.NestingState.TrackParens` | lib/cpplint_1.4.5/cpplint.py:2840-2859 | the change in place reaches the innermost block and no checkpoint |
| `NestingStates.NestingState.PushNamespaces` | lib/cpplint_1.4.5/cpplint.py:2864-2879 | the loop pushes one block per namespace and changes no checkpoint |
| `NestingStates.NestingState.ClassHead` | lib/cpplint_1.4.5/cpplint.py:2890-2921 | a class head is pushed exactly outside parentheses and, by the scan over the lines that follow, outside template lists; base classes and access change only the top |
| `NestingStates.NestingState.ConsumeAll` | lib/cpplint_1.4.5/cpplint.py:2940-2976 | braces, semicolons and parentheses push, mark or pop, and change no checkpoint |
| `NestingStates.NestingState.Update` | lib/cpplint_1.4.5/cpplint.py:2814-2976 | one line on objects, with the rest of the file behind it, has the effect of the line on values |
| `NestingStates.NestingState.Process` | lib/cpplint_1.4.5/cpplint.py:2814-2976 | so do all lines of a file, each scanned up to the end of it |
| `Nesting.Erasure` | lib/cpplint_1.4.5/cpplint.py:2757-2811 | for every sequence of lines from every state, well nested or not, what will be kept is what the lines of first branches compute without a preprocessor, with the verdicts they get where they stand |
| `Nesting.StackIsErased` | lib/cpplint_1.4.5/cpplint.py:2767-2773 | outside later branches that is the stack itself, and that of the erased text if for each class head the scan ends before the next erased line, or its line leaves the same stack either way |
| `Nesting.FirstBranchesDecide` | lib/cpplint_1.4.5/cpplint.py:2767-2773 | for well-nested text the checkpoints are back at their depth, and under the same condition the final stack is that of the text with every branch after the first deleted |
| `NestingBranches.BranchStarts` | lib/cpplint_1.4.5/cpplint.py:2778-2793 | for every conditional, from every state and whatever its earlier branches did: when the text of an `#else` or `#elif` line starts, the stack is the one before the text of the `#if` line |
| `NestingBranches.BranchComputes` | lib/cpplint_1.4.5/cpplint.py:2757-2811 | a later branch makes of that stack what its own lines make of it in a file without other conditionals open |
| `NestingBranches.RunThroughBranch` | lib/cpplint_1.4.5/cpplint.py:2782-2793 | both for any `#else` or `#elif` of a conditional within the run over a file |
| `NestingBranches.ProgramFramed` | lib/cpplint_1.4.5/cpplint.py:2757-2811 | well-nested text computes the same stack however many conditionals are open around it, and leaves their checkpoints alone |
| `Nesting.JudgedIsText` | lib/cpplint_1.4.5/cpplint.py:2889-2906 | under that condition deleting the branches changes nothing that a line does to the stack |
| `Nesting.VerdictIsFixedIff` | lib/cpplint_1.4.5/cpplint.py:2889-2906 | the verdict on a class head is the same whatever the next erased line and all lines behind it hold if and only if its scan has ended before |
| `Nesting.StackIsFixedIff` | lib/cpplint_1.4.5/cpplint.py:2889-2921 | the condition is exact for the stack behind each class head: that is the same whatever the next erased line and all lines behind it hold if and only if the scan has ended before or the verdict makes no difference |
| `NestingExample.DeletionDecides` | lib/cpplint_1.4.5/cpplint.py:2889-2906 | a class head that is in a template list by the text without the later branch, and not by the text with it |
| `NestingExample.DeletionChangesTheStack` | lib/cpplint_1.4.5/cpplint.py:2767-2773 | a text of eight lines that ends inside a class, and inside a plain block once its second branch is deleted |
| `Nesting.DirectiveKeeps` | lib/cpplint_1.4.5/cpplint.py:2778-2811 | a directive never changes what will be kept |
| `Nesting.TextKeeps` | lib/cpplint_1.4.5/cpplint.py:2771-2773 | the text of a line changes it exactly in first branches |
| `NestingLines.CodeKeeps` | lib/cpplint_1.4.5/cpplint.py:2940-2976 | inside a block, tokens with balanced braces change nothing |
| `NestingLines.DefinitionKeeps` | lib/cpplint_1.4.5/cpplint.py:2947-2975 | a head, its brace, a body and the closing brace leave the stack below the head |
| `NestingLines.ForwardDeclarationKeeps` | lib/cpplint_1.4.5/cpplint.py:2960-2970 | a head that meets a semicolon or a closing parenthesis first is dropped |
| `NestingLines.ClosedLineKeeps` | lib/cpplint_1.4.5/cpplint.py:2838-2976 | a line that closes all namespaces, classes and braces it opens changes only the innermost block's count of parentheses and its assembly state |
| `NestingBlocks.NamespacesPushed` | lib/cpplint_1.4.5/cpplint.py:2864-2879 | the namespaces of a line become blocks in order, each with its name and its brace |
| `NestingBlocks.HeadPushed` | lib/cpplint_1.4.5/cpplint.py:2886-2921 | a class head is pushed if and only if no parenthesis is open around it and it is in no template argument list, private for a class and public for a struct unless the line says otherwise |
| `NestingBlocks.InsideClass` | lib/cpplint_1.4.5/cpplint.py:2908-2921 | on other lines an access keyword changes the class around it, and a colon marks a head that waits for its brace as derived |
| `NestingBlocks.InsideBraces` | lib/cpplint_1.4.5/cpplint.py:2940-2958 | behind a brace and any code, one block has been opened, of the kind that the line says |
| `NestingBlocks.InsideHead` | lib/cpplint_1.4.5/cpplint.py:2947-2952 | the first brace behind a head is its own, and opens nothing else |
| `NestingBlocks.CloserPops` | lib/cpplint_1.4.5/cpplint.py:2971-2975 | a closing brace ends the innermost block, also one that waits for its opening brace |
| `NestingBlocks.ClassLine` | lib/cpplint_1.4.5/cpplint.py:2861-2958 | the whole effect of a line with namespaces, a class head, its brace and the beginning of its body |
| `NestingBlocks.ParensAddUp` | lib/cpplint_1.4.5/cpplint.py:2840-2843 | over lines of plain code the count of parentheses changes by the sum of theirs, and nothing else but the assembly mark does |
| `NestingBlocks.AssemblyOverLines` | lib/cpplint_1.4.5/cpplint.py:2845-2859 | assembly in parentheses over several lines is marked from the line that opens it up to the one that closes it, as ended there, and no longer on the next |
| `ArgRange.Vector.AddPowers` | lib/benchmark_1.5.1/src/benchmark_register.h:13-35 | the loop appends the powers in range, and no product leaves the type |
| `ArgRange.Vector.AddNegatedPowers` | lib/benchmark_1.5.1/src/benchmark_register.h:37-55 | the suffix becomes the negated powers in rising order, and no negation leaves the type |
| `ArgRange.Vector.AddRange` | lib/benchmark_1.5.1/src/benchmark_register.h:57-102 | the old elements stay, the range is appended, and no sum or difference leaves the type |
| `ArgRange.MulFits` | lib/benchmark_1.5.1/src/benchmark_register.h:29-31 | the guard against overflow is exact |
| `ArgRange.RangeHolds` | lib/benchmark_1.5.1/src/benchmark_register.h:57-102 | a value is appended if and only if it is an end, zero in range, or a signed power in range |
| `ArgRange.RangeOrdered` | lib/benchmark_1.5.1/src/benchmark_register.h:57-102 | strictly increasing, except that 0 stands twice at the front exactly when lo is 0 and hi at least 2 |
| `ArgRange.IncreasingIsUnique` | lib/benchmark_1.5.1/src/benchmark_register.h:57-102 | increasing sequences with the same elements are equal, so the two rows above determine the result |
| `CartesianRanges.Advance` | lib/benchmark_1.5.1/src/benchmark_register.cc:325-331 | the carry loop in place computes the recursive carry |
| `CartesianRanges.CarryCounts` | lib/benchmark_1.5.1/src/benchmark_register.cc:325-331 | the carry adds one to the number that the counters denote, and wraps to zero after the last |
| `CartesianRanges.CarryInBounds` | lib/benchmark_1.5.1/src/benchmark_register.cc:325-331 | every counter stays below the size of its list |
| `CartesianRanges.ValueOfDigits` | lib/benchmark_1.5.1/src/benchmark_register.cc:315-332 | a number below the product of the sizes is recovered from its mixed-radix digits |
| `CartesianRanges.DigitsOfValue` | lib/benchmark_1.5.1/src/benchmark_register.cc:315-332 | and every digit string in bounds from its number |
| `CartesianRanges.NextDigits` | lib/benchmark_1.5.1/src/benchmark_register.cc:325-331 | after row i the counters hold the digits of i + 1, and zeros after the last row |
| `CartesianRanges.Select` | lib/benchmark_1.5.1/src/benchmark_register.cc:316-321 | the tuple of the elements that the counters select; `at` never throws |
| `CartesianRanges.Benchmark.Ranges` | lib/benchmark_1.5.1/src/benchmark_register.cc:302-334 | the product of the lists is appended, row i selected by the digits of i, and all tuples of a family keep one length |
| `CartesianRanges.Benchmark.Range` | lib/benchmark_1.5.1/src/benchmark_register.cc:291-300 | the same for one range |
| `CartesianRanges.Benchmark.ThreadRange` | lib/benchmark_1.5.1/src/benchmark_register.cc:458-464 | the thread counts are extended by the range with multiplier 2 |
| `CartesianRanges.EachCombinationOnce` | lib/benchmark_1.5.1/src/benchmark_register.cc:315-332 | every combination of indices selects exactly one row |
| `CartesianRanges.ProductHolds` | lib/benchmark_1.5.1/src/benchmark_register.cc:315-332 | a tuple is appended if and only if each entry comes from its list |
| `CartesianRanges.RangesHold` | lib/benchmark_1.5.1/src/benchmark_register.cc:302-334 | a tuple is appended if and only if each entry is an end, zero or a signed power of its range |
| `CartesianRanges.RangesRepeat` | lib/benchmark_1.5.1/src/benchmark_register.cc:302-334 | no tuple is appended twice if and only if no range runs from 0 to at least 2 |
| `RowOrder.FirstVariesFastest` | lib/benchmark_1.5.1/src/benchmark_register.cc:313-332 | the order of the tuples: the first range varies fastest, and the others advance when it has gone round |
| `Iterations.NextIsLarger` | lib/benchmark_1.5.1/src/benchmark_runner.cc:252-274 | for every result that is not reported the next count is larger, at most fourteen times as large, and at most the maximum |
| `Iterations.AtMostTenfold` | lib/benchmark_1.5.1/src/benchmark_runner.cc:256-262 | from a result below a tenth of the least time the count grows at most tenfold |
| `Iterations.SteadySpeedSuffices` | lib/benchmark_1.5.1/src/benchmark_runner.cc:252-274 | if every iteration takes the same time, one estimate from more than a tenth of the least time makes the next run long enough, unless it is capped |
| `Estimates.EstimateIsExact` | lib/benchmark_1.5.1/src/benchmark_runner.cc:252-274 | at steady speed the next run is meant to last 1.4 times the least time, or ten times the last run if that was at most a tenth of it, and the count meets this up to half an iteration unless the maximum or one more iteration decides |
| `Iterations.GrowthByAThird` | lib/benchmark_1.5.1/src/benchmark_runner.cc:252-274 | growth by a third, or to the maximum, is guaranteed if and only if the least time avoids a gap below one nanosecond |
| `Iterations.AtMost61` | lib/benchmark_1.5.1/src/benchmark_runner.cc:299-320 | whatever the machine does, there are at most 61 re-estimates for a least time of a nanosecond or more |
| `Iterations.SixtyOneIsExact` | lib/benchmark_1.5.1/src/benchmark_runner.cc:299-320 | for each such least time there is a machine on which it takes 61 |
| `Iterations.Growth` | lib/benchmark_1.5.1/src/benchmark_runner.cc:252-274 | the slowest growth reaches the maximum in 61 steps, and not in 60 |
| `Iterations.MeasuredTime` | lib/benchmark_1.5.1/src/benchmark_runner.cc:230-247 | manual and real time decide per thread, CPU time as a whole unless the whole process was measured |
| `Iterations.BenchmarkRunner.Reestimate` | lib/benchmark_1.5.1/src/benchmark_runner.cc:313-320 | the count becomes the estimate, and the assertion that it grew holds |
| `Iterations.BenchmarkRunner.DoOneRepetition` | lib/benchmark_1.5.1/src/benchmark_runner.cc:289-348 | the first repetition rejects a try exactly if it had no error, fewer than 10^9 iterations, less than the least time, and real time below five times that unless times are set by hand, and reports the first other one; the others, and those with an explicit count, run once with the count they find; the run that measures memory makes at most 16 iterations and changes nothing else |
| `Iterations.BenchmarkRunner.RunAll` | lib/benchmark_1.5.1/src/benchmark_runner.cc:160-162 | all repetitions are reported with one and the same iteration count, found after at most 61 re-estimates |
| `LeastSquares.MinimalLeastSq` | lib/benchmark_1.5.1/src/complexity.cc:82-117 | the two loops compute the sums, the quotient and the normalized error, not-a-number where the curve is zero |
| `LeastSquares.MinimalLeastSqOf` | lib/benchmark_1.5.1/src/complexity.cc:126-156 | with `oAuto` a candidate that no other beats, and the first such; otherwise the fit asked for |
| `LeastSquares.CoefIsOptimal` | lib/benchmark_1.5.1/src/complexity.cc:97-103 | unless the curve is zero on all sizes, the coefficient gives the least sum of squares of all reals, and is the only one that does |
| `LeastSquares.ZeroCurve` | lib/benchmark_1.5.1/src/complexity.cc:103 | otherwise the coefficient is not a number, and all coefficients fit alike |
| `LeastSquares.PositiveMeanPicksBest` | lib/benchmark_1.5.1/src/complexity.cc:135-149 | with a positive mean no candidate with any coefficient is closer to the times than the choice |
| `LeastSquares.ExactDataAreFitted` | lib/benchmark_1.5.1/src/complexity.cc:82-149 | times that are exactly a multiple of a candidate curve are fitted without error, and that curve's coefficient is the multiple |
| `LeastSquares.CurveShapes` | lib/benchmark_1.5.1/src/complexity.cc:28-50 | doubling the size multiplies the curves by 1, 2, 4 and 8, adds one to the binary logarithm, and the last curve is a product of two others |
| `FittedCurves.CurvesAre` | lib/benchmark_1.5.1/src/complexity.cc:28-50 | the values of the curves |
| `FittedCurves.LogarithmsAre` | lib/benchmark_1.5.1/src/complexity.cc:37-45 | at the powers of two the logarithmic curve counts 0, 1, 2 and so on |
| `FittedCurves.CandidatesAre` | lib/benchmark_1.5.1/src/complexity.cc:135-140 | the automatic choice is among all six curves |
| `FittedCurves.ErrorIs` | lib/benchmark_1.5.1/src/complexity.cc:105-114 | the error times the mean is the root of the residual over the number of runs; with a mean of zero it is infinite, or not a number if nothing is missed |
| `FittedCurves.BothCoefficients` | lib/benchmark_1.5.1/src/complexity.cc:170-187 | from runs whose CPU and real time per iteration are multiples of a curve, the two fits find the one multiple and the other |
| `LeastSquares.NegativeMeanPicksWorst` | lib/benchmark_1.5.1/src/complexity.cc:112-149 | with a negative mean no candidate's best fit is farther from the times than the choice |
| `LeastSquares.ZeroMeanPicksConstant` | lib/benchmark_1.5.1/src/complexity.cc:112-149 | with a mean of zero the default stays |
| `LeastSquares.ChoiceIsClosest` | lib/benchmark_1.5.1/src/complexity.cc:135-149 | the choice is the closest candidate if and only if the mean is positive, or zero and the products of all candidate curves with the times vanish, or negative and all tie |
| `LeastSquares.MeasuredTimesPickClosest` | lib/benchmark_1.5.1/src/complexity.cc:135-149 | for times that are not negative the choice is always a closest candidate |
| `LeastSquares.ComputeBigO` | lib/benchmark_1.5.1/src/complexity.cc:158-190 | nothing below two sizes; otherwise both fits, the real times with the curve chosen for the CPU times, which is closest to these if none is negative |
| `LeastSquares.NegativeMeanExample` | lib/benchmark_1.5.1/src/complexity.cc:112-149 | passed to `MinimalLeastSq` directly, two times on a line through zero for which another curve is chosen |
| `Statistics.StdDevSquared` | lib/benchmark_1.5.1/src/statistics.cc:59-75 | the guard against negative arguments never fires, and the square of the result is the sum of squared distances from the mean over n - 1 |
| `Statistics.MeanTimesCount` | lib/benchmark_1.5.1/src/statistics.cc:28-35 | the mean times the number of samples is their sum |
| `Samples.FewSamples` | lib/benchmark_1.5.1/src/statistics.cc:32-72 | without samples mean and deviation are zero, and one sample is its own mean and does not deviate |
| `Samples.NoDeviationIff` | lib/benchmark_1.5.1/src/statistics.cc:59-75 | the deviation is zero if and only if all samples are the same |
| `Statistics.StatisticsMedian` | lib/benchmark_1.5.1/src/statistics.cc:37-52 | the result is one that two uses of `nth_element` by its promise allow |
| `Statistics.NthIsSorted` | lib/benchmark_1.5.1/src/statistics.cc:41-42 | the promise of `nth_element` fixes the element at its position as the one in sorted order |
| `Statistics.MedianBounds` | lib/benchmark_1.5.1/src/statistics.cc:37-52 | the result is the median for an odd count or fewer than three, and otherwise lies between it and the mean of the lower middle and the largest element |
| `Statistics.MedianIsExact` | lib/benchmark_1.5.1/src/statistics.cc:48-51 | it is the median whatever `nth_element` does if and only if there are fewer than three samples, an odd number, or an upper half that is all the same |
| `Statistics.MeanScales` | lib/benchmark_1.5.1/src/statistics.cc:32-35 | the mean of scaled samples is the scaled mean |
| `Statistics.StdDevScales` | lib/benchmark_1.5.1/src/statistics.cc:66-75 | the same for the standard deviation |
| `Statistics.MedianScales` | lib/benchmark_1.5.1/src/statistics.cc:37-52 | a possible median, scaled, is a possible median of the scaled samples |
| `Aggregates.Accumulate` | lib/benchmark_1.5.1/src/statistics.cc:120-127 | the checks pass exactly if all reports agree, and then the times of the runs without an error come out in order |
| `AdjustedTimes.KeptConcat` | lib/benchmark_1.5.1/src/statistics.cc:120-127 | exactly the reports without an error are aggregated, in their order |
| `Aggregates.ComputeStats` | lib/benchmark_1.5.1/src/statistics.cc:77-191 | below two runs without an error nothing; otherwise a check fails if and only if two reports differ in name or iterations, and aggregates come out if and only if none does and the first report has no error, each the statistic of its times in units per iteration, the number of reports cancelled |
| `Aggregates.AdjustedIsScaled` | lib/benchmark_1.5.1/src/reporter.cc:93-103 | the adjusted times of the runs are their times, all scaled by the same factor |
| `AdjustedTimes.ShownTimes` | lib/benchmark_1.5.1/src/reporter.cc:93-103 | the time that is shown, times the iterations, is what was measured in the unit of the report, of which a second has 10^9, 10^6 or 10^3, for real and CPU time |
| `Aggregates.AggregatesOfAdjusted` | lib/benchmark_1.5.1/src/statistics.cc:144-174 | the adjusted mean and standard deviation are those of the adjusted times of the runs without an error, and the adjusted median is a possible median of them, for real and CPU time |
| `RunReports.EndIterations` | lib/benchmark_1.5.1/src/benchmark_runner.cc:120-125 | a thread whose function has returned adds the iterations asked for and those left over if it started, and nothing otherwise; without an error it has started |
| `RunReports.RunInTurn` | lib/benchmark_1.5.1/src/benchmark_runner.cc:110-133 | the threads of a run, one after the other on one manager, leave in the record the total of their iterations and times, and an error if one of them failed |
| `RunReports.TotalsAreTheSum` | lib/benchmark_1.5.1/src/benchmark_runner.cc:122-131 | this total is the sum over the shares of the threads, which the thread protocol reports under every schedule |
| `RunReports.RepetitionFacts` | lib/benchmark_1.5.1/src/benchmark_runner.cc:64-106 | a report counts the iterations of all threads that started, and has an error if and only if a thread failed |
| `RunReports.ReportedTimes` | lib/benchmark_1.5.1/src/benchmark_runner.cc:84-91 | the times in a report: the averages over the threads, CPU time as a whole unless that of the process was measured, manual for real time if so set, and none with an error |
| `RunReports.ChecksPassIff` | lib/benchmark_1.5.1/src/statistics.cc:120-123 | the checks pass if and only if all repetitions count equally many iterations, threads that did not start and batches taken into account |
| `RunReports.ChecksPassIffAllStarted` | lib/benchmark_1.5.1/src/statistics.cc:120-123 | without batches, and with some repetition without an error, that is if and only if no thread of any repetition returned without entering its loop |
| `RunReports.ComputedIff` | lib/benchmark_1.5.1/src/statistics.cc:85-147 | without batches, aggregates are computed if and only if fewer than two repetitions succeeded, or every thread of every repetition entered its loop and none of the first failed |
| `RunReports.RunBenchmark` | lib/benchmark_1.5.1/src/benchmark_runner.cc:160-165 | from the repetitions of a benchmark to its aggregates: exactly when a check fails, and without batches exactly when the aggregates come out |
| `RunReports.EarlyFailureFailsTheCheck` | lib/benchmark_1.5.1/src/statistics.cc:123 | three repetitions, the second failing and returning without entering its loop, for which a check fails |
| `RunReports.FirstFailureReadsUnset` | lib/benchmark_1.5.1/src/statistics.cc:147 | three repetitions, the first failing in its loop, for which all checks pass and the statistics read were never set |
| `Json.StrEscape` | lib/benchmark_1.5.1/src/json_reporter.cc:35-51 | the loop writes the escape of every character in order |
| `JsonText.EscapesAre` | lib/benchmark_1.5.1/src/json_reporter.cc:35-51 | which seven characters are written as two, and how; every other one is written as itself |
| `Json.EscapeRoundTrip` | lib/benchmark_1.5.1/src/json_reporter.cc:35-51 | a reader gets the string back and stops right behind the added quote, whatever stands around it; a strict reader does so if and only if no other control character occurs |
| `Json.EscapeIsInjective` | lib/benchmark_1.5.1/src/json_reporter.cc:35-51 | different strings are written differently |
| `Json.FormatKV` | lib/benchmark_1.5.1/src/json_reporter.cc:53-59 | what is written is the escape of the strings cut at the first NUL |
| `Json.ValueIsRecovered` | lib/benchmark_1.5.1/src/json_reporter.cc:53-59 | a reader gets the value back if and only if it holds no NUL |
| `Json.JSONReporter.ReportRuns` | lib/benchmark_1.5.1/src/json_reporter.cc:167-187 | the flag tells whether nothing has been reported, and the output stays the joined list of all runs |
| `JsonText.JoinedIs` | lib/benchmark_1.5.1/src/json_reporter.cc:167-187 | that list from left to right: each object on its lines, and a comma in front of each but the first |
| `Json.JSONReporter.Report` | lib/benchmark_1.5.1/src/json_reporter.cc:167-192 | for every sequence of batches, empty ones included, all runs in order with one comma between any two and none at either end |

## Left out

- ThreadProtocol: how often a thread calls the barrier and which errors it reports is fixed in advance, and the code between is one step; `State` itself is modelled separately in StateTimer.
- ThreadManager: `phase_number_` and the counts are unbounded integers, so a wrap-around after 2^31 phases is not there.
- ThreadProtocol: memory effects weaker than one step after the other, thread creation, and the label of the shared results.
- Counters.Increment: iterates over keys in any order; the map of the source is ordered, which the result does not depend on.
- BenchmarkState.State: `SetLabel`, counters and `complexity_n` have no rules beyond assignment.
- ForwardScan: `\s` and `\w` of the regular expressions are those of ASCII text.
- NestingStates.NestingState: `previous_stack_top`, which only style checks read, and `CheckEnd`, which changes nothing, and the regular expressions that take a line apart.
- CartesianRanges.Benchmark.CollectLists: does not model that the number of combinations is a `size_t`, which wraps for more than 2^64 of them.
- ArgRange.Vector: appends to a sequence field; capacity and iterators of `std::vector` are not modelled.
- Iterations: rounding of `double` arithmetic, and what the memory manager measures.
- Iterations.BenchmarkRunner.DoOneRepetition: does not model the thread of the run that measures memory, whose results are dropped.
- Iterations.BenchmarkRunner.constructor: the least time must be positive; the library refuses other values for a benchmark but not on the command line.
- LeastSquares: `log` may be any function, and behind the fits `ComputeBigO` only copies fields.
- Aggregates.ComputeStats: the statistics of user counters, computed the same way without rescaling, the check that repetitions agree on the flags of a counter, and the labels.
- RunReports.CreateRunReport: labels, thread numbers, counters and memory measurements, which are only copied or finished.
- Nesting.FirstBranchesDecide: the condition is exact for the stack behind each class head (StackIsFixedIff) and sufficient for the final one, from which later lines may remove what a changed verdict has left.
- Statistics.MedianScales: states a possible median, not one value, because `nth_element` may reorder scaled samples differently.
- Json.EscapeRoundTrip: bytes are characters; that the text is valid UTF-8 is not modelled, and a reader's `\u` covers the codes below the surrogates, which the writer never uses.
- Json.JSONReporter: what `PrintRunData` writes inside an object is any text, and `ReportContext` any beginning.
- cpplint's style checks, option parsing, file access and output formats, and the benchmark library's console and CSV output, system queries and clocks.
- The Stan headers, which only include others, and the Python scripts that build and run tests.
