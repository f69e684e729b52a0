# s3t harness: a verified model

s3t runs S3 compatibility tests against servers that may be broken. This
project models the logic the runner itself rests on and proves what it is for:

- **The run** (`Tests`, `Scheduler`, `Protocol`, `ProtocolSafety`,
  `ProtocolTiming`, `ProtocolEnding`, `ProtocolAlarm`, `ProtocolErrors`, `Verdicts`,
  `LeakCounter`, `StallTimeout`). `Protocol` is a transition system with one step for everything the goroutines
  can do: start a phase, hand out an index, notice cancellation, close the queue, end or abandon
  a body, end or cut off cleanups, each of the seven steps of filing a result with
  the mutex taken and released, a look of the stall watchdog, a cancellation
  from outside, and the passing of one unit of time. Time passes only when the
  harness itself has nothing to do. `Scheduler.Record` is the shared record the
  steps work on, with its fields and methods. The theorems are about every
  reachable state of every run: at most one serial test at a time and no more
  workers than asked for; every test filed once and observed once; results in
  input order; what each status says of the test; what error is returned and why, and what the leak counter counts; the stall backstop, the makespan,
  no false alarm, and that every run ends. The no-false-alarm condition is shown
  to be exact, by building a run that breaks it.
- **One test** (`TestHandle`). The handle with its methods, a body or cleanup as
  the list of calls it makes, and `runOne` under any course of deadlines.
- **The bucket cleaner** (`BucketServer`, `Cleaner`, `Retry`). The server is a
  sorted list of versions with locks, behind calls that take time and may fail;
  the cleaner deletes while it pages, retries with bypass, keeps the latest
  retention date, waits, and goes again. `Retry` is the backoff loop, and
  `Cleaner.Teardown` the cleaner inside it.
- **Marker expressions** (`Markers`): lexer, recursive-descent parser over a
  position, printer, evaluator, against the grammar as derivations.
- **Text formats** (`Text`, `Results`, `Ini`, `Sorting`, `Registry`): the INI reader
  against a scan of the lines, and node-ID listings against allow-lists.
- **Canonical forms** (`SigV2`, `BucketNames`): the version 2 string to sign, and
  generated bucket names.

Where the source changes state step by step the model does too: classes
(`Scheduler.Record`, `TestHandle.T`, `Markers.MarkerParser`, `BucketNames.Env`)
and methods with loops, each proved against a function, and the theorems are
proved about those functions.

Five places where the code does not do what its text suggests. Each has a
failing input and the exact condition, both proved:

- `internal/cmd/run.go:63-66` says tying the stall timeout to the test timeout
  keeps the two from being configured into conflict. It does if and only if the
  test timeout is off, and the watchdog with it, or the cleanups have a timeout
  and twice the test timeout exceeds the grace and the cleanup timeout together
  (`StallTimeout.DefaultStallIff`). `--timeout 20s` with the other defaults is
  not safe (`StallTimeout.ShortTimeoutAlarms`), nor is any test timeout with
  `--cleanup-timeout 0` (`StallTimeout.UnboundedCleanupAlarms`).
- `internal/config/config.go:217-222` caps the generated prefix at 30
  characters. It does if and only if there is at most one placeholder or nothing
  to fill in (`BucketNames.BucketPrefix`); two placeholders alone give 60
  (`BucketNames.TwoPlaceholders`).
- `internal/harness/t.go:102-108` says a cleanup registered with the handle runs.
  One registered while cleanups run does not (`TestHandle.LateRegistration`), nor
  one an abandoned body registers after its worker has moved on
  (`TestHandle.LateBody`). By the time `runOne` returns every cleanup has started
  if and only if the deadline left none unstarted, none that ran registered
  another in the calls it made, and an abandoned body had no registration still
  to make (`TestHandle.EveryCleanupRuns`). What was left running may go on after
  that: once it has all ended, the cleanup deadline has made no difference, and
  every cleanup has run if and only if none of those registered in time registers
  another and an abandoned body registers none later
  (`TestHandle.AllRunInTheEnd`).
- `internal/harness/run.go:54-55` says reaching the leak limit aborts the run. It
  is recorded as the run's error and the run goes on
  (`ProtocolErrors.LimitDoesNotAbort`): a run is cut short if and only if the
  caller cancels, the watchdog fires or `Run` has returned
  (`ProtocolErrors.CancelledIff`).
- `internal/harness/run.go:54-55` and `195-197` speaks of abandoned goroutines. The
  counter counts exactly the tests reported as timed out
  (`ProtocolErrors.LeaksCounted`), and such a test may have ended by itself
  (`TestHandle.TimedOutInTime`): an interrupted run can count one and report the
  limit reached with nothing abandoned (`LeakCounter.InterruptedRun`). The counter
  is the number of abandoned tests counted if and only if no counted test had
  ended as failed with its context done (`LeakCounter.CountsAbandonedIff`).

## Model

| member | source | states |
|---|---|---|
| Scheduler.Partition | internal/harness/run.go:98-107 | The loop splits the indexes into the two phase queues of `Queue`. |
| Scheduler.QueueFacts | internal/harness/run.go:98-107 | A phase queue is strictly ascending, holds only tests of its kind, and misses none. |
| Scheduler.QueuesCover | internal/harness/run.go:98-107 | The two queues together are as long as the input, so every index is in exactly one place. |
| Scheduler.Record.constructor | internal/harness/run.go:74-82 | A new record has a blank result and nothing done for each test, the start time stamped, no leaks and no breakdown. |
| Scheduler.Record.Fail | internal/harness/run.go:238-241 | Only the first breakdown is kept. |
| Scheduler.Record.CheckLeaked | internal/harness/run.go:195-203 | A timed-out test is counted, and reaching a positive limit records a breakdown. |
| Scheduler.Record.Finish | internal/harness/run.go:178-193 | Filing a result without interleaving is the composition of the protocol's seven steps, with the count compared to the limit after it is taken, `Observe` called once for it and the mutex free again; no other place changes. |
| Scheduler.Record.Collect | internal/harness/run.go:243-255 | The loop returns the results marked done, as the function `Collected`. |
| Scheduler.CollectedSelects | internal/harness/run.go:243-255 | What is collected was picked in ascending order from exactly the places marked done. |
| Scheduler.CollectedAll | internal/harness/run.go:243-255 | When everything is done, everything is collected. |
| Protocol.NextMode | internal/harness/run.go:139-150 | A worker goes through the stages of a test in order, body, cleanups and filing, with one stage more when a timed-out test is counted, then back to idle, keeping its entry, its start and its verdict. The end of the body is kept as it came. A test times out if and only if it was abandoned or its body failed with its context done, is skipped if and only if its body was and was waited for, and passes if and only if its body did and its cleanups ended unmarked. |
| ProtocolSafety.ShapeStep | internal/harness/run.go:84-95 | Every step keeps: serial workers come first, and the pool is started only after every serial worker has left. |
| ProtocolSafety.TakenStep | internal/harness/run.go:128-176 | Every step keeps: no two workers carry the same entry, entries not handed out are not done, and a carried one is done only while it is being reported. |
| ProtocolSafety.MutexStep | internal/harness/run.go:186-192 | Every step keeps: exactly the worker between lock and unlock holds the mutex. |
| ProtocolSafety.FiledStep | internal/harness/run.go:178-193 | Every step keeps: what is done is recorded under its own test and has been observed once, save what the mutex holder is about to report. |
| ProtocolSafety.CoveredStep | internal/harness/run.go:128-176 | Every step keeps: while nobody cancelled, each entry handed out is done or in a worker's hands. |
| ProtocolSafety.PhaseIsolation | internal/harness/run.go:84-106 | In every interleaving, cancellation included, a serial test inside `runOne` is alone there, and never more than max(1, min(Parallel, pool tests)) workers are inside. |
| ProtocolSafety.NoPoolAfterCancel | internal/harness/run.go:87-92 | Once a run is cancelled in the serial phase, no worker of the pool ever starts. |
| ProtocolSafety.ExactlyOnce | internal/harness/run.go:178-193 | No index is marked done twice; a done index holds its own test's result; whenever the mutex is free the observed results are exactly those done, each observed once. |
| ProtocolSafety.ResultsInOrder | internal/harness/run.go:71-95 | However the run went, `Run` returns results of its own tests in input order, and one for every test when it was not cut short. |
| Verdicts.VerdictsMean | internal/harness/run.go:269-304 | In every reached state, each result on record follows from what happened in the run: passed if and only if the body ended so and the cleanups ended unmarked; skipped if and only if the body was; timed out if and only if the test was abandoned or failed with its context done; failed otherwise. |
| Verdicts.ReturnedVerdicts | internal/harness/run.go:71-95 | The same of every result `Run` returns, each standing for the test of its place, in ascending order; for a run nobody cut short, all tests in place. |
| ProtocolTiming.QuietMain | internal/harness/run.go:153-175 | While time passes before `Run` returns, nobody has cancelled and a test of the current phase is in flight; while feeding, the whole crew is busy. |
| ProtocolTiming.OutstandingStep | internal/harness/run.go:178-193 | Tests only ever close, and the progress time moves exactly when one does. |
| ProtocolTiming.TimedStep | internal/harness/run.go:312-355 | Every step keeps: with both timeouts set no worker is later with its test than the body deadline with its grace and the cleanup deadline allow. |
| ProtocolTiming.LivelyStep | internal/harness/run.go:178-193 | Every step keeps: a test was just finished, or one that was running at the last finish still is. |
| ProtocolTiming.CrewLowest | internal/harness/run.go:128-176 | With a whole crew busy, one worker's entry lies at least a full round behind the next one to hand out. |
| ProtocolTiming.SlotIsFloor | internal/harness/run.go:128-151 | The slot that starts one test bound later for each round before it starts at floor(k/w) test bounds. |
| ProtocolTiming.PacedStep | internal/harness/run.go:87-92 | Every step keeps the schedule: each test of the phase started by its slot and each phase began on time. |
| ProtocolEnding.AntiHang | internal/harness/run.go:205-236 | With a stall timeout, `Run` has returned within the timeout and one look of the watchdog (at most 30 s) after the last finished test, and within one such wait per test and one more in all, whatever bodies and cleanups do. |
| ProtocolEnding.Makespan | internal/harness/run.go:87-92 | With both per-test timeouts, entry k of a phase with w workers starts within floor(k/w) test bounds of its phase, the serial phase begins at 0 and the pool within one bound per serial test, and the run is over within one bound per serial test and per round of the pool. The pool has as many workers as asked for, at least one and at most one per test; a test bound is timeout, grace (5 s unless set) and cleanup timeout together. |
| ProtocolEnding.NoFalseAlarm | internal/harness/run.go:178-193 | When one test's bounds together stay below the stall timeout, the watchdog fires in no run. |
| ProtocolEnding.RunEnds | internal/harness/run.go:30-38 | With a stall timeout or both per-test timeouts, no run has more than a fixed number of steps without returning. |
| StallTimeout.NeverAlarmsIff | internal/harness/run.go:205-236 | For every setting, all lists of tests and all runs: the watchdog never fires if and only if it is off, or both per-test timeouts are set and timeout, grace and cleanup timeout together are below the stall timeout. |
| StallTimeout.DefaultStallIff | internal/cmd/run.go:62-67 | The default of three times the timeout is safe if and only if the timeout is off, or the cleanup timeout is set and twice the timeout exceeds grace and cleanup timeout together. |
| StallTimeout.ShortTimeoutAlarms | internal/cmd/run.go:62-67 | A concrete setting, a 20 s timeout with a 60 s cleanup timeout, for which the default is not safe. |
| StallTimeout.UnboundedCleanupAlarms | internal/cmd/run.go:62-67 | With no cleanup timeout the default is not safe for any positive timeout. |
| ProtocolAlarm.AlarmRun | internal/harness/run.go:205-236 | The run that shows it: every test within the deadlines that are set, the first ended so that the watchdog looks exactly one stall timeout later. |
| ProtocolEnding.CancelledReturns | internal/harness/run.go:153-175 | A cancelled run returns in the instant it is cancelled, even with no timeout set and everything stuck: until then the clock stands still, the harness has a next step, and at most 11 n + 11 can be taken. |
| ProtocolErrors.ErrorMeans | internal/harness/run.go:66-70 | `Run` returns no error if and only if there was no alarm and every count that reached the limit was still to be compared with it when `Run` returned; an error names an alarm there was or a count that was compared. A run nobody cut short has as many leaks as results that timed out, and fails if and only if they reach the limit. |
| ProtocolErrors.FirstErrorStays | internal/harness/run.go:238-241 | In every run the first breakdown on record stays the one on record. |
| ProtocolErrors.LeaksCounted | internal/harness/run.go:195-203 | In every reached state the counter is the number of tests reported as timed out, each counted once. |
| ProtocolErrors.CancelledIff | internal/harness/run.go:71-95 | A run is cancelled if and only if the caller cancelled, the watchdog fired or `Run` returned; the leak limit cancels nothing. |
| ProtocolErrors.LimitDoesNotAbort | internal/harness/run.go:195-203 | A concrete run that has reached its leak limit and starts the next test. |
| LeakCounter.CountedIsBlamed | internal/harness/run.go:282-291 | Each test the counter counted had been abandoned, or its body had ended as failed with its context done by the time its cleanups were over; never both. |
| LeakCounter.CountsAbandonedIff | internal/harness/run.go:195-203 | In every reached state the counter is the number of abandoned tests it counted if and only if none it counted had ended as failed with its context done. |
| LeakCounter.InterruptedRun | internal/harness/run.go:195-203 | A concrete interrupted run in which no test is abandoned, the counter is one and the breakdown on record is the leak limit. |
| TestHandle.T.Logf | internal/harness/t.go:69-73 | A line is added and nothing else changes. |
| TestHandle.T.Errorf | internal/harness/t.go:76-83 | Marks the test failed and logs. |
| TestHandle.T.Fatalf | internal/harness/t.go:87-90 | Marks, logs, and unwinds as a failure. |
| TestHandle.T.Skipf | internal/harness/t.go:94-100 | Records the reason and unwinds as a skip, without marking. |
| TestHandle.T.Cleanup | internal/harness/t.go:104-108 | Registers last. |
| TestHandle.T.RunCleanups | internal/harness/t.go:127-143 | The loop runs the list taken at its start backwards, swallowing what unwinds, and leaves what cleanups registered. |
| TestHandle.T.RunCleanupsUntil | internal/harness/run.go:335-355 | The same loop stopped anywhere by its deadline. |
| TestHandle.ReachesIff | internal/harness/run.go:362-382 | A call is reached if and only if it is on the list with no unwinding call before it. |
| TestHandle.PerformMeans | internal/harness/run.go:362-382 | How a body ends, whether it marks the test and what it registers, each as a condition on the calls it reaches. |
| TestHandle.PerformSays | internal/harness/t.go:69-100 | What a list of calls logs, what reason it leaves and with what message it panics, read off the calls it reaches. |
| TestHandle.RunDownMeans | internal/harness/t.go:127-143 | All cleanups run once, last registered first, whichever of them unwind, and the test is marked exactly if it was or one of them spoils it. |
| TestHandle.BackwardsAt | internal/harness/t.go:127-143 | The k-th cleanup to run is the k-th from the end of the list. |
| TestHandle.VerdictMeans | internal/harness/run.go:269-331 | Each status if and only if: Passed when waited for throughout, nothing unwound or marked, in body or cleanups; timed out when abandoned, or failed with the context done; skipped when not abandoned and unwound by a skip; failed otherwise. |
| TestHandle.CleanupOrder | internal/harness/run.go:335-355 | What was registered before the snapshot starts in LIFO order: all of it, or under a deadline exactly the prefix reached. |
| TestHandle.LeftBehind | internal/harness/t.go:127-143 | Under every course of deadlines, the list is empty when `runOne` returns if and only if no cleanup, in the calls it has made by then, registered another. |
| TestHandle.WaitedForAll | internal/harness/t.go:127-143 | For a test waited for throughout, nothing is left behind if and only if no cleanup of its body registers another. |
| TestHandle.EveryCleanupRuns | internal/harness/t.go:102-108 | When `runOne` returns, exactly the cleanups the body registers or ever will have started, in LIFO order, with none waiting, if and only if the cleanup deadline left none unstarted, none that ran registered another in the calls it made, and an abandoned body had no registration still to make. |
| TestHandle.AllRunInTheEnd | internal/harness/run.go:312-355 | Once everything left running has ended, all cleanups registered before the snapshot have run, whatever the cleanup deadline; every cleanup has if and only if none of those registers another and an abandoned body registers none after it. |
| TestHandle.LateRegistration | internal/harness/t.go:127-143 | A concrete cleanup that registers another one, which never runs. |
| TestHandle.LateBody | internal/harness/run.go:312-331 | A concrete abandoned body that registers a cleanup afterwards, which never runs. |
| TestHandle.TimedOutInTime | internal/harness/run.go:287-291 | A concrete test that is not abandoned and times out. |
| TestHandle.OutputMeans | internal/harness/run.go:269-304 | Under every course: the log is what body and cleanups logged in the calls they got to make, in order, with one line for a panic, an abandoned body, each cleanup that unwound and a missed cleanup deadline; the skip reason is that of the body, if no cleanup skips. |
| TestHandle.RunOneTest | internal/harness/run.go:269-304 | The imperative `runOne` leaves the handle and the status of the function the theorems are about. |
| BucketServer.PageMeans | internal/fixture/fixture.go:209-222 | A page shows exactly the entries between two markers, none twice, moves the marker when more follow, and misses nothing when none do. |
| Cleaner.RetainUntil | internal/fixture/fixture.go:283-298 | One lookup when the refusal was for access, and none otherwise; the retention date it gives, zero when it fails. |
| Cleaner.TriedMeans | internal/fixture/fixture.go:223-240 | Two attempts, the second with bypass and only on what the first refused, leave of the page exactly what refuses the last of them, and the refusals name exactly those entries. Should a call fail, nothing outside the page and nothing that would still refuse is gone. |
| Cleaner.TwoAttempts | internal/fixture/fixture.go:223-240 | Retrying only the refused with bypass does to the page what one pass with bypass would, as of the retry. |
| Cleaner.LatestDate | internal/fixture/fixture.go:241-245 | The loop over the refusals looks each up in its turn and returns the latest date among the lookups that succeeded. |
| Cleaner.BatchSpares | internal/fixture/fixture.go:257-271 | A batch, failed or not, deletes nothing that still refuses and nothing it does not name. |
| Cleaner.RoundDone | internal/fixture/fixture.go:210-252 | One round whose deletions succeed keeps the pass invariant up to its new marker: survivors, times of the last attempts, and dates heard of. |
| Cleaner.RoundKept | internal/fixture/fixture.go:210-252 | One round, whether a call fails or not, deletes only entries of its page, and none that would still refuse. |
| Cleaner.DeleteVersions | internal/fixture/fixture.go:207-254 | The loop over the pages returns the server, the date and the error of `FullPass`, the recursion the next row is about. |
| Cleaner.PassMeans | internal/fixture/fixture.go:207-254 | For any page sizes: up to the last finished page, and without an error that is everything, the survivors are exactly the entries that refused their last attempt, made with bypass during the pass; what comes after the page that failed is untouched. The date is the latest known for those whose lookup, made in this pass and each in a call of its own, succeeded; zero if none. |
| Cleaner.EmptyBucket | internal/fixture/fixture.go:183-203 | The method returns the server and the error of `Emptying`, which the next three rows are about. |
| Cleaner.EmptyingKeeps | internal/fixture/fixture.go:183-203 | Whatever fails: it waits exactly until the latest date the first pass found, if that had no error, the date is still to come, at most a minute away, and nobody interrupts, and otherwise not at all; an error of the first pass is returned at once; it gives up on a lock if and only if that date is more than a minute past the end of the pass, and then does nothing more; nothing that would still refuse is gone; and without an error only held, broken or compliance entries are left. |
| Cleaner.LeftRefused | internal/fixture/fixture.go:183-203 | Whatever fails: if it ends without an error, everything left refused an attempt with bypass made no earlier than the latest date the first pass found, so an error of the second pass is never dropped. |
| Cleaner.EmptyingMeans | internal/fixture/fixture.go:183-203 | When its own calls do not fail and it is not interrupted: it fails if and only if the retention date of some held or compliance entry is more than a minute past the end of the first pass, otherwise leaves exactly what is held or broken, and succeeds with nothing left if and only if no entry is held or broken and every compliance date is within a minute of the end of the first pass. |
| Cleaner.EmptiesInTime | internal/fixture/fixture.go:183-203 | For a caller: nothing held or broken, every compliance date at most a minute away when the cleanup begins, no failed call and no interruption leave the bucket empty and give no error. |
| Cleaner.Teardown | internal/fixture/fixture.go:139-148 | The loop of attempts and waits returns what `Tearing` says, which the next three rows are about. |
| Cleaner.TearingMeans | internal/fixture/retry.go:30-55 | Emptying inside the backoff loop: at most 12 attempts, the last one begun after at least the delays of the waits before it, its error the one returned; it gives up on an overloaded server only past the budget, and nothing that would still refuse is gone. |
| Cleaner.EachRetried | internal/fixture/retry.go:30-55 | Every attempt before the last ended throttled and within 30 s of the start, the next one found the bucket as it was left, and the wait between them was at least its delay and less than twice that. |
| Cleaner.WaitsAdd | internal/fixture/retry.go:30-55 | So the time slept before an attempt is at least the delays before it, and at most twice those and a minute for each earlier attempt. |
| Cleaner.TearingEnds | internal/fixture/fixture.go:139-148 | If no call of the last attempt fails, its error is a lock more than a minute past the end of its first pass or none, and with none exactly what was held or broken from the start is left. |
| Cleaner.TearsInTime | internal/fixture/fixture.go:139-148 | For a caller: nothing held or broken and every compliance date at most a minute away when the teardown begins leave the bucket empty, if no call of the last attempt fails. |
| Retry.RetryThrottled | internal/fixture/retry.go:30-55 | Whatever outcomes, durations and jitter: at most 12 calls, the last call's outcome, every earlier one throttled within budget and not cancelled, the last one not, and every wait at least its delay and under 12.8 s. |
| Retry.RetriedMeans | internal/fixture/retry.go:16-20 | An attempt is retried if and only if the reply was a 503, `SlowDown` or `ServiceUnavailable`, no more than 30 s had passed, and the wait was not left. |
| Retry.DelayBound | internal/fixture/retry.go:31-53 | Doubling stops at 6.4 s. |
| Retry.DelayTable | internal/fixture/retry.go:31-44 | The delays after 50 ms, in milliseconds: 100, 200, 400, 800, 1600, 3200, 6400. |
| Retry.TwelveHappens | internal/fixture/retry.go:30-55 | The bound of 12 is reached, whichever throttling reply the server gives. |
| Markers.LexMarkers | internal/harness/markers.go:83-111 | The lexer's loop computes the tokens of `Lex`. |
| Markers.TokensMean | internal/harness/markers.go:83-115 | A string lexes if and only if each character is a space, a parenthesis or part of a name; tokens are never empty and spell the string without its spaces. |
| Markers.MarkerParser.Or | internal/harness/markers.go:129-143 | From any position, the method answers and stops where the parsing function does. |
| Markers.MarkerParser.And | internal/harness/markers.go:145-159 | The same for the level of `and`. |
| Markers.MarkerParser.Not | internal/harness/markers.go:161-171 | The same for the level of `not`. |
| Markers.MarkerParser.Atom | internal/harness/markers.go:173-197 | The same for names and parentheses. |
| Markers.ParseMarkerExpr | internal/harness/markers.go:52-69 | Blank selects everything; otherwise the answer is the compiled tree or the first error. |
| Markers.OtherCharacters | internal/harness/markers.go:83-115 | A character that is no letter, digit, underscore, parenthesis or white space, anywhere, is an error. |
| Markers.WhyRefused | internal/harness/markers.go:129-197 | Which error a refused expression gets: for a bad character, for no token at all, for more after a whole expression, or for the token, or the end, that stands where an operand or a closing parenthesis has to. |
| Markers.SoundOr | internal/harness/markers.go:129-197 | What the parser accepts, the grammar derives, tree included. |
| Markers.CompleteOr | internal/harness/markers.go:129-197 | What the grammar derives, the parser finds, with the same tree. |
| Markers.CompileMeans | internal/harness/markers.go:19-25 | A non-blank expression compiles to a tree if and only if it lexes and all its tokens derive that tree from the grammar. |
| Markers.Unambiguous | internal/harness/markers.go:19-25 | The grammar gives tokens at most one tree. |
| Markers.CompilePrint | internal/harness/markers.go:52-69 | Printing any tree with only the parentheses precedence and left grouping need, then compiling it, gives the same tree. |
| Markers.Match | internal/harness/markers.go:71-81 | The method decides `Matches`. |
| Markers.SelectsBoth | internal/harness/markers.go:42-44 | For any two expressions that compile to trees, their conjunction as text compiles and selects exactly what both select. |
| Markers.SelectsEither | internal/harness/markers.go:46-48 | Their disjunction selects exactly what either selects. |
| Markers.SelectsOthers | internal/harness/markers.go:38-40 | The negation of one selects exactly what it does not. |
| Markers.SelectsNamed | internal/harness/markers.go:34-36 | A name that is not an operator selects exactly the tests that carry it. |
| Markers.SelectsAll | internal/harness/markers.go:52-55 | Nothing but white space selects every test. |
| Markers.OnlyNamesMatter | internal/harness/markers.go:71-81 | Only which of the names in the expression are among the markers matters, not their order or number. |
| Ini.ParseINI | internal/config/ini.go:25-56 | Fails exactly when some line is bad, naming the first such line; otherwise the map says for every section and key what the last assignment says. |
| Ini.ReadMeans | internal/config/ini.go:33-71 | What a line says, character by character: nothing if and only if it is blank or a comment; a header if and only if it is a name in brackets; an assignment if and only if it is a key in any case, `=` or `:`, and a value, white space anywhere around; an unclosed header if and only if it opens one and is none. |
| Ini.RemarksIgnored | internal/config/ini.go:33-35 | Any two files that are the same without blank lines and comments both parse or both fail, and answer every lookup alike. |
| Ini.ParseLines | internal/config/ini.go:30-52 | The loop over the lines, with the same outcome. |
| Ini.TakeLine | internal/config/ini.go:37-51 | One good line keeps section and map in step with the lines read. |
| Ini.LastInMeans | internal/config/ini.go:78-86 | The scan finds the assignment of the key under the section that has none after it. |
| Ini.LastInNone | internal/config/ini.go:78-86 | The scan finds nothing only if there is none. |
| Ini.GetMeans | internal/config/ini.go:78-86 | A lookup is the last assignment in the section, or else the last one in DEFAULT. |
| Ini.RoundTrip | internal/config/ini.go:25-86 | Parsing the text a well-formed document is written out to succeeds and keeps every lookup. |
| Ini.AnySpelling | internal/config/ini.go:25-86 | The same for a document written down in any way: either sign, keys in any case, white space around everything, blank lines and comments anywhere. |
| Registry.NewRegistry | internal/harness/registry.go:69-89 | Succeeds exactly on complete tests with distinct names, and then holds exactly those; otherwise it fails with the first flaw of the first flawed test. |
| Registry.FlawMeans | internal/harness/registry.go:69-89 | Which flaw a test has: no name, no body, an unknown module, or a name used before, the first that applies. |
| Registry.All | internal/harness/registry.go:95-102 | Every test once, ascending by name. |
| Registry.ListingUnique | internal/harness/registry.go:95-102 | There is one such list, so map order never shows. |
| Registry.Resolve | internal/harness/select.go:58-75 | The loop computes `ResolveAll`, which `ResolveAllMeans` reads off place by place. |
| Registry.ResolveOneMeans | internal/harness/select.go:58-75 | An ID resolves to a test if and only if the test is registered and the ID is its node ID, or that ID without the prefix unless the name starts with the prefix itself. |
| Registry.ResolveFaults | internal/harness/select.go:58-75 | Why an ID does not resolve: no separator, no such test, or a test of another module. |
| Registry.ResolveAllMeans | internal/harness/select.go:58-75 | Resolving gives each ID's test in its own place, duplicates kept, or else the first fault there is. |
| Registry.ParseAllowList | internal/harness/select.go:81-109 | The entries are the lines without comments and space, blank ones dropped; a list with none is an error. |
| Registry.ClipMeans | internal/harness/select.go:94-109 | A line lists what stands before its first comment sign, white space around it left out; `ClipSplits` gives every line that form. |
| Registry.ListedMeans | internal/harness/select.go:94-109 | The entries are what the lines list, in order, and exactly the lines that list nothing are left out. |
| Registry.Select | internal/harness/select.go:30-51 | What is selected is what the allow-list names, or the whole listing, filtered by the other criteria; an allow-list entry that does not resolve is the error. |
| Registry.SelectedWhole | internal/harness/select.go:30-51 | Without an allow-list: exactly the registered tests that meet the other criteria, once each, ascending by name. |
| Registry.FilteredMeans | internal/harness/select.go:41-50 | Filtering keeps exactly the wanted places, in their order, duplicates kept. |
| Registry.ListingResolves | internal/cmd/list.go:27-40 | Printing registered tests as node IDs and reading them back gives the same tests in the same order if and only if no name holds a comment sign, a line end or trailing space. |
| Registry.ListAndSelect | internal/harness/select.go:30-109 | The whole circle, over the printed text: reading it back as the allow-list and selecting with any other criteria gives exactly the tests that meet them, for all criteria, if and only if no name holds a comment sign, a line end or trailing space. Printing no test gives no list. |
| SigV2.LowerFinds | internal/client/sigv2.go:110-111 | A canonical key is found again under its lower-case name. |
| SigV2.CanonicalAmzHeaders | internal/client/sigv2.go:98-119 | The block is one line per sorted name with its trimmed values, joined. |
| SigV2.ListedOnce | internal/client/sigv2.go:101-107 | A name is written only once if and only if no two x-amz-* keys differ only in case. |
| SigV2.SortedNames | internal/client/sigv2.go:101-108 | For canonical keys: each x-amz-* header once, strictly ascending by lower-case name. |
| SigV2.OrderFree | internal/client/sigv2.go:101-108 | For any keys, the order the map is gone through in never shows. |
| SigV2.StringToSign | internal/client/sigv2.go:74-96 | The builder writes method, standard headers, x-amz-* block and path, as `Signed`. |
| SigV2.SignedLayout | internal/client/sigv2.go:74-96 | The string line by line: the method in capitals, Content-Md5, Content-Type and Date in this order, empty if missing, one line for each name, and the path. |
| SigV2.LineMeans | internal/client/sigv2.go:109-117 | The line of a header is its name in small letters, a colon, and its values, each trimmed, with commas between them. |
| Sorting.SortOrders | internal/client/sigv2.go:108 | Sorting gives the same strings, as often as they come, none before an earlier one. |
| SigV2.SignedCanonical | internal/client/sigv2.go:74-119 | Any two header maps that agree on the x-amz-* and the three standard headers sign the same string, in whatever order they are gone through. |
| BucketNames.RandomString | internal/config/config.go:235-245 | Of the length asked for, all small letters and digits. |
| BucketNames.ReplaceBetween | internal/config/config.go:223-233 | A placeholder anywhere gives way to the filler, and the text before and after it is filled in as if on its own. |
| BucketNames.ReplaceLength | internal/config/config.go:223-233 | Replacing k placeholders gives the fixed length and k times the filler's. |
| BucketNames.BucketPrefix | internal/config/config.go:217-233 | Fails if and only if the fixed part exceeds 30; otherwise the length is fixed + k * (30 - fixed), and it fits 30 if and only if there is at most one placeholder or nothing to fill. |
| BucketNames.TwoPlaceholders | internal/config/config.go:223-233 | A concrete template whose prefix has 60 characters, whatever its filler. |
| BucketNames.TwoCounted | internal/config/config.go:223-233 | It has two placeholders and no fixed text. |
| BucketNames.Slug | internal/fixture/fixture.go:300-325 | The loop computes the words of the name, lower-cased, joined by dashes, cut at 16 and trimmed; the result is a slug. |
| BucketNames.CutWritten | internal/fixture/fixture.go:305-325 | Writing character by character, cut and trimmed, is joining the words, cut and trimmed. |
| BucketNames.SlugIsSlug | internal/fixture/fixture.go:300-325 | At most 16 characters of [a-z0-9-], no dash first, last or doubled. |
| BucketNames.SlugFixed | internal/fixture/fixture.go:300-325 | A slug is its own slug. |
| BucketNames.SlugAlike | internal/fixture/fixture.go:310-323 | Names that differ only in case, or in which characters other than letters and digits stand in the same places, have the same slug. |
| BucketNames.SlugDashes | internal/fixture/fixture.go:317-323 | A row of such characters counts as one, and one before the first letter or digit as none. |
| BucketNames.SlugNeat | internal/fixture/fixture.go:305-325 | A name that is neat already, however long, is cut at 16 characters and trimmed. |
| BucketNames.Env.constructor | internal/fixture/fixture.go:40-47 | The prefix is the configured one, the slug of the test and a token of four letters or digits. |
| BucketNames.Env.NewBucketName | internal/fixture/fixture.go:95-99 | The next number under the prefix, never handed out before. |
| BucketNames.NamesDiffer | internal/fixture/fixture.go:95-99 | Different counters give different names. |
| BucketNames.DecimalMeans | internal/fixture/fixture.go:95-99 | The counter is written in decimal digits that read back as its value, without a leading zero. |
| BucketNames.NamesFit | internal/fixture/fixture.go:300-303 | With a prefix of at most 30, a name fits 63 if and only if the counter has no more digits than are left, and always below 10^11. |

## Left out

- The tests themselves, the S3 clients, TLS, raw sockets, the command line, colour, JSON and JUnit output, signal handling, goroutine dumps and log text.
- `Config.build`, `boolean`, known failures and the summary: a reading of the branches settles them.
- Scheduler steps take no time of their own; only bodies, cleanups, waits and deadlines do. Times are whole nanoseconds.
- TestHandle.RunOneTest: does not run the rest of an abandoned body or cleanup beside what follows. The calls it makes before the worker moves on are modelled; later ones are in `InTheEnd`, without their interleaving and without what they log by then.
- TestHandle.EveryCleanupRuns: a body is one list of calls. A goroutine it starts and leaves behind, which may call `Cleanup` after the snapshot of a test that was not abandoned, is not modelled, here or in `AllRunInTheEnd`.
- TestHandle.RunCleanups: the snapshot is taken as one step under the handle's lock; the order in which a still running body and the cleanups append to the log is not modelled.
- `Run` reads the first breakdown without the mutex held by its writers; the model reads it together with the collected results.
- `Observe` is taken to return.
- Cleaner.PassMeans: of the page in which a call failed it says only that nothing that would still refuse is gone. A failed call has no effect on the server. No other writer is active, and the server's clock is the caller's.
- Cleaner.Teardown: deleting the bucket once it is empty, and a bucket that is gone already, are not modelled.
- Retry.RetryThrottled: the wait that a cancelled context cuts short counts as a wait, whatever its real length.
- Scheduler.Record.Finish: one worker by itself; the interleavings, with others waiting for the mutex, are those of `Protocol`.
- Text is ASCII: Unicode white space, case folding and identifier characters are not modelled. Limits on line length, and read errors, are not modelled.
- The regular expression of a selection is any predicate on names; random draws are any values in range.
- Marker counts and lookups by name in the registry, which would only add easy members.
- HMAC-SHA1, base64 and setting the Authorization header; sub-resource query arguments, which the source leaves out too; percent-encoding of the path.
- Names from two environments differ only if their tokens do, which is left to chance.
