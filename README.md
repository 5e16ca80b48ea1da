# pm2-watchdog: the per-process watchdog, modelled in Dafny

pm2-watchdog keeps an eye on processes run by the pm2 process manager. For each
supervised process a `ProcessWatchdog` object (`process-watchdog.js`) runs a loop:

1. ask pm2 to describe the process;
2. arm a timer for `max(minUptime − uptime, checkingInterval, 1000)` ms;
3. when it fires, run the health-check probe on the bytes each log file (stdout
   and stderr) gained since the previous check, passed as `path:start:end`;
4. on a pass reset the failure count, on a failure raise it, and once it
   reaches `failsToRestart` ask pm2 to restart the process;
5. move both log offsets to the sizes just sampled and go round again.

`start()` and `stop()` switch the loop on and off.

The model replaces every call to the outside world with a value. A describe
reply, the current log sizes, the probe's pass/fail, a restart reply and the
wall-clock time are event parameters. The requests the watchdog makes are
returned as `Effects`: describe, arm a check timer, arm a describe retry, run the
probe, restart.

- `wrappers.dfy`: `Option` and `Result`.
- `log_windows.dfy` (module `LogWindows`): the byte windows a check examines.
  It proves that consecutive windows tile a log: no gap, no overlap, and the
  total length equals the distance the offset moved.
- `descriptor.dfy` (module `LogDescriptors`): the `path:start:end` argument and
  the decimal rendering of offsets. It also has the example probe's reading of
  that argument (`split(':')`, `parseInt`), a round trip for paths without
  `:`, and a corrected right-to-left reader that round-trips every path.
- `watchdog_spec.dfy` (module `WatchdogSpec`): the watchdog as a state machine
  over values. There is one transition function per event, plus `Step` and
  `Run`, which replays a sequence of events.
- `watchdog_laws.dfy` (module `WatchdogLaws`): properties of whole runs.
  Lifecycle idempotence, a stopped watchdog staying inert, offsets tiling the
  logs, and the failure-count and restart policy.
- `watchdog_scenarios.dfy` (module `WatchdogScenarios`): concrete runs. Three
  failures with a threshold of 3; fail, pass, fail, fail, fail; a describe
  failure followed by a retry; the 8000 ms delay example.
- `process_watchdog.dfy` (module `Watchdog`): class `ProcessWatchdog` with the
  source's mutable fields (`isRunning`, `failsCountInRow`, the timer handle,
  `outLog`, `errLog`) and one method per callback. Each method changes the
  fields in place and is proved to match the corresponding transition function.
  Ghost fields record every window shown to the probe and the number of restarts
  requested. The object invariant `Valid()` says those windows tile each log,
  starting from its size at construction.

## Model

| member | source | states |
|---|---|---|
| WatchdogSpec.ProcessDetails | process-watchdog.js:86-98 | a describe succeeds exactly when pm2 reports no error and exactly one record, and then yields that record; a reply with any other number of records is an UnexpectedCount error carrying that number |
| WatchdogSpec.NextCheckDelay | process-watchdog.js:117-120 | the delay is at least 1000 ms, at least the checking interval and at least minUptime − (now − createdAt) (minUptime 1000 when absent), and equals one of the three: their maximum |
| WatchdogSpec.OnStart | process-watchdog.js:49-61 | start on a running watchdog changes nothing and asks for nothing; on a stopped one it sets running, resets the failure count to 0, keeps the timer and both log offsets, and issues a describe |
| WatchdogSpec.OnStop | process-watchdog.js:66-81 | stop on a stopped watchdog changes nothing; on a running one it clears running and the pending timer handle and nothing else |
| WatchdogSpec.OnDescribed | process-watchdog.js:110-186 | a check timer is armed exactly when the describe yields one record and the watchdog runs, with the NextCheckDelay of that record; a failed describe leaves count, offsets and timer alone and asks for a retry after 5000 ms exactly when no check timer is pending |
| WatchdogSpec.OnRetryElapsed | process-watchdog.js:182-184 | the retry timer changes no state and issues a describe exactly when the watchdog runs |
| WatchdogSpec.OnCheckElapsed | process-watchdog.js:124-175 | the handle is always cleared and a stopped watchdog does nothing else; a running one probes [old offset, new size) of both logs, sets the count to 0 on a pass or to count + 1 on a failure, asks for a restart exactly when it failed and count + 1 ≥ failsToRestart, moves both offsets to the sampled sizes whatever the outcome, and issues the next describe |
| WatchdogSpec.OnRestarted | process-watchdog.js:158-167 | a successful restart resets the count to 0 whether or not the watchdog runs; a failed one changes nothing |
| WatchdogSpec.ProbeArgv | process-watchdog.js:138 | the probe is run with three arguments: the probe script, then one non-empty descriptor per stream |
| WatchdogSpec.ProbeArgvReadsBack | process-watchdog.js:138 | from the probe's arguments, a reader splitting at the last two ':' recovers the stdout and stderr windows for any paths, and the example probe's reader recovers each window whose path holds no ':' |
| WatchdogSpec.Step | process-watchdog.js:133-173 | log paths never change; offsets move only through a probed window that runs from the old offset to the new one; a stopped watchdog never describes, arms a check, probes or restarts unless started; if no stopped watchdog held a timer before the event, none does after it |
| WatchdogLaws.StartIsIdempotent | process-watchdog.js:50-53 | a second start() changes nothing and asks for nothing |
| WatchdogLaws.StopIsIdempotent | process-watchdog.js:67-70 | a second stop() changes nothing and asks for nothing |
| WatchdogLaws.CheckAfterStopIsInert | process-watchdog.js:124-129 | a check timer that fires after stop() leaves the state as it is and asks for nothing |
| WatchdogLaws.StoppedRunIsInert | process-watchdog.js:105-129 | from a stopped watchdog, any events without start() never describe, arm a check, probe or restart, and leave the running flag, timer and offsets unchanged (only the count can change, by a late restart reply) |
| WatchdogLaws.RunTilesLog | process-watchdog.js:133-173 | over any run, the windows given to the probe for a stream start at the offset held before, follow one another with no gap or overlap, stay in that stream's file, and end at the offset held afterwards |
| WatchdogLaws.RunSpansOffsetMove | process-watchdog.js:169-173 | over any run, the probe is shown exactly as many bytes of a stream as that stream's offset moved |
| WatchdogLaws.RunKeepsConsistent | process-watchdog.js:74-80 | from a state where a stopped watchdog holds no timer, every run keeps it so |
| WatchdogLaws.CounterResetsOnlyBy | process-watchdog.js:58-165 | a positive count drops to 0 only through start() of a stopped watchdog, a passing check of a running one, or a successful restart |
| WatchdogLaws.FailedRestartKeepsRestarting | process-watchdog.js:148-166 | after a check that asked for a restart and a restart that failed, the count is still at or above failsToRestart and the next failing check asks for a restart again |
| WatchdogLaws.FailingRunRestarts | process-watchdog.js:148-152 | while checks and restarts keep failing, a running watchdog's count grows by exactly one per check and every check from the one reaching the threshold on asks for a restart: max(0, min(n, count + n − failsToRestart + 1)) restarts for n checks |
| WatchdogLaws.PassForgetsEarlierFailures | process-watchdog.js:140-152 | after a passing check the restarts requested by a following failing run depend only on that run's length, and the count equals that length |
| WatchdogLaws.FreshFailuresRestart | process-watchdog.js:148-152 | from count 0, n failing checks ask for no restart when n < failsToRestart and for n − failsToRestart + 1 otherwise |
| WatchdogScenarios.ThreeFailuresRestartOnce | process-watchdog.js:148-166 | with threshold 3, three failing checks ask for exactly one restart, on the third, and a successful restart brings the count back to 0 |
| WatchdogScenarios.PassResetsFailureRun | process-watchdog.js:140-152 | with threshold 3, fail, pass, fail, fail, fail asks for exactly one restart and ends with count 3 |
| WatchdogScenarios.DescribeFailureRetries | process-watchdog.js:178-186 | in a running watchdog with count 2 and offsets 40 and 7, a failed describe arms a 5000 ms retry and no check; the retry describes again and the next reply arms a 1000 ms check; count and offsets are kept throughout |
| WatchdogScenarios.DelayWithinMinimumUptime | process-watchdog.js:118-120 | minUptime 10000 ms, uptime 2000 ms, interval 500 ms give a delay of 8000 ms |
| LogWindows.TiledSpan | process-watchdog.js:169-173 | windows that tile [from, to) span exactly to − from bytes in total |
| LogWindows.TiledInOrder | process-watchdog.js:133-138 | when no window shrinks, tiled windows lie within [from, to], in file order, and are pairwise disjoint |
| LogDescriptors.Decimal | process-watchdog.js:138 | an offset prints as at least one decimal digit with no leading zero |
| LogDescriptors.Descriptor | process-watchdog.js:138 | the argument for a window starts with the log path followed by ':', is at least four characters longer than the path, and holds only ':' and decimal digits after the path (what it reads back to: DescriptorRoundTrip, DescriptorRoundTripFromRight) |
| LogDescriptors.DecimalRoundTrip | process-watchdog.js:138 | reading back the decimal rendering of an offset gives the offset |
| LogDescriptors.ParseInt | examples/check.js:4-5 | after a `0x`/`0X` prefix parseInt is a number exactly when a hexadecimal digit follows, and is the value of the hexadecimal rest when it is all hexadecimal digits; otherwise it is a number exactly when the field starts with a decimal digit, and is the field's value when it is all digits |
| LogDescriptors.ParseIntExamples | examples/check.js:4-5 | `"0x1f"` reads as 31, `"0X"` as NaN, `"0"` as 0 and `"12ab"` as 12 |
| LogDescriptors.Split | examples/check.js:4-5 | split(':') gives at least one piece, no piece contains ':', and joining the pieces with ':' gives back the string |
| LogDescriptors.ParseDescriptor | examples/check.js:4-5 | a path read by the example probe never contains ':' |
| LogDescriptors.DescriptorRoundTrip | process-watchdog.js:138 | for a path without ':', the probe reads back exactly the path, start and end the watchdog wrote |
| LogDescriptors.ColonPathNotRecovered | examples/check.js:4-5 | a path containing ':' is never read back as written |
| LogDescriptors.DescriptorRoundTripFromRight | examples/check.js:4-5 | reading from the right recovers every window, whatever its path contains |
| Watchdog.ProcessWatchdog.constructor | process-watchdog.js:16-44 | a new watchdog is stopped, with count 0, no timer, and offsets at the log sizes given (not 0); the object invariant holds with no windows checked |
| Watchdog.ProcessWatchdog.Start | process-watchdog.js:49-61 | fields become OnStart of the old fields, the requests returned are OnStart's, and the invariant and history are kept |
| Watchdog.ProcessWatchdog.Stop | process-watchdog.js:66-81 | fields become OnStop of the old fields; invariant and history kept |
| Watchdog.ProcessWatchdog.Described | process-watchdog.js:110-186 | fields and requests are those of OnDescribed (a check timer with the NextCheckDelay delay, or a 5000 ms describe retry when the describe failed and no check is pending); invariant and history kept |
| Watchdog.ProcessWatchdog.RetryElapsed | process-watchdog.js:182-184 | changes nothing and returns OnRetryElapsed's requests |
| Watchdog.ProcessWatchdog.CheckElapsed | process-watchdog.js:124-175 | fields and requests are those of OnCheckElapsed; the probe arguments are the script and the two `path:start:end` descriptors of the probed windows; those windows are appended to the history, so the invariant (windows tile each log from its initial size) is kept; the restart tally grows exactly when a restart is asked for |
| Watchdog.ProcessWatchdog.Restarted | process-watchdog.js:158-167 | fields become OnRestarted of the old fields; invariant and history kept |

## Guarantees the code does not give

The model follows the code, so it does not claim any of these.

- The failure count is not reset after every restart attempt. It is reset only when the restart succeeds (process-watchdog.js:160-165), so after a failed restart the next failing check asks for a restart again.
- Not every continuation of an in-flight check is gated on the running flag. The restart reply's reset (process-watchdog.js:165) runs even after stop().
- More than one timer can be pending. The handle is overwritten without clearing the old timer (process-watchdog.js:124), and the describe retry (process-watchdog.js:182-184) is a second timer that is never stored.
- Offsets can decrease. The new offset is whatever size `fs.statSync` reports (process-watchdog.js:133-134), so the model allows a smaller size and the tiling laws hold either way; only `LogWindows.TiledInOrder` assumes growth.

## Left out

- pm2's describe and restart, `fs.statSync`, `execFileSync`, `setTimeout`/`clearTimeout` and `new Date()` are calls to the outside world. Their results are parameters; the requests the watchdog makes are returned as `Effects`.
- All `console.*` logging, and the use of `name` and `pm_id` only in log messages and pm2 calls.
- The timer handle is modelled by whether a check is pending and with which delay; the identity of a handle is not modelled.
- Interleavings the source does not guard are allowed but not ruled out. Several describes can be in flight after a stop()/start() during a describe, the 5000 ms retry timer is not stored in the handle, and the restart reply can arrive after the next loop has begun. The model therefore claims no "one timer at a time" invariant. The restart reply is an ungated event of its own.
- The guard at process-watchdog.js:144-146 is left out: `execFileSync` blocks, so the running flag checked at line 127 cannot change before it.
- A failed restart rejects the promise returned from the timer callback (line 162), which nothing handles. The model keeps only its effect on state: the count is unchanged.
- JavaScript numbers are modelled as integers. A missing `checkingInterval` makes the delay NaN in the source, and `failsToRestart` is compared as written. Offsets are natural numbers with no monotonicity requirement, since a shrunk or rotated log gives `new < old`.
- LogDescriptors.Decimal: the decimal rendering does not model the exponent form JavaScript uses for numbers of 10^21 and above.
- LogDescriptors.ParseInt: does not model parseInt's leading whitespace or sign, which a rendered offset never has.
- A failed size sample is not modelled. If `fs.statSync` throws in the check callback (process-watchdog.js:133-134, e.g. a deleted log file), the exception escapes the callback: the handle is already cleared, no offset moves, no probe or describe follows, and that watchdog's loop ends. The same call at process-watchdog.js:37 and :42 makes the constructor throw. The model's sizes are always given.
- The rest of examples/check.js (opening and reading the file windows, always exiting 0) is file I/O of an example probe and is not modelled.

## Findings

| source | as written | input that shows it | evidently intended | confidence | as-written member | corrected member |
|---|---|---|---|---|---|---|
| examples/check.js:4-5 | the probe splits its argument at every `:` and takes the first piece as the path | a log at `C:\logs\app-out.log` (the usual form on Windows): the path piece is `C`, the start piece is `\logs\app-out.log` and parseInt gives NaN | read the two offsets after the last two `:` and keep everything before them as the path | high that it misreads, not executed | LogDescriptors.ColonPathNotRecovered | LogDescriptors.DescriptorRoundTripFromRight |
