/** The watchdog of one supervised process as a state machine over values:
    one transition function per event the process manager, the timers and the
    probe deliver, and `Run`, which replays a sequence of such events. The
    class in process_watchdog.dfy is proved against these functions. */
module WatchdogSpec {
  import opened Wrappers
  import opened LogWindows
  import opened LogDescriptors

  /** Minimum uptime assumed when the process manager reports none (ms). */
  const DEFAULT_MIN_UPTIME: int := 1000
  /** Absolute floor on the wait before a check (ms). */
  const MIN_CHECK_DELAY: int := 1000
  /** Wait before asking the process manager again after a failed describe (ms). */
  const DESCRIBE_RETRY_DELAY: int := 5000

  /** The configuration of one watchdog: the probe script, the least wait
      between checks (ms) and the number of failures in a row that asks for a
      restart. */
  datatype Options = Options(processScript: string, checkingInterval: int, failsToRestart: int)

  /** The part of the process manager's description of a process the loop reads. */
  datatype ProcessDescription = ProcessDescription(createdAt: int, minUptime: Option<int>)

  /** What the describe callback receives: whether it reported an error, and
      the records that matched the process id. */
  datatype DescribeReply = DescribeReply(err: bool, records: seq<ProcessDescription>)

  datatype DescribeError = ManagerError | UnexpectedCount(count: nat)

  /** The answer of a describe: the one record, or an error when the manager
      failed or returned any other number of records. */
  function ProcessDetails(reply: DescribeReply): (r: Result<ProcessDescription, DescribeError>)
    ensures r.Success? <==> !reply.err && |reply.records| == 1
    ensures r.Success? ==> r.value == reply.records[0]
    ensures r.Failure? && !reply.err ==> r.error == UnexpectedCount(|reply.records|)
  {
    if reply.err then Failure(ManagerError)
    else if |reply.records| != 1 then Failure(UnexpectedCount(|reply.records|))
    else Success(reply.records[0])
  }

  function Max(a: int, b: int): int {
    if a >= b then a else b
  }

  function MinUptimeOrDefault(minUptime: Option<int>): int {
    minUptime.GetOr(DEFAULT_MIN_UPTIME)
  }

  /** Milliseconds until the next check: the least value that lets the process
      reach its own minimum uptime, is no shorter than the checking interval and
      no shorter than one second. */
  function NextCheckDelay(now: int, createdAt: int, minUptime: Option<int>, checkingInterval: int): (delay: int)
    ensures delay >= MIN_CHECK_DELAY && delay >= checkingInterval
    ensures delay >= MinUptimeOrDefault(minUptime) - (now - createdAt)
    ensures delay == MIN_CHECK_DELAY || delay == checkingInterval
         || delay == MinUptimeOrDefault(minUptime) - (now - createdAt)
  {
    var uptime := now - createdAt;
    Max(Max(MinUptimeOrDefault(minUptime) - uptime, checkingInterval), MIN_CHECK_DELAY)
  }

  /** How far the watchdog has read one log file, and which file. */
  datatype LogCursor = LogCursor(path: string, ind: nat)

  /** The watchdog's own state. `pendingCheck` is the timer handle: Some(d)
      while a check armed with delay d is pending, None once it fired or was
      cancelled. */
  datatype State = State(
    isRunning: bool,
    failsCountInRow: nat,
    pendingCheck: Option<int>,
    outLog: LogCursor,
    errLog: LogCursor)

  /** A fresh watchdog: stopped, no failures, no timer, and both offsets at the
      log sizes found at construction, so older log content is never examined. */
  function Initial(outLog: LogCursor, errLog: LogCursor): State {
    State(false, 0, None, outLog, errLog)
  }

  /** A stopped watchdog holds no timer. */
  predicate Consistent(s: State) {
    !s.isRunning ==> s.pendingCheck.None?
  }

  /** One probe invocation: the stdout window and the stderr window. */
  datatype ProbeCall = ProbeCall(out: Window, err: Window)

  /** The arguments handed to `node`: the probe script and one descriptor per
      stream, from which a probe reading from the right recovers both windows
      (and the example probe too, when no path contains ':'). */
  function ProbeArgv(processScript: string, p: ProbeCall): (argv: seq<string>)
    ensures |argv| == 3 && argv[0] == processScript
    ensures forall k :: 1 <= k < 3 ==> |argv[k]| > 0
  {
    [processScript, Descriptor(p.out), Descriptor(p.err)]
  }

  /** The probe reads its two windows back from its arguments: always when it
      splits each at its last two colons, and with a first-colon split as long
      as the log path itself holds no colon. */
  lemma {:induction false} ProbeArgvReadsBack(processScript: string, p: ProbeCall)
    ensures var argv := ProbeArgv(processScript, p);
      ParseDescriptorFromRight(argv[1]) == Some(p.out)
      && ParseDescriptorFromRight(argv[2]) == Some(p.err)
      && (':' !in p.out.path ==> ParseDescriptor(argv[1]) == Some(p.out))
      && (':' !in p.err.path ==> ParseDescriptor(argv[2]) == Some(p.err))
  {
    DescriptorRoundTripFromRight(p.out);
    DescriptorRoundTripFromRight(p.err);
    if ':' !in p.out.path {
      DescriptorRoundTrip(p.out);
    }
    if ':' !in p.err.path {
      DescriptorRoundTrip(p.err);
    }
  }

  /** What one event asks of the outside world: a describe of the process, a
      check timer armed with a delay, a describe-retry timer armed with a
      delay, a probe run, a restart. */
  datatype Effects = Effects(
    describe: bool,
    scheduleCheck: Option<int>,
    scheduleRetry: Option<int>,
    probe: Option<ProbeCall>,
    restart: bool)

  const QUIET := Effects(false, None, None, None, false)

  datatype Transition = Transition(next: State, effects: Effects)

  /** start(): a no-op on a running watchdog; otherwise it runs again with the
      failure count reset, keeps its log offsets and issues a describe. */
  function OnStart(s: State): (t: Transition)
    ensures s.isRunning ==> t == Transition(s, QUIET)
    ensures !s.isRunning ==>
      && t.next == s.(isRunning := true, failsCountInRow := 0)
      && t.effects == QUIET.(describe := true)
  {
    if s.isRunning then Transition(s, QUIET)
    else Transition(s.(isRunning := true, failsCountInRow := 0), QUIET.(describe := true))
  }

  /** stop(): a no-op on a stopped watchdog; otherwise it stops and drops any
      pending check timer, touching nothing else. */
  function OnStop(s: State): (t: Transition)
    ensures !s.isRunning ==> t == Transition(s, QUIET)
    ensures s.isRunning ==> t.next == s.(isRunning := false, pendingCheck := None)
    ensures t.effects == QUIET
  {
    if !s.isRunning then Transition(s, QUIET)
    else
      var s' := s.(isRunning := false);
      if s'.pendingCheck.Some? then Transition(s'.(pendingCheck := None), QUIET)
      else Transition(s', QUIET)
  }

  /** A describe reply. With one record and a running watchdog, a check timer
      is armed for NextCheckDelay; with one record and a stopped watchdog,
      nothing happens. On an error the counter and offsets stay, and a retry is
      scheduled only when no check timer is pending. */
  function OnDescribed(o: Options, s: State, reply: DescribeReply, now: int): (t: Transition)
    ensures t.next.isRunning == s.isRunning && t.next.failsCountInRow == s.failsCountInRow
    ensures t.next.outLog == s.outLog && t.next.errLog == s.errLog
    ensures t.effects.scheduleCheck.Some? <==> s.isRunning && ProcessDetails(reply).Success?
    ensures t.effects.scheduleCheck.Some? ==>
      var d := ProcessDetails(reply).value;
      t.effects.scheduleCheck.value == NextCheckDelay(now, d.createdAt, d.minUptime, o.checkingInterval)
      && t.next.pendingCheck == t.effects.scheduleCheck
    ensures t.effects.scheduleCheck.None? ==> t.next.pendingCheck == s.pendingCheck
    ensures t.effects.scheduleRetry.Some? <==> ProcessDetails(reply).Failure? && s.pendingCheck.None?
    ensures t.effects.scheduleRetry.Some? ==> t.effects.scheduleRetry.value == DESCRIBE_RETRY_DELAY
    ensures !t.effects.describe && t.effects.probe.None? && !t.effects.restart
  {
    match ProcessDetails(reply)
    case Success(d) =>
      if !s.isRunning then Transition(s, QUIET)
      else
        var delay := NextCheckDelay(now, d.createdAt, d.minUptime, o.checkingInterval);
        Transition(s.(pendingCheck := Some(delay)), QUIET.(scheduleCheck := Some(delay)))
    case Failure(_) =>
      Transition(s, QUIET.(scheduleRetry := if s.pendingCheck.None? then Some(DESCRIBE_RETRY_DELAY) else None))
  }

  /** The describe-retry timer fires: the loop asks for a describe again, but
      only while the watchdog runs. */
  function OnRetryElapsed(s: State): (t: Transition)
    ensures t.next == s
    ensures t.effects == QUIET.(describe := s.isRunning)
  {
    Transition(s, QUIET.(describe := s.isRunning))
  }

  /** The check timer fires, the logs having grown to `newOutInd` and
      `newErrInd` bytes and the probe reporting `probeOk`. The handle is always
      cleared; a stopped watchdog does nothing else. A running one probes the
      windows from the recorded offsets to the new sizes, resets the count on a
      pass, adds one on a failure, asks for a restart exactly when the new count
      reaches `failsToRestart`, moves both offsets to the new sizes whatever the
      outcome, and describes the process again to plan the next check. */
  function OnCheckElapsed(o: Options, s: State, newOutInd: nat, newErrInd: nat, probeOk: bool): (t: Transition)
    ensures t.next.pendingCheck.None? && t.next.isRunning == s.isRunning
    ensures !s.isRunning ==> t == Transition(s.(pendingCheck := None), QUIET)
    ensures s.isRunning ==>
      && t.effects.probe == Some(ProbeCall(
           Window(s.outLog.path, s.outLog.ind, newOutInd),
           Window(s.errLog.path, s.errLog.ind, newErrInd)))
      && t.next.outLog == s.outLog.(ind := newOutInd)
      && t.next.errLog == s.errLog.(ind := newErrInd)
      && t.next.failsCountInRow == (if probeOk then 0 else s.failsCountInRow + 1)
      && t.effects.describe
    ensures t.effects.restart <==> s.isRunning && !probeOk && s.failsCountInRow + 1 >= o.failsToRestart
    ensures t.effects.scheduleCheck.None? && t.effects.scheduleRetry.None?
  {
    var s1 := s.(pendingCheck := None);
    if !s.isRunning then Transition(s1, QUIET)
    else
      var probe := ProbeCall(
        Window(s.outLog.path, s.outLog.ind, newOutInd),
        Window(s.errLog.path, s.errLog.ind, newErrInd));
      var fails := if probeOk then 0 else s.failsCountInRow + 1;
      var restart := !probeOk && !(fails < o.failsToRestart);
      Transition(
        s1.(failsCountInRow := fails, outLog := s.outLog.(ind := newOutInd), errLog := s.errLog.(ind := newErrInd)),
        QUIET.(describe := true, probe := Some(probe), restart := restart))
  }

  /** The restart reply. A successful restart resets the count, whether or not
      the watchdog still runs; a failed one changes nothing, so the count stays
      at or above the threshold. */
  function OnRestarted(s: State, ok: bool): (t: Transition)
    ensures ok ==> t.next == s.(failsCountInRow := 0)
    ensures !ok ==> t.next == s
    ensures t.effects == QUIET
  {
    if ok then Transition(s.(failsCountInRow := 0), QUIET) else Transition(s, QUIET)
  }

  /** Everything that can happen to a watchdog. */
  datatype Event =
    | Started
    | Stopped
    | Described(reply: DescribeReply, now: int)
    | RetryElapsed
    | CheckElapsed(newOutInd: nat, newErrInd: nat, probeOk: bool)
    | Restarted(ok: bool)

  datatype Stream = Out | Err

  function Log(s: State, st: Stream): LogCursor {
    match st
    case Out => s.outLog
    case Err => s.errLog
  }

  function WindowOf(p: ProbeCall, st: Stream): Window {
    match st
    case Out => p.out
    case Err => p.err
  }

  /** One event. The log offsets move only through a probed window, which runs
      from the old offset to the new one in the same file; a stopped watchdog
      never probes, never restarts and never arms a check. */
  function Step(o: Options, s: State, e: Event): (t: Transition)
    ensures forall st :: Log(t.next, st).path == Log(s, st).path
    ensures t.effects.probe.None? ==> forall st :: Log(t.next, st).ind == Log(s, st).ind
    ensures t.effects.probe.Some? ==> forall st ::
      WindowOf(t.effects.probe.value, st) == Window(Log(s, st).path, Log(s, st).ind, Log(t.next, st).ind)
    ensures !s.isRunning && !e.Started? ==>
      !t.effects.describe && t.effects.scheduleCheck.None? && t.effects.probe.None? && !t.effects.restart
    ensures !e.Started? ==> t.next.isRunning == (s.isRunning && !e.Stopped?)
    ensures Consistent(s) ==> Consistent(t.next)
  {
    match e
    case Started => OnStart(s)
    case Stopped => OnStop(s)
    case Described(reply, now) => OnDescribed(o, s, reply, now)
    case RetryElapsed => OnRetryElapsed(s)
    case CheckElapsed(newOutInd, newErrInd, probeOk) => OnCheckElapsed(o, s, newOutInd, newErrInd, probeOk)
    case Restarted(ok) => OnRestarted(s, ok)
  }

  /** The final state after a sequence of events, and the effects of each event. */
  datatype Trace = Trace(final: State, effects: seq<Effects>)

  function Run(o: Options, s: State, es: seq<Event>): (r: Trace)
    ensures |r.effects| == |es|
    decreases |es|
  {
    if es == [] then Trace(s, [])
    else
      var t := Step(o, s, es[0]);
      var r := Run(o, t.next, es[1..]);
      Trace(r.final, [t.effects] + r.effects)
  }

  /** The windows of stream `st` that the probe received, in order. */
  function Probed(effects: seq<Effects>, st: Stream): seq<Window>
    decreases |effects|
  {
    if effects == [] then []
    else
      (if effects[0].probe.Some? then [WindowOf(effects[0].probe.value, st)] else [])
      + Probed(effects[1..], st)
  }

  /** The number of restart requests among the effects. */
  function RestartCount(effects: seq<Effects>): nat
    decreases |effects|
  {
    if effects == [] then 0
    else (if effects[0].restart then 1 else 0) + RestartCount(effects[1..])
  }
}
