/** The watchdog object of one supervised process. Its methods are the
    callbacks of the running program, one per event: the process manager's
    describe and restart replies, the firing of the check and retry timers,
    and the start() and stop() calls. Each changes the object's fields in
    place and is proved to move it exactly as the matching transition of
    WatchdogSpec does, while ghost fields keep the history of the windows the
    probe was shown and of the restarts asked for. */
module Watchdog {
  import opened Wrappers
  import opened LogWindows
  import opened LogDescriptors
  import opened WatchdogSpec

  /** The process manager's entry for the supervised process at construction. */
  datatype ProcessEnv = ProcessEnv(pmId: int, name: string, outLogPath: string, errLogPath: string)

  class ProcessWatchdog {
    const pmId: int
    const name: string
    const options: Options

    var isRunning: bool
    /** The pending check timer: Some(delay) while one is armed. */
    var pendingCheck: Option<int>
    var failsCountInRow: nat
    var outLog: LogCursor
    var errLog: LogCursor

    /** The log sizes found at construction. */
    ghost const initialOutInd: nat
    ghost const initialErrInd: nat
    /** Every window the probe was shown, per stream, oldest first. */
    ghost var outWindows: seq<Window>
    ghost var errWindows: seq<Window>
    /** How many restarts the watchdog has asked for. */
    ghost var restartRequests: nat

    function Model(): State
      reads this
    {
      State(isRunning, failsCountInRow, pendingCheck, outLog, errLog)
    }

    /** The object invariant: a stopped watchdog holds no timer, and the
        windows shown to the probe tile each log from its size at construction
        up to the current offset, all in that log's file. */
    ghost predicate Valid()
      reads this
    {
      && Consistent(Model())
      && Tiles(initialOutInd, outWindows, outLog.ind)
      && Tiles(initialErrInd, errWindows, errLog.ind)
      && (forall k | 0 <= k < |outWindows| :: outWindows[k].path == outLog.path)
      && (forall k | 0 <= k < |errWindows| :: errWindows[k].path == errLog.path)
    }

    /** A stopped watchdog with no failures, whose offsets start at the current
        log sizes rather than at 0. */
    constructor (env: ProcessEnv, options: Options, outLogSize: nat, errLogSize: nat)
      ensures Valid()
      ensures pmId == env.pmId && name == env.name && this.options == options
      ensures Model() == Initial(LogCursor(env.outLogPath, outLogSize), LogCursor(env.errLogPath, errLogSize))
      ensures outWindows == [] && errWindows == [] && restartRequests == 0
    {
      pmId := env.pmId;
      name := env.name;
      this.options := options;
      isRunning := false;
      pendingCheck := None;
      failsCountInRow := 0;
      outLog := LogCursor(env.outLogPath, outLogSize);
      errLog := LogCursor(env.errLogPath, errLogSize);
      initialOutInd := outLogSize;
      initialErrInd := errLogSize;
      outWindows := [];
      errWindows := [];
      restartRequests := 0;
    }

    /** start(): see OnStart. */
    method Start() returns (effects: Effects)
      requires Valid()
      modifies this
      ensures Valid()
      ensures Model() == OnStart(old(Model())).next && effects == OnStart(old(Model())).effects
      ensures outWindows == old(outWindows) && errWindows == old(errWindows)
      ensures restartRequests == old(restartRequests)
    {
      if isRunning {
        return QUIET;
      }
      isRunning := true;
      failsCountInRow := 0;
      effects := QUIET.(describe := true);
    }

    /** stop(): see OnStop. */
    method Stop()
      requires Valid()
      modifies this
      ensures Valid()
      ensures Model() == OnStop(old(Model())).next
      ensures outWindows == old(outWindows) && errWindows == old(errWindows)
      ensures restartRequests == old(restartRequests)
    {
      if !isRunning {
        return;
      }
      isRunning := false;
      if pendingCheck.Some? {
        pendingCheck := None;
      }
    }

    /** The describe reply reaches the loop at wall-clock time `now`: see OnDescribed. */
    method Described(reply: DescribeReply, now: int) returns (effects: Effects)
      requires Valid()
      modifies this
      ensures Valid()
      ensures var t := OnDescribed(options, old(Model()), reply, now);
        Model() == t.next && effects == t.effects
      ensures outWindows == old(outWindows) && errWindows == old(errWindows)
      ensures restartRequests == old(restartRequests)
    {
      var details := ProcessDetails(reply);
      if details.Failure? {
        return QUIET.(scheduleRetry := if pendingCheck.None? then Some(DESCRIBE_RETRY_DELAY) else None);
      }
      if !isRunning {
        return QUIET;
      }
      var d := details.value;
      var delay := NextCheckDelay(now, d.createdAt, d.minUptime, options.checkingInterval);
      pendingCheck := Some(delay);
      effects := QUIET.(scheduleCheck := Some(delay));
    }

    /** The describe-retry timer fires: see OnRetryElapsed. */
    method RetryElapsed() returns (effects: Effects)
      ensures effects == OnRetryElapsed(Model()).effects
    {
      effects := QUIET.(describe := isRunning);
    }

    /** The check timer fires; the logs now hold `newOutLogInd` and
        `newErrLogInd` bytes and the probe exits with success exactly when
        `probeOk`. Returns the probe's arguments (none when it is not run):
        see OnCheckElapsed. */
    method CheckElapsed(newOutLogInd: nat, newErrLogInd: nat, probeOk: bool) returns (argv: seq<string>, effects: Effects)
      requires Valid()
      modifies this
      ensures Valid()
      ensures var t := OnCheckElapsed(options, old(Model()), newOutLogInd, newErrLogInd, probeOk);
        Model() == t.next && effects == t.effects
      ensures argv == if effects.probe.Some? then ProbeArgv(options.processScript, effects.probe.value) else []
      ensures effects.probe.Some? ==>
        outWindows == old(outWindows) + [effects.probe.value.out]
        && errWindows == old(errWindows) + [effects.probe.value.err]
      ensures effects.probe.None? ==> outWindows == old(outWindows) && errWindows == old(errWindows)
      ensures restartRequests == old(restartRequests) + (if effects.restart then 1 else 0)
    {
      pendingCheck := None;
      if !isRunning {
        return [], QUIET;
      }
      var probe := ProbeCall(
        Window(outLog.path, outLog.ind, newOutLogInd),
        Window(errLog.path, errLog.ind, newErrLogInd));
      var restart := false;
      if probeOk {
        failsCountInRow := 0;
      } else {
        failsCountInRow := failsCountInRow + 1;
        if !(failsCountInRow < options.failsToRestart) {
          restart := true;
          restartRequests := restartRequests + 1;
        }
      }
      // whatever the outcome, both offsets move on to the sizes just sampled
      TilesSnoc(initialOutInd, outWindows, outLog.ind, probe.out);
      TilesSnoc(initialErrInd, errWindows, errLog.ind, probe.err);
      outWindows := outWindows + [probe.out];
      errWindows := errWindows + [probe.err];
      outLog := outLog.(ind := newOutLogInd);
      errLog := errLog.(ind := newErrLogInd);
      effects := QUIET.(describe := true, probe := Some(probe), restart := restart);
      argv := ProbeArgv(options.processScript, probe);
    }

    /** The restart reply: see OnRestarted. */
    method Restarted(ok: bool)
      requires Valid()
      modifies this
      ensures Valid()
      ensures Model() == OnRestarted(old(Model()), ok).next
      ensures outWindows == old(outWindows) && errWindows == old(errWindows)
      ensures restartRequests == old(restartRequests)
    {
      if ok {
        failsCountInRow := 0;
      }
    }
  }
}
