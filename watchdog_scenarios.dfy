/** Concrete runs of the watchdog: a threshold of three failures, a pass in the
    middle of a failing run, a describe that fails once, and the delay of a
    process still within its minimum uptime. Each run starts from a freshly
    constructed watchdog whose logs were empty, with a 500 ms checking
    interval and a threshold of three failures. */
module WatchdogScenarios {
  import opened Wrappers
  import opened WatchdogSpec
  import opened WatchdogLaws

  /** Three failing checks in a row ask for exactly one restart, after the
      third; a successful restart then brings the count back to 0. */
  lemma ThreeFailuresRestartOnce()
    ensures var r := Run(
        Options("check.js", 500, 3),
        State(false, 0, None, LogCursor("app-out.log", 0), LogCursor("app-error.log", 0)),
        [Started,
         Described(DescribeReply(false, [ProcessDescription(0, None)]), 0), CheckElapsed(10, 0, false),
         Described(DescribeReply(false, [ProcessDescription(0, None)]), 1000), CheckElapsed(20, 0, false),
         Described(DescribeReply(false, [ProcessDescription(0, None)]), 2000), CheckElapsed(30, 0, false),
         Restarted(true)]);
      && RestartCount(r.effects) == 1
      && r.effects[6].restart
      && r.final.failsCountInRow == 0
      && r.final.outLog.ind == 30
  {
  }

  /** Fail, pass, fail, fail, fail: the pass restarts the run, so only the
      third of the final failures asks for a restart, and the count ends at 3. */
  lemma PassResetsFailureRun()
    ensures var r := Run(
        Options("check.js", 500, 3),
        State(false, 0, None, LogCursor("app-out.log", 0), LogCursor("app-error.log", 0)),
        [Started,
         Described(DescribeReply(false, [ProcessDescription(0, None)]), 0), CheckElapsed(1, 0, false),
         Described(DescribeReply(false, [ProcessDescription(0, None)]), 1000)]
        + [CheckElapsed(2, 0, true)]
        + [Described(DescribeReply(false, [ProcessDescription(0, None)]), 2000), CheckElapsed(3, 0, false),
         Described(DescribeReply(false, [ProcessDescription(0, None)]), 3000), CheckElapsed(4, 0, false),
         Described(DescribeReply(false, [ProcessDescription(0, None)]), 4000), CheckElapsed(5, 0, false)]);
      && RestartCount(r.effects) == 1
      && r.final.failsCountInRow == 3
  {
    var o := Options("check.js", 500, 3);
    var s := State(false, 0, None, LogCursor("app-out.log", 0), LogCursor("app-error.log", 0));
    var pre := [Started,
      Described(DescribeReply(false, [ProcessDescription(0, None)]), 0), CheckElapsed(1, 0, false),
      Described(DescribeReply(false, [ProcessDescription(0, None)]), 1000)];
    var post := [
      Described(DescribeReply(false, [ProcessDescription(0, None)]), 2000), CheckElapsed(3, 0, false),
      Described(DescribeReply(false, [ProcessDescription(0, None)]), 3000), CheckElapsed(4, 0, false),
      Described(DescribeReply(false, [ProcessDescription(0, None)]), 4000), CheckElapsed(5, 0, false)];
    var r := Run(o, s, pre);
    assert r.final.isRunning;
    assert forall i | 0 <= i < 4 :: !r.effects[i].restart;
    NoRestartRequested(r.effects);
    assert Checks(post) == 3;
    PassForgetsEarlierFailures(o, s, pre, 2, 0, post);
  }

  /** A running watchdog with two failures behind it and no check pending:
      a describe that fails leaves the count at 2 and arms a retry after
      5000 ms; the retry describes again, and the next reply arms a check. */
  lemma DescribeFailureRetries()
    ensures var r := Run(
        Options("check.js", 500, 3),
        State(true, 2, None, LogCursor("app-out.log", 40), LogCursor("app-error.log", 7)),
        [Described(DescribeReply(true, []), 0),
         RetryElapsed,
         Described(DescribeReply(false, [ProcessDescription(0, None)]), 5000)]);
      && r.effects[0].scheduleRetry == Some(5000)
      && r.effects[0].scheduleCheck.None?
      && r.effects[1].describe
      && r.effects[2].scheduleCheck == Some(1000)
      && r.final.failsCountInRow == 2
      && r.final.outLog.ind == 40 && r.final.errLog.ind == 7
  {
  }

  /** A process configured with a 10000 ms minimum uptime, up for 2000 ms,
      with a 500 ms checking interval, is next checked after 8000 ms. */
  lemma DelayWithinMinimumUptime()
    ensures NextCheckDelay(12000, 10000, Some(10000), 500) == 8000
  {
  }
}
