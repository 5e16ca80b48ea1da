/** Laws of the watchdog state machine that relate several events: the
    lifecycle calls are idempotent, a stopped watchdog stays inert, the probed
    windows tile each log, and sustained failures keep asking for restarts. */
module WatchdogLaws {
  import opened Wrappers
  import opened LogWindows
  import opened WatchdogSpec

  function Min(a: int, b: int): int {
    if a <= b then a else b
  }

  /** Running two sequences of events one after the other is running their
      concatenation. */
  lemma {:induction false} RunAppend(o: Options, s: State, a: seq<Event>, b: seq<Event>)
    ensures var ra := Run(o, s, a); var rb := Run(o, ra.final, b);
      Run(o, s, a + b) == Trace(rb.final, ra.effects + rb.effects)
    decreases |a|
  {
    if a != [] {
      assert (a + b)[0] == a[0];
      assert (a + b)[1..] == a[1..] + b;
      RunAppend(o, Step(o, s, a[0]).next, a[1..], b);
    } else {
      assert a + b == b;
    }
  }

  /** Restart requests add up over concatenated effects. */
  lemma {:induction false} RestartCountAppend(x: seq<Effects>, y: seq<Effects>)
    ensures RestartCount(x + y) == RestartCount(x) + RestartCount(y)
    decreases |x|
  {
    if x != [] {
      assert (x + y)[1..] == x[1..] + y;
      RestartCountAppend(x[1..], y);
    } else {
      assert x + y == y;
    }
  }

  /** Effects none of which asks for a restart count no restart requests. */
  lemma {:induction false} NoRestartRequested(effects: seq<Effects>)
    requires forall i | 0 <= i < |effects| :: !effects[i].restart
    ensures RestartCount(effects) == 0
    decreases |effects|
  {
    if effects != [] {
      assert forall i | 0 <= i < |effects[1..]| :: effects[1..][i] == effects[i + 1];
      NoRestartRequested(effects[1..]);
    }
  }

  /** Calling start() twice has the effect of calling it once. */
  lemma StartIsIdempotent(s: State)
    ensures var t := OnStart(s); OnStart(t.next) == Transition(t.next, QUIET)
  {
  }

  /** Calling stop() twice has the effect of calling it once. */
  lemma StopIsIdempotent(s: State)
    ensures var t := OnStop(s); OnStop(t.next) == Transition(t.next, QUIET)
  {
  }

  /** A check timer that fires after stop() changes nothing and asks for nothing. */
  lemma CheckAfterStopIsInert(o: Options, s: State, newOutInd: nat, newErrInd: nat, probeOk: bool)
    requires Consistent(s)
    ensures var s1 := OnStop(s).next;
      OnCheckElapsed(o, s1, newOutInd, newErrInd, probeOk) == Transition(s1, QUIET)
  {
  }

  predicate NoStart(es: seq<Event>) {
    forall i | 0 <= i < |es| :: !es[i].Started?
  }

  /** Until start() is called again, a stopped watchdog never describes the
      process, arms a check, runs the probe or asks for a restart, and its
      offsets and timer stay as they are; only a late successful restart reply
      may still reset its failure count. */
  lemma {:induction false} StoppedRunIsInert(o: Options, s: State, es: seq<Event>)
    requires !s.isRunning && s.pendingCheck.None? && NoStart(es)
    ensures var r := Run(o, s, es);
      && r.final == s.(failsCountInRow := r.final.failsCountInRow)
      && forall i | 0 <= i < |r.effects| ::
           !r.effects[i].describe && r.effects[i].scheduleCheck.None?
           && r.effects[i].probe.None? && !r.effects[i].restart
    decreases |es|
  {
    if es != [] {
      var t := Step(o, s, es[0]);
      assert Log(t.next, Out) == Log(s, Out) && Log(t.next, Err) == Log(s, Err);
      assert NoStart(es[1..]) by {
        forall i | 0 <= i < |es[1..]| ensures !es[1..][i].Started? {
          assert es[1..][i] == es[i + 1];
        }
      }
      StoppedRunIsInert(o, t.next, es[1..]);
    }
  }

  /** Whatever happens, the windows handed to the probe for one stream start
      at the offset the watchdog held, follow each other without gap or
      overlap, all lie in that stream's file, and end at the offset the
      watchdog holds afterwards. */
  lemma {:induction false} RunTilesLog(o: Options, s: State, es: seq<Event>, st: Stream)
    ensures var r := Run(o, s, es);
      && Tiles(Log(s, st).ind, Probed(r.effects, st), Log(r.final, st).ind)
      && Log(r.final, st).path == Log(s, st).path
      && forall k | 0 <= k < |Probed(r.effects, st)| :: Probed(r.effects, st)[k].path == Log(s, st).path
    decreases |es|
  {
    if es != [] {
      var t := Step(o, s, es[0]);
      var rest := Run(o, t.next, es[1..]);
      RunTilesLog(o, t.next, es[1..], st);
      var effs := [t.effects] + rest.effects;
      assert effs[1..] == rest.effects;
      assert Run(o, s, es).effects == effs;
      if t.effects.probe.Some? {
        var w := WindowOf(t.effects.probe.value, st);
        assert Probed(effs, st) == [w] + Probed(rest.effects, st);
        assert ([w] + Probed(rest.effects, st))[1..] == Probed(rest.effects, st);
      } else {
        assert Probed(effs, st) == Probed(rest.effects, st);
      }
    }
  }

  /** Across any run, the probe is shown exactly as many bytes of a stream as
      the watchdog's offset for it moved. */
  lemma RunSpansOffsetMove(o: Options, s: State, es: seq<Event>, st: Stream)
    ensures var r := Run(o, s, es);
      Span(Probed(r.effects, st)) == Log(r.final, st).ind - Log(s, st).ind
  {
    var r := Run(o, s, es);
    RunTilesLog(o, s, es, st);
    TiledSpan(Log(s, st).ind, Probed(r.effects, st), Log(r.final, st).ind);
  }

  /** From a consistent state every run ends in a consistent state: a stopped
      watchdog never holds a check timer. */
  lemma {:induction false} RunKeepsConsistent(o: Options, s: State, es: seq<Event>)
    requires Consistent(s)
    ensures Consistent(Run(o, s, es).final)
    decreases |es|
  {
    if es != [] {
      RunKeepsConsistent(o, Step(o, s, es[0]).next, es[1..]);
    }
  }

  /** The failure count drops to 0 only on start() of a stopped watchdog, on a
      passing check of a running one, or on a successful restart. */
  lemma CounterResetsOnlyBy(o: Options, s: State, e: Event)
    requires s.failsCountInRow > 0 && Step(o, s, e).next.failsCountInRow == 0
    ensures || (e.Started? && !s.isRunning)
            || (e.CheckElapsed? && e.probeOk && s.isRunning)
            || e == Restarted(true)
  {
  }

  /** After a check that asked for a restart and a restart that failed, the
      next failing check asks for a restart again: no further failures need to
      accumulate. */
  lemma FailedRestartKeepsRestarting(
    o: Options, s: State, out1: nat, err1: nat, out2: nat, err2: nat)
    requires s.isRunning
    requires OnCheckElapsed(o, s, out1, err1, false).effects.restart
    ensures var s1 := OnRestarted(OnCheckElapsed(o, s, out1, err1, false).next, false).next;
      && s1.failsCountInRow >= o.failsToRestart
      && OnCheckElapsed(o, s1, out2, err2, false).effects.restart
  {
  }

  /** Events during which the process keeps failing: describes, retries,
      failing checks and failed restarts. */
  predicate KeepsFailing(e: Event) {
    e.Described? || e.RetryElapsed? || (e.CheckElapsed? && !e.probeOk) || e == Restarted(false)
  }

  /** Number of checks that fired. */
  function Checks(es: seq<Event>): nat
    decreases |es|
  {
    if es == [] then 0 else (if es[0].CheckElapsed? then 1 else 0) + Checks(es[1..])
  }

  /** While a running watchdog's checks keep failing and its restarts keep
      failing, each of n checks adds one to the count, and every check from the
      one that reaches the threshold on asks for a restart. */
  lemma {:induction false} FailingRunRestarts(o: Options, s: State, es: seq<Event>)
    requires s.isRunning
    requires forall i | 0 <= i < |es| :: KeepsFailing(es[i])
    ensures var r := Run(o, s, es); var n := Checks(es);
      && r.final.isRunning
      && r.final.failsCountInRow == s.failsCountInRow + n
      && RestartCount(r.effects) == Max(0, Min(n, s.failsCountInRow + n - o.failsToRestart + 1))
    decreases |es|
  {
    if es != [] {
      var t := Step(o, s, es[0]);
      assert forall i | 0 <= i < |es[1..]| :: es[1..][i] == es[i + 1];
      FailingRunRestarts(o, t.next, es[1..]);
      var rest := Run(o, t.next, es[1..]);
      var effs := [t.effects] + rest.effects;
      assert effs[1..] == rest.effects;
      assert Run(o, s, es).effects == effs;
      assert RestartCount(effs) == (if t.effects.restart then 1 else 0) + RestartCount(rest.effects);
    }
  }

  /** A passing check wipes out the failures before it: the restarts asked for
      by the failing run that follows depend only on its own length. */
  lemma PassForgetsEarlierFailures(
    o: Options, s: State, pre: seq<Event>, newOutInd: nat, newErrInd: nat, post: seq<Event>)
    requires o.failsToRestart >= 1
    requires Run(o, s, pre).final.isRunning
    requires forall i | 0 <= i < |post| :: KeepsFailing(post[i])
    ensures var r := Run(o, s, pre + [CheckElapsed(newOutInd, newErrInd, true)] + post);
      var n := Checks(post);
      && RestartCount(r.effects)
           == RestartCount(Run(o, s, pre).effects) + (if n < o.failsToRestart then 0 else n - o.failsToRestart + 1)
      && r.final.failsCountInRow == n
  {
    var pass := [CheckElapsed(newOutInd, newErrInd, true)];
    var r1 := Run(o, s, pre);
    var r2 := Run(o, r1.final, pass);
    var r3 := Run(o, r2.final, post);
    RunAppend(o, s, pre, pass);
    RunAppend(o, s, pre + pass, post);
    assert r2.final.isRunning && r2.final.failsCountInRow == 0 && !r2.effects[0].restart;
    NoRestartRequested(r2.effects);
    RestartCountAppend(r1.effects, r2.effects);
    RestartCountAppend(r1.effects + r2.effects, r3.effects);
    FailingRunRestarts(o, r2.final, post);
  }

  /** A freshly started watchdog (count 0) whose first n checks fail asks for
      n - failsToRestart + 1 restarts, none before the threshold is reached. */
  lemma FreshFailuresRestart(o: Options, s: State, es: seq<Event>)
    requires s.isRunning && s.failsCountInRow == 0 && o.failsToRestart >= 1
    requires forall i | 0 <= i < |es| :: KeepsFailing(es[i])
    ensures var n := Checks(es);
      RestartCount(Run(o, s, es).effects) == if n < o.failsToRestart then 0 else n - o.failsToRestart + 1
  {
    FailingRunRestarts(o, s, es);
  }
}
