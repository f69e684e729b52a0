/** Which stall timeouts are safe, the command line's default among them
    (cmd/run.go). The no-false-alarm condition is exact: when one test may outlast
    the stall timeout, for want of a deadline or with both of them, there is a run
    in which every test keeps its own deadlines and the watchdog still cancels it. */
module StallTimeout {
  import opened Tests
  import opened Protocol
  import opened Scheduler
  import opened ProtocolEnding
  import opened ProtocolAlarm

  ghost predicate NeverAlarms(r: Runner) {
    forall tests: seq<Test>, acts: seq<Action>, s: State :: Reached(Plan(r, tests), acts, s) ==> !s.alarm
  }

  /** One test cannot outlast the stall timeout, or there is none. */
  predicate Fits(r: Runner) {
    || r.stallTimeout <= 0
    || (r.timeout > 0 && r.cleanupTimeout > 0 && r.timeout + Grace(r) + r.cleanupTimeout < r.stallTimeout)
  }

  /** No list of tests can set off the watchdog in any run exactly when there is
      no watchdog, or both per-test timeouts are set and one test's bounds
      together stay below the stall timeout. */
  lemma NeverAlarmsIff(r: Runner)
    ensures NeverAlarms(r) <==>
              || r.stallTimeout <= 0
              || (r.timeout > 0 && r.cleanupTimeout > 0 && r.timeout + Grace(r) + r.cleanupTimeout < r.stallTimeout)
  {
    if Fits(r) {
      forall tests: seq<Test>, acts: seq<Action>, s: State | Reached(Plan(r, tests), acts, s) ensures !s.alarm {
        NoAlarm(Plan(r, tests), acts, s);
      }
    } else {
      LatePlan(r);
      var acts, s := AlarmRun(Plan(r, LATE));
    }
  }

  lemma NoAlarm(c: Setup, acts: seq<Action>, s: State)
    requires Planned(c) && Fits(c.runner) && Reached(c, acts, s)
    ensures !s.alarm
  {
    if c.runner.stallTimeout <= 0 {
      PunctualReached(c, acts, s);
    } else {
      NoFalseAlarm(c, acts, s);
    }
  }

  /** The command line's default, three times the test timeout, is therefore
      safe exactly when that timeout is off, and the watchdog with it, or the
      cleanups have a timeout and twice the first exceeds grace and cleanup
      together. */
  lemma DefaultStallIff(r: Runner)
    requires r.stallTimeout == 3 * r.timeout
    ensures NeverAlarms(r) <==>
              r.timeout <= 0 || (r.cleanupTimeout > 0 && 2 * r.timeout > Grace(r) + r.cleanupTimeout)
  {
    NeverAlarmsIff(r);
  }

  /** `--timeout 20s` with every other flag at its default is not safe. */
  lemma ShortTimeoutAlarms()
    ensures !NeverAlarms(Runner(8, 20 * SECOND, 60 * SECOND, 60 * SECOND, 8, 0))
  {
    DefaultStallIff(Runner(8, 20 * SECOND, 60 * SECOND, 60 * SECOND, 8, 0));
  }

  /** Nor is a run without a cleanup timeout, however long the other. */
  lemma UnboundedCleanupAlarms(timeout: nat, parallel: int)
    requires timeout > 0
    ensures !NeverAlarms(Runner(parallel, timeout, 0, 3 * timeout, 8, 0))
  {
    DefaultStallIff(Runner(parallel, timeout, 0, 3 * timeout, 8, 0));
  }
}
