/**
 * The client's test scenarios: runs of the connection loop against a swarm
 * client whose discovery always fails with the retryable error and whose
 * sleeping gives up once more than 1000 seconds have been waited in all.
 */
module ClientTest {
  import opened Wrappers
  import opened BackOff
  import opened Swarm
  import opened PidFile
  import opened Client

  const PID_FILE_NAME: string := "__tmp.pid.file.swarm__"

  /** The test double stops sleeping once the total wait passes this many seconds. */
  const DUMMY_WAIT_LIMIT: int := 1000

  /** The test double's discovery: the master can never be reached. */
  function Unreachable(attempt: nat): Discovery {
    IOFailure
  }

  /** The options every back-off scenario starts from. */
  function GivenBackOff(strategy: RetryBackOffStrategy): (options: Options)
    ensures ValidOptions(options) && options.retryBackOffStrategy == strategy
    ensures RetryBudget(options.retry) == Finite(10)
    ensures options.retryInterval == 10 && options.maxRetryInterval == 120
  {
    Options("http://localhost:8080", 10, 10, 120, strategy, None)
  }

  /**
   * Runs the connection loop against a fresh test double. With a finite
   * budget of R attempts (at least one) whose R - 1 waits stay within the
   * double's limit, the client makes R attempts, waits the back-off of
   * attempts 1 to R - 1 and exits with status 1. With no limit it keeps
   * retrying until the total wait first passes the double's limit.
   */
  method RunAndVerify(options: Options) returns (outcome: Outcome, attempts: nat, sleeps: seq<int>)
    requires ValidOptions(options)
    ensures var budget := RetryBudget(options.retry);
            var r := if budget.Finite? && budget.attempts > 0 then budget.attempts else 1;
            var waits := Schedule(options.retryBackOffStrategy, options.retryInterval, options.maxRetryInterval, r - 1);
            budget.Finite? && Sum(waits) <= DUMMY_WAIT_LIMIT ==>
              outcome == Stopped(ExitedAfter(1, Sum(waits))) && attempts == r && sleeps == waits
    ensures RetryBudget(options.retry) == Unlimited ==>
              outcome == Stopped(RunningLongEnough) && attempts >= 1 &&
              sleeps == Schedule(options.retryBackOffStrategy, options.retryInterval, options.maxRetryInterval, attempts) &&
              Sum(sleeps) > DUMMY_WAIT_LIMIT &&
              Sum(Schedule(options.retryBackOffStrategy, options.retryInterval, options.maxRetryInterval, attempts - 1)) <= DUMMY_WAIT_LIMIT
  {
    var client := new SwarmClient(Unreachable, DUMMY_WAIT_LIMIT);
    outcome := Run(options, client);
    attempts, sleeps := |client.discovered|, client.sleeps;
    ghost var tried, total := client.discovered, client.totalWaitTime;
    assert tried[0..] == tried && sleeps[0..] == sleeps;
    assert tried[attempts - 1] == Unreachable(attempts - 1);
    UnreachableRun(options, outcome, tried, sleeps, total);
  }

  /** A run against an unreachable master, as seen by the test double. */
  lemma {:induction false} UnreachableRun(options: Options, outcome: Outcome, tried: seq<Discovery>, waits: seq<int>, total: int)
    requires ValidOptions(options)
    requires RunEnded(options, outcome, tried, waits, total, DUMMY_WAIT_LIMIT)
    requires tried[|tried| - 1] == IOFailure && total == Sum(waits)
    ensures var budget := RetryBudget(options.retry);
            var r := if budget.Finite? && budget.attempts > 0 then budget.attempts else 1;
            var expected := Schedule(options.retryBackOffStrategy, options.retryInterval, options.maxRetryInterval, r - 1);
            budget.Finite? && Sum(expected) <= DUMMY_WAIT_LIMIT ==>
              outcome == Stopped(ExitedAfter(1, Sum(expected))) && |tried| == r && waits == expected
    ensures RetryBudget(options.retry) == Unlimited ==>
              outcome == Stopped(RunningLongEnough) && |tried| >= 1 &&
              waits == Schedule(options.retryBackOffStrategy, options.retryInterval, options.maxRetryInterval, |tried|) &&
              Sum(waits) > DUMMY_WAIT_LIMIT &&
              Sum(Schedule(options.retryBackOffStrategy, options.retryInterval, options.maxRetryInterval, |tried| - 1)) <= DUMMY_WAIT_LIMIT
  {
    if RetryBudget(options.retry).Finite? {
      UnreachableFinite(options, outcome, tried, waits, total);
    } else {
      UnreachableUnlimited(options, outcome, tried, waits, total);
    }
  }

  /** A finite budget against an unreachable master is spent, provided its
      waits stay within the limit: the sleeper never gives up first. */
  lemma {:induction false} UnreachableFinite(options: Options, outcome: Outcome, tried: seq<Discovery>, waits: seq<int>, total: int)
    requires ValidOptions(options)
    requires RunEnded(options, outcome, tried, waits, total, DUMMY_WAIT_LIMIT)
    requires tried[|tried| - 1] == IOFailure && total == Sum(waits)
    requires RetryBudget(options.retry).Finite?
    ensures var budget := RetryBudget(options.retry);
            var r := if budget.attempts > 0 then budget.attempts else 1;
            var expected := Schedule(options.retryBackOffStrategy, options.retryInterval, options.maxRetryInterval, r - 1);
            Sum(expected) <= DUMMY_WAIT_LIMIT ==>
              outcome == Stopped(ExitedAfter(1, Sum(expected))) && |tried| == r && waits == expected
  {
    var budget := RetryBudget(options.retry);
    var r := if budget.attempts > 0 then budget.attempts else 1;
    var strategy, interval, cap := options.retryBackOffStrategy, options.retryInterval, options.maxRetryInterval;
    var n := |tried|;
    if outcome.Stopped? && outcome.stop == RunningLongEnough {
      assert waits == Schedule(strategy, interval, cap, n);
      ScheduleTotalMonotone(strategy, interval, cap, n, r - 1);
    }
  }

  /** With no limit, a run against an unreachable master ends only when the
      sleeper gives up, at the first wait that takes the total past the limit. */
  lemma {:induction false} UnreachableUnlimited(options: Options, outcome: Outcome, tried: seq<Discovery>, waits: seq<int>, total: int)
    requires ValidOptions(options)
    requires RunEnded(options, outcome, tried, waits, total, DUMMY_WAIT_LIMIT)
    requires tried[|tried| - 1] == IOFailure && total == Sum(waits)
    requires RetryBudget(options.retry) == Unlimited
    ensures outcome == Stopped(RunningLongEnough)
    ensures waits == Schedule(options.retryBackOffStrategy, options.retryInterval, options.maxRetryInterval, |tried|)
    ensures Sum(waits) > DUMMY_WAIT_LIMIT
    ensures Sum(Schedule(options.retryBackOffStrategy, options.retryInterval, options.maxRetryInterval, |tried| - 1)) <= DUMMY_WAIT_LIMIT
  {
    var strategy, interval, cap := options.retryBackOffStrategy, options.retryInterval, options.maxRetryInterval;
    var n := |tried|;
    assert !outcome.Connected? && !outcome.Failed? && !outcome.stop.ExitedAfter?;
    assert outcome.stop == RunningLongEnough;
    assert waits == Schedule(strategy, interval, cap, n - 1) + [Delay(strategy, n, interval, cap)];
    assert 0 <= DUMMY_WAIT_LIMIT < Sum(waits);
    assert n == 1 || Sum(waits) - waits[n - 1] <= DUMMY_WAIT_LIMIT;
    FirstWaitPastLimit(strategy, interval, cap, n, waits, DUMMY_WAIT_LIMIT);
  }

  /** A run whose last wait was the first to take the total past the limit. */
  lemma {:induction false} FirstWaitPastLimit(strategy: RetryBackOffStrategy, interval: int, cap: int, n: nat, waits: seq<int>, limit: int)
    requires ValidIntervals(interval, cap) && n >= 1
    requires waits == Schedule(strategy, interval, cap, n - 1) + [Delay(strategy, n, interval, cap)]
    requires 0 <= limit < Sum(waits) && (n == 1 || Sum(waits) - waits[n - 1] <= limit)
    ensures waits == Schedule(strategy, interval, cap, n)
    ensures Sum(Schedule(strategy, interval, cap, n - 1)) <= limit
  {
    SumSnoc(Schedule(strategy, interval, cap, n - 1), Delay(strategy, n, interval, cap));
  }

  method ShouldNotRetryMoreThanSpecified() returns (oneTry: Outcome, aFewTries: Outcome)
    ensures oneTry == Stopped(ExitedAfter(1, 0))
    ensures aFewTries == Stopped(ExitedAfter(1, 40))
  {
    var options := GivenBackOff(NONE);
    options := options.(retry := 1);
    var attempts, sleeps;
    oneTry, attempts, sleeps := RunAndVerify(options);
    options := options.(retry := 5);
    NoBackOffTotal(10, 120, 4);
    aFewTries, attempts, sleeps := RunAndVerify(options);
  }

  method ShouldKeepRetryingIfThereIsNoLimit() returns (outcome: Outcome, attempts: nat, waited: int)
    ensures outcome == Stopped(RunningLongEnough)
    ensures attempts == 101 && waited == 1010
  {
    var options := GivenBackOff(NONE);
    options := options.(retry := -1);
    var sleeps;
    outcome, attempts, sleeps := RunAndVerify(options);
    NoBackOffTotal(10, 120, attempts);
    NoBackOffTotal(10, 120, attempts - 1);
    waited := Sum(sleeps);
  }

  method ShouldRunWithNoBackoff() returns (outcome: Outcome, sleeps: seq<int>)
    ensures outcome == Stopped(ExitedAfter(1, 90))
    ensures sleeps == [10, 10, 10, 10, 10, 10, 10, 10, 10]
  {
    NoBackOffTotal(10, 120, 9);
    var attempts;
    outcome, attempts, sleeps := RunAndVerify(GivenBackOff(NONE));
  }

  method ShouldRunWithLinearBackoff() returns (outcome: Outcome, sleeps: seq<int>)
    ensures outcome == Stopped(ExitedAfter(1, 450))
    ensures sleeps == [10, 20, 30, 40, 50, 60, 70, 80, 90]
  {
    LinearTotal(10, 120, 9);
    var attempts;
    outcome, attempts, sleeps := RunAndVerify(GivenBackOff(LINEAR));
  }

  method ShouldRunWithExponentialBackoff() returns (outcome: Outcome, sleeps: seq<int>)
    ensures outcome == Stopped(ExitedAfter(1, 750))
    ensures sleeps == [10, 20, 40, 80, 120, 120, 120, 120, 120]
  {
    assert Schedule(EXPONENTIAL, 10, 120, 9) == [10, 20, 40, 80, 120, 120, 120, 120, 120];
    var attempts;
    outcome, attempts, sleeps := RunAndVerify(GivenBackOff(EXPONENTIAL));
  }

  /** With the pid file already present, start-up stops with the pid-file
      status: the file is left as it was, and no attempt or wait happens. */
  method ShouldFailWhenPidfileExists(options: Options, pid: string)
    returns (result: LaunchOutcome, held: Files, attempts: nat, sleeps: seq<int>)
    requires ValidOptions(options)
    ensures result == PidFileExists
    ensures held == map[PID_FILE_NAME := "12345"]
    ensures attempts == 0 && sleeps == []
  {
    var files := map[PID_FILE_NAME := "12345"];
    var client := new SwarmClient(Unreachable, DUMMY_WAIT_LIMIT);
    result, held := Launch(options.(pidFile := Some(PID_FILE_NAME)), files, pid, client);
    attempts, sleeps := |client.discovered|, client.sleeps;
  }
}
