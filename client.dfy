/**
 * The swarm client's start-up: the pid-file guard, then the connection loop
 * that keeps attempting discovery, backing off between failures, until it
 * connects, hits an unexpected failure, or runs out of its retry budget.
 */
module Client {
  import opened Wrappers
  import opened BackOff
  import opened Swarm
  import opened PidFile

  /** The client's options that start-up and the connection loop read. */
  datatype Options = Options(
    master: string,
    retry: int,
    retryInterval: int,
    maxRetryInterval: int,
    retryBackOffStrategy: RetryBackOffStrategy,
    pidFile: Option<Path>)

  predicate ValidOptions(options: Options) {
    ValidIntervals(options.retryInterval, options.maxRetryInterval)
  }

  /** How many attempts the `retry` option allows: a negative value means no limit. */
  datatype Budget = Finite(attempts: nat) | Unlimited

  function RetryBudget(retry: int): (b: Budget)
    ensures b == Unlimited <==> retry < 0
    ensures b.Finite? ==> b.attempts == retry
  {
    if retry < 0 then Unlimited else Finite(retry)
  }

  /** Whether failed attempt number `attempt` spends the budget. Discovery is
      attempted before the budget is consulted, so a budget of 0 still makes
      one attempt. */
  predicate Spent(budget: Budget, attempt: nat) {
    budget.Finite? && attempt >= budget.attempts
  }

  /** How the connection loop ends. */
  datatype Outcome =
    | Connected(candidate: Candidate)
    | Failed(reason: string)
    | Stopped(stop: Stop)

  /**
   * How a run of the connection loop may end. `tried` are the discovery
   * outcomes of its attempts in order, `waits` the waits it slept in order,
   * `total` the client's total wait afterwards and `limit` the wait limit of
   * its sleeper.
   */
  ghost predicate RunEnded(options: Options, outcome: Outcome, tried: seq<Discovery>, waits: seq<int>, total: int, limit: int)
    requires ValidOptions(options)
  {
    var n := |tried|;
    var budget := RetryBudget(options.retry);
    n >= 1 &&
    // every attempt but the last failed with the retryable error
    (forall i :: 0 <= i < n - 1 ==> tried[i] == IOFailure) &&
    // one wait after each failed attempt but the last, and after the last too
    // when the sleeper gave up; the k-th wait is the one for attempt number k
    var schedule := Schedule(options.retryBackOffStrategy, options.retryInterval, options.maxRetryInterval, n - 1);
    var wait := Delay(options.retryBackOffStrategy, n, options.retryInterval, options.maxRetryInterval);
    var gaveUp := outcome.Stopped? && outcome.stop == RunningLongEnough;
    waits == (if gaveUp then schedule + [wait] else schedule) &&
    // every failed attempt but the last left budget for another one, and the
    // sleeper had not given up before the last attempt
    (n > 1 ==> !Spent(budget, n - 1)) &&
    (n > 1 && !gaveUp ==> total <= limit) &&
    match outcome
    case Connected(c) => tried[n - 1] == Found(c)
    case Failed(reason) => tried[n - 1] == Fault(reason)
    case Stopped(ExitedAfter(status, seconds)) =>
      // the budget is spent: status 1, reporting the total wait
      tried[n - 1] == IOFailure && status == 1 && seconds == total &&
      budget.Finite? && n == (if budget.attempts == 0 then 1 else budget.attempts)
    case Stopped(RunningLongEnough) =>
      // the budget is not spent, and the last wait took the total past the limit
      tried[n - 1] == IOFailure && !Spent(budget, n) &&
      total > limit && (n == 1 || total - waits[n - 1] <= limit)
  }

  /** A finite budget bounds every run, however it ends: at most the budget's
      attempts, or one attempt for a budget of 0. */
  lemma {:induction false} WithinBudget(options: Options, outcome: Outcome, tried: seq<Discovery>, waits: seq<int>, total: int, limit: int)
    requires ValidOptions(options)
    requires RunEnded(options, outcome, tried, waits, total, limit)
    requires RetryBudget(options.retry).Finite?
    ensures |tried| <= if options.retry == 0 then 1 else options.retry
  {
  }

  /** A retryable failure never escapes the loop: a run ends in one of the two
      stops exactly when every one of its attempts failed with it, and an
      unlimited budget never ends in the exit. */
  lemma {:induction false} RetryableAbsorbed(options: Options, outcome: Outcome, tried: seq<Discovery>, waits: seq<int>, total: int, limit: int)
    requires ValidOptions(options)
    requires RunEnded(options, outcome, tried, waits, total, limit)
    ensures outcome.Stopped? <==> forall i :: 0 <= i < |tried| ==> tried[i] == IOFailure
    ensures RetryBudget(options.retry) == Unlimited ==> !(outcome.Stopped? && outcome.stop.ExitedAfter?)
  {
  }

  /**
   * The connection loop. A retryable discovery failure either spends the
   * budget, and the client exits with status 1 without sleeping, or is
   * followed by the wait the strategy gives for that attempt number. An
   * unexpected failure ends the loop at once; so does a success.
   */
  method Run(options: Options, client: SwarmClient) returns (outcome: Outcome)
    requires ValidOptions(options) && client.Valid()
    modifies client
    ensures client.Valid()
    ensures |client.discovered| > |old(client.discovered)| && client.discovered[..|old(client.discovered)|] == old(client.discovered)
    ensures |client.sleeps| >= |old(client.sleeps)| && client.sleeps[..|old(client.sleeps)|] == old(client.sleeps)
    ensures RunEnded(options, outcome, client.discovered[|old(client.discovered)|..], client.sleeps[|old(client.sleeps)|..],
                     client.totalWaitTime, client.waitLimit)
  {
    var budget := RetryBudget(options.retry);
    var strategy, interval, cap := options.retryBackOffStrategy, options.retryInterval, options.maxRetryInterval;
    var attempt: nat := 1;
    ghost var d0, s0 := client.discovered, client.sleeps;
    while true
      invariant client.Valid()
      invariant |client.discovered| == |d0| + attempt - 1
      invariant client.discovered[..|d0|] == d0
      invariant forall i :: |d0| <= i < |client.discovered| ==> client.discovered[i] == IOFailure
      invariant |client.sleeps| >= |s0| && client.sleeps[..|s0|] == s0
      invariant client.sleeps[|s0|..] == Schedule(strategy, interval, cap, attempt - 1)
      invariant attempt > 1 ==> client.totalWaitTime <= client.waitLimit && !Spent(budget, attempt - 1)
      decreases if budget.Finite? then budget.attempts - attempt + 1 else 0,
                if client.totalWaitTime <= client.waitLimit then client.waitLimit - client.totalWaitTime else 0
    {
      ghost var waits := Schedule(strategy, interval, cap, attempt - 1);
      ghost var wait := Delay(strategy, attempt, interval, cap);
      var ended := Attempt(options, budget, attempt, client);
      assert Schedule(strategy, interval, cap, attempt) == waits + [wait];
      assert client.sleeps[..|s0|] == s0;
      if ended.Some? {
        return ended.value;
      }
      attempt := attempt + 1;
    }
  }

  /**
   * One pass of the connection loop: discovery attempt number `attempt` of
   * this run and, after a retryable failure that does not spend the budget,
   * the wait for that attempt number. `ended` is how the loop ends here, or
   * `None` when it goes on to the next attempt.
   */
  method Attempt(options: Options, budget: Budget, attempt: nat, client: SwarmClient)
    returns (ended: Option<Outcome>)
    requires ValidOptions(options) && client.Valid() && attempt >= 1
    modifies client
    ensures client.Valid()
    ensures |client.discovered| == |old(client.discovered)| + 1
    ensures client.discovered[..|old(client.discovered)|] == old(client.discovered)
    ensures var d := client.discovered[|old(client.discovered)|];
            var wait := Delay(options.retryBackOffStrategy, attempt, options.retryInterval, options.maxRetryInterval);
            match d
            case Found(c) =>
              ended == Some(Connected(c)) && client.sleeps == old(client.sleeps) && client.totalWaitTime == old(client.totalWaitTime)
            case Fault(reason) =>
              ended == Some(Failed(reason)) && client.sleeps == old(client.sleeps) && client.totalWaitTime == old(client.totalWaitTime)
            case IOFailure =>
              if Spent(budget, attempt) then
                ended == Some(Stopped(ExitedAfter(1, client.totalWaitTime))) &&
                client.sleeps == old(client.sleeps) && client.totalWaitTime == old(client.totalWaitTime)
              else
                client.sleeps == old(client.sleeps) + [wait] &&
                client.totalWaitTime == old(client.totalWaitTime) + wait &&
                ended == (if client.totalWaitTime > client.waitLimit then Some(Stopped(RunningLongEnough)) else None)
  {
    var found := client.DiscoverFromMasterUrl();
    assert client.discovered[..|old(client.discovered)|] == old(client.discovered);
    match found {
      case Found(candidate) => return Some(Connected(candidate));
      case Fault(reason) => return Some(Failed(reason));
      case IOFailure =>
    }
    if Spent(budget, attempt) {
      var stop := client.ExitWithStatus(1);
      return Some(Stopped(stop));
    }
    var wait := Delay(options.retryBackOffStrategy, attempt, options.retryInterval, options.maxRetryInterval);
    var longEnough := client.SleepSeconds(wait);
    ended := if longEnough then Some(Stopped(RunningLongEnough)) else None;
  }

  /** Start-up result: either the pid file was taken, or the loop ran. */
  datatype LaunchOutcome = PidFileExists | Ran(outcome: Outcome)

  /**
   * Start-up after option parsing: the pid-file guard runs first and, on a
   * conflict, the client exits with its dedicated status before any
   * discovery or sleep. `held` is the file system while the client runs.
   */
  method Launch(options: Options, files: Files, pid: string, client: SwarmClient)
    returns (result: LaunchOutcome, held: Files)
    requires ValidOptions(options) && client.Valid()
    modifies client
    ensures options.pidFile.Some? && options.pidFile.value in files ==>
              result == PidFileExists && held == files && unchanged(client)
    ensures !(options.pidFile.Some? && options.pidFile.value in files) ==>
              result.Ran? && held == Acquire(options.pidFile, files, pid).1 &&
              |client.discovered| > |old(client.discovered)| &&
              client.discovered[..|old(client.discovered)|] == old(client.discovered) &&
              |client.sleeps| >= |old(client.sleeps)| && client.sleeps[..|old(client.sleeps)|] == old(client.sleeps) &&
              RunEnded(options, result.outcome, client.discovered[|old(client.discovered)|..],
                       client.sleeps[|old(client.sleeps)|..], client.totalWaitTime, client.waitLimit)
    ensures client.Valid()
  {
    var guard := Acquire(options.pidFile, files, pid);
    held := guard.1;
    if guard.0 == Conflict {
      return PidFileExists, held;
    }
    var outcome := Run(options, client);
    result := Ran(outcome);
  }
}
